/** The committed PostgreSQL rows of the outbound path, with their unique constraints. */
module Tables {
  import opened Wrappers
  import opened Status
  import opened Text

  /** A delivery's public id; the BIGINT key is identified with it. */
  type DeliveryId = nat

  datatype Delivery = Delivery(
    partner: int,
    endpoint: Uuid,
    idempotencyKey: string,
    sourceEventId: string,
    status: DeliveryStatus,
    attemptCount: nat,
    maxAttempts: int,
    nextRetryAt: Option<real>,
    firstSuccessAt: Option<real>,
    slaDeadlineAt: real,
    slaBreached: bool)

  /** `delivery` is the row's aggregate id, `envelope` the delivery named by the published payload. */
  datatype OutboxRow = OutboxRow(delivery: DeliveryId, envelope: DeliveryId, published: bool, publishAttempts: nat)

  /** `attempts[d]` holds the attempt numbers stored for `d` (unique per delivery);
      `audits` lists the deliveries named by `delivery.replay` audit entries, in order. */
  datatype Tables = Tables(
    deliveries: map<DeliveryId, Delivery>,
    attempts: map<DeliveryId, set<int>>,
    deadLetters: set<DeliveryId>,
    outbox: seq<OutboxRow>,
    audits: seq<DeliveryId>)

  const EMPTY := Tables(map[], map[], {}, [], [])

  /** What one processor transaction writes. */
  datatype Unit = Unit(delivery: Delivery, attempt: Option<int>, deadLetter: bool)

  /** A commit applies the whole unit, or violates a unique constraint and applies nothing. */
  predicate Violates(t: Tables, id: DeliveryId, u: Unit)
    requires id in t.attempts
  {
    || (u.attempt.Some? && u.attempt.value in t.attempts[id])
    || (u.deadLetter && id in t.deadLetters)
  }

  function Commit(t: Tables, id: DeliveryId, u: Unit): Option<Tables>
    requires id in t.attempts
  {
    if Violates(t, id, u) then None
    else Some(t.(
      deliveries := t.deliveries[id := u.delivery],
      attempts := if u.attempt.Some? then t.attempts[id := t.attempts[id] + {u.attempt.value}] else t.attempts,
      deadLetters := if u.deadLetter then t.deadLetters + {id} else t.deadLetters))
  }

  function Count(ids: seq<DeliveryId>, id: DeliveryId): nat {
    if ids == [] then 0 else Count(ids[..|ids| - 1], id) + (if ids[|ids| - 1] == id then 1 else 0)
  }

  function Rows(outbox: seq<OutboxRow>, id: DeliveryId): nat {
    if outbox == [] then 0
    else Rows(outbox[..|outbox| - 1], id) + (if outbox[|outbox| - 1].delivery == id then 1 else 0)
  }

  lemma {:induction false} RowsAppend(a: seq<OutboxRow>, b: seq<OutboxRow>, id: DeliveryId)
    ensures Rows(a + b, id) == Rows(a, id) + Rows(b, id)
  {
    if b == [] {
      assert a + b == a;
    } else {
      assert (a + b)[..|a + b| - 1] == a + b[..|b| - 1];
      RowsAppend(a, b[..|b| - 1], id);
    }
  }

  /** Rows depends only on the rows' aggregate ids. */
  lemma {:induction false} RowsSameIds(a: seq<OutboxRow>, b: seq<OutboxRow>, id: DeliveryId)
    requires |a| == |b| && forall i :: 0 <= i < |a| ==> a[i].delivery == b[i].delivery
    ensures Rows(a, id) == Rows(b, id)
  {
    if a != [] {
      RowsSameIds(a[..|a| - 1], b[..|b| - 1], id);
    }
  }

  /** A delivery named by exactly one row of `a`, at `k`, is counted once; an unnamed one not at all. */
  lemma {:induction false} RowsUnique(a: seq<OutboxRow>, id: DeliveryId)
    requires forall i, j :: 0 <= i < j < |a| ==> a[i].delivery != a[j].delivery
    ensures Rows(a, id) == if exists k :: 0 <= k < |a| && a[k].delivery == id then 1 else 0
  {
    if a != [] {
      var b := a[..|a| - 1];
      RowsUnique(b, id);
      if a[|a| - 1].delivery == id {
        assert forall k :: 0 <= k < |b| ==> b[k] == a[k];
      } else if exists k :: 0 <= k < |a| && a[k].delivery == id {
        var k :| 0 <= k < |a| && a[k].delivery == id;
        assert b[k].delivery == id;
      }
    }
  }

  lemma {:induction false} RowsAbsent(a: seq<OutboxRow>, id: DeliveryId)
    requires forall i :: 0 <= i < |a| ==> a[i].delivery != id
    ensures Rows(a, id) == 0
  {
    if a != [] {
      RowsAbsent(a[..|a| - 1], id);
    }
  }

  /** Appending one row for each of the distinct `ids` adds one to exactly those deliveries. */
  lemma RowsOfBatch(before: seq<OutboxRow>, after: seq<OutboxRow>, ids: seq<DeliveryId>, id: DeliveryId)
    requires |after| == |before| + |ids|
    requires forall i :: 0 <= i < |before| ==> after[i] == before[i]
    requires forall i :: 0 <= i < |ids| ==> after[|before| + i].delivery == ids[i]
    requires forall i, j :: 0 <= i < j < |ids| ==> ids[i] != ids[j]
    ensures Rows(after, id) == Rows(before, id) + if id in ids then 1 else 0
  {
    var added := after[|before|..];
    assert after == before + added;
    assert forall i :: 0 <= i < |added| ==> added[i].delivery == ids[i];
    RowsAppend(before, added, id);
    RowsUnique(added, id);
    if id in ids {
      var i :| 0 <= i < |ids| && ids[i] == id;
      assert added[i].delivery == id;
    }
  }

  /** The attempt numbers 1..n. */
  ghost function UpTo(n: nat): (s: set<int>)
    ensures forall k :: k in s <==> 1 <= k <= n
    ensures |s| == n
  {
    if n == 0 then {} else UpTo(n - 1) + {n}
  }
}
