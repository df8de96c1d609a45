/** The outbox relay (app/workers/outbox_relay.py): select, send, mark, commit, as a loop and as steps of the
    protocol. */
module Relay {
  import opened Wrappers
  import opened Outcomes
  import opened Tables
  import opened Protocol
  import opened Continuations

  /** What Kafka makes of one send. A send may raise although its record was stored. */
  datatype SendResult = Acked | RaisedAfterStoring | Raised

  datatype Send = Send(part: Partition, at: real, result: SendResult)

  /** Kafka's answers, by outbox row. */
  type Sends = nat -> Send

  /** Row positions of the first `limit` unpublished rows from `i` on, oldest first. */
  function Unpublished(outbox: seq<OutboxRow>, i: nat, limit: nat): seq<nat>
    requires i <= |outbox|
    decreases |outbox| - i
  {
    if i == |outbox| || limit == 0 then []
    else if outbox[i].published then Unpublished(outbox, i + 1, limit)
    else [i] + Unpublished(outbox, i + 1, limit - 1)
  }

  /** What the relay selects: unpublished rows, oldest first, none twice. */
  ghost predicate IsBatch(outbox: seq<OutboxRow>, events: seq<nat>) {
    && (forall k :: 0 <= k < |events| ==> events[k] < |outbox| && !outbox[events[k]].published)
    && (forall k, l :: 0 <= k < l < |events| ==> events[k] < events[l])
  }

  /** The pending topic's partitions, which every send goes to, exist. */
  ghost predicate Routed(logs: map<Partition, seq<Record>>, sends: Sends) {
    forall i: nat :: sends(i).part in logs && sends(i).part.topic == OutboundPending
  }

  /** What one send makes of its row ... */
  function MarkRow(row: OutboxRow, s: Send): OutboxRow {
    if s.result == Acked then row.(published := true) else row.(publishAttempts := row.publishAttempts + 1)
  }

  /** ... and of the logs. */
  function StoreRecord(logs: map<Partition, seq<Record>>, row: OutboxRow, s: Send): map<Partition, seq<Record>> {
    if s.result == Raised || s.part !in logs then logs
    else logs[s.part := logs[s.part] + [Record(row.envelope, s.at)]]
  }

  /** The rows after the first `k` sends, as the relay's session holds them before it commits. */
  function Marked(outbox: seq<OutboxRow>, events: seq<nat>, sends: Sends, k: nat): (rows: seq<OutboxRow>)
    requires k <= |events|
    ensures |rows| == |outbox|
  {
    if k == 0 then outbox
    else
      var before, i := Marked(outbox, events, sends, k - 1), events[k - 1];
      if i < |outbox| then before[i := MarkRow(before[i], sends(i))] else before
  }

  /** The logs after the first `k` sends. */
  function Stored(logs: map<Partition, seq<Record>>, outbox: seq<OutboxRow>, events: seq<nat>, sends: Sends, k: nat)
    : (stored: map<Partition, seq<Record>>)
    requires k <= |events|
    ensures stored.Keys == logs.Keys
  {
    if k == 0 then logs
    else
      var before, i := Stored(logs, outbox, events, sends, k - 1), events[k - 1];
      if i < |outbox| then StoreRecord(before, outbox[i], sends(i)) else before
  }

  /** The rows whose send, among the first `k`, was acknowledged. */
  function AckedOf(events: seq<nat>, sends: Sends, k: nat): set<nat>
    requires k <= |events|
  {
    if k == 0 then {}
    else AckedOf(events, sends, k - 1) + if sends(events[k - 1]).result == Acked then {events[k - 1]} else {}
  }

  lemma OlderFirst(outbox: seq<OutboxRow>, i: nat, events: seq<nat>)
    requires IsBatch(outbox, events) && i < |outbox| && !outbox[i].published
    requires forall k :: 0 <= k < |events| ==> i < events[k]
    ensures IsBatch(outbox, [i] + events)
  {
    var e := [i] + events;
    forall k, l | 0 <= k < l < |e|
      ensures e[k] < e[l]
    {
      assert e[l] == events[l - 1];
      if k > 0 {
        assert e[k] == events[k - 1];
      }
    }
  }

  lemma {:induction false} UnpublishedInRange(outbox: seq<OutboxRow>, i: nat, limit: nat)
    requires i <= |outbox|
    ensures var e := Unpublished(outbox, i, limit);
      |e| <= limit && IsBatch(outbox, e) && forall k :: 0 <= k < |e| ==> i <= e[k]
    decreases |outbox| - i
  {
    if i < |outbox| && limit > 0 {
      if outbox[i].published {
        UnpublishedInRange(outbox, i + 1, limit);
      } else {
        UnpublishedInRange(outbox, i + 1, limit - 1);
        OlderFirst(outbox, i, Unpublished(outbox, i + 1, limit - 1));
      }
    }
  }

  /** An unpublished row is left out of the batch only if `limit` older ones are in it. */
  lemma {:induction false} OldestFirst(outbox: seq<OutboxRow>, i: nat, limit: nat, row: nat)
    requires i <= row < |outbox| && !outbox[row].published
    ensures var e := Unpublished(outbox, i, limit);
      row in e || (|e| == limit && forall k :: 0 <= k < |e| ==> e[k] < row)
    decreases |outbox| - i
  {
    if limit > 0 && i < row {
      OldestFirst(outbox, i + 1, if outbox[i].published then limit else limit - 1, row);
    }
  }

  /** How many sends a process that lives through `alive` of them makes. */
  function Made(events: seq<nat>, alive: nat): (n: nat)
    ensures n <= |events|
  {
    if alive < |events| then alive else |events|
  }

  /** The relay process: committed rows, and the logs it sends to. */
  class OutboxRelay {
    var outbox: seq<OutboxRow>
    var logs: map<Partition, seq<Record>>

    constructor (outbox: seq<OutboxRow>, logs: map<Partition, seq<Record>>)
      ensures this.outbox == outbox && this.logs == logs
    {
      this.outbox, this.logs := outbox, logs;
    }

    /** `send_and_wait` and what follows it for one row: marked if acknowledged, counted if it raised. */
    method SendRow(row: OutboxRow, s: Send) returns (r: OutboxRow)
      requires s.part in logs
      modifies this`logs
      ensures logs == StoreRecord(old(logs), row, s) && r == MarkRow(row, s)
    {
      if s.result != Raised {
        logs := logs[s.part := logs[s.part] + [Record(row.envelope, s.at)]];
      }
      if s.result != Acked {
        return row.(publishAttempts := row.publishAttempts + 1);
      }
      return row.(published := true);
    }

    /** The loop of `publish_unpublished_batch` over the selected rows, cut off after `alive` sends if the
        process dies before the end; `rows` is what the open session would commit. */
    method SendAll(events: seq<nat>, sends: Sends, alive: nat) returns (rows: seq<OutboxRow>, published: nat)
      requires Routed(logs, sends) && IsBatch(outbox, events)
      modifies this`logs
      ensures rows == Marked(outbox, events, sends, Made(events, alive))
      ensures logs == Stored(old(logs), outbox, events, sends, Made(events, alive))
      ensures published == |AckedOf(events, sends, Made(events, alive))|
    {
      rows, published := outbox, 0;
      for k := 0 to Made(events, alive)
        invariant rows == Marked(outbox, events, sends, k)
        invariant logs == Stored(old(logs), outbox, events, sends, k)
        invariant published == |AckedOf(events, sends, k)|
      {
        var i := events[k];
        BatchStep(old(logs), outbox, events, sends, k);
        var row := SendRow(rows[i], sends(i));
        rows := rows[i := row];
        if sends(i).result == Acked {
          published := published + 1;
        }
      }
    }

    /** `publish_unpublished_batch`. */
    method PublishUnpublishedBatch(limit: nat, sends: Sends, alive: nat) returns (rows: seq<OutboxRow>, published: nat)
      requires Routed(logs, sends)
      modifies this`logs
      ensures var events := Unpublished(outbox, 0, limit); var n := Made(events, alive);
        && rows == Marked(outbox, events, sends, n)
        && logs == Stored(old(logs), outbox, events, sends, n)
        && published == |AckedOf(events, sends, n)|
    {
      UnpublishedInRange(outbox, 0, limit);
      rows, published := SendAll(Unpublished(outbox, 0, limit), sends, alive);
    }

    /** One turn of `run`: the batch and its commit. A process that dies on the way has stored records, but
        commits nothing. */
    method Turn(limit: nat, sends: Sends, alive: nat) returns (published: nat)
      requires Routed(logs, sends)
      modifies this
      ensures var events := Unpublished(old(outbox), 0, limit); var n := Made(events, alive);
        && logs == Stored(old(logs), old(outbox), events, sends, n)
        && outbox == (if alive < |events| then old(outbox) else Marked(old(outbox), events, sends, n))
        && published == |AckedOf(events, sends, n)|
    {
      var rows;
      rows, published := PublishUnpublishedBatch(limit, sends, alive);
      if |Unpublished(outbox, 0, limit)| <= alive {
        outbox := rows;
      }
    }
  }

  /** Acknowledged rows come from the sends made so far. */
  lemma {:induction false} AckedBefore(events: seq<nat>, sends: Sends, k: nat)
    requires k <= |events| && forall j, l :: 0 <= j < l < |events| ==> events[j] < events[l]
    ensures forall i :: i in AckedOf(events, sends, k) ==> forall l :: k <= l < |events| ==> i < events[l]
  {
    if k > 0 {
      AckedBefore(events, sends, k - 1);
    }
  }

  /** One more acknowledgement is one more row. */
  lemma FreshRow(events: seq<nat>, sends: Sends, k: nat)
    requires k < |events| && forall j, l :: 0 <= j < l < |events| ==> events[j] < events[l]
    ensures |AckedOf(events, sends, k + 1)|
         == |AckedOf(events, sends, k)| + if sends(events[k]).result == Acked then 1 else 0
  {
    AckedBefore(events, sends, k);
    if sends(events[k]).result != Acked {
      assert AckedOf(events, sends, k + 1) == AckedOf(events, sends, k);
    }
  }

  /** What the next send of a batch does to its rows, logs and count. */
  lemma BatchStep(logs: map<Partition, seq<Record>>, outbox: seq<OutboxRow>, events: seq<nat>, sends: Sends, k: nat)
    requires Routed(logs, sends) && IsBatch(outbox, events) && k < |events|
    ensures var i := events[k];
      && i < |outbox| && sends(i).part in Stored(logs, outbox, events, sends, k)
      && Marked(outbox, events, sends, k)[i] == outbox[i]
      && Marked(outbox, events, sends, k + 1) == Marked(outbox, events, sends, k)[i := MarkRow(outbox[i], sends(i))]
      && Stored(logs, outbox, events, sends, k + 1)
           == StoreRecord(Stored(logs, outbox, events, sends, k), outbox[i], sends(i))
      && |AckedOf(events, sends, k + 1)|
           == |AckedOf(events, sends, k)| + if sends(i).result == Acked then 1 else 0
  {
    MarkedAt(outbox, events, sends, k, events[k]);
    FreshRow(events, sends, k);
    assert sends(events[k]).part in logs.Keys;
  }

  /** A row is marked once: rows outside the batch so far are unchanged. */
  lemma {:induction false} MarkedAt(outbox: seq<OutboxRow>, events: seq<nat>, sends: Sends, k: nat, row: nat)
    requires k <= |events| && row < |outbox| && forall j :: 0 <= j < k ==> events[j] != row
    ensures Marked(outbox, events, sends, k)[row] == outbox[row]
  {
    if k > 0 {
      MarkedAt(outbox, events, sends, k - 1, row);
    }
  }

  /** After a batch a row is published exactly if it already was, or it was in the batch and Kafka
      acknowledged it; a send that raised is only counted; no other row changes. */
  lemma {:induction false} MarkedRow(outbox: seq<OutboxRow>, events: seq<nat>, sends: Sends, k: nat, row: nat)
    requires IsBatch(outbox, events) && k <= |events| && row < |outbox|
    ensures Marked(outbox, events, sends, k)[row] ==
      if row !in events[..k] then outbox[row]
      else if sends(row).result == Acked then outbox[row].(published := true)
      else outbox[row].(publishAttempts := outbox[row].publishAttempts + 1)
  {
    if k > 0 {
      MarkedRow(outbox, events, sends, k - 1, row);
      assert events[..k] == events[..k - 1] + [events[k - 1]];
    }
  }

  /** Publish before mark: every row a batch marks has its delivery's record in the log it was sent to. */
  lemma {:induction false} MarkedRowsWereSent(logs: map<Partition, seq<Record>>, outbox: seq<OutboxRow>,
                                             events: seq<nat>, sends: Sends, k: nat, row: nat)
    requires IsBatch(outbox, events) && Routed(logs, sends) && k <= |events| && row in AckedOf(events, sends, k)
    ensures row < |outbox| && sends(row).part in logs
    ensures Record(outbox[row].envelope, sends(row).at) in Stored(logs, outbox, events, sends, k)[sends(row).part]
  {
    AckedIs(events, sends, k);
    var part, before := sends(row).part, Stored(logs, outbox, events, sends, k - 1);
    assert part in logs && part in before.Keys && part in Stored(logs, outbox, events, sends, k).Keys;
    assert events[k - 1] < |outbox|;
    if events[k - 1] == row {
      assert Stored(logs, outbox, events, sends, k)[part]
          == before[part] + [Record(outbox[row].envelope, sends(row).at)];
    } else {
      MarkedRowsWereSent(logs, outbox, events, sends, k - 1, row);
      assert before[part] <= Stored(logs, outbox, events, sends, k)[part];
    }
  }

  // ---------------------------------------------------------------- as steps of the protocol

  /** The protocol steps of the first `k` sends: one per record that Kafka stored. */
  function SendSteps(events: seq<nat>, sends: Sends, k: nat): seq<Step>
    requires k <= |events|
  {
    if k == 0 then []
    else
      var i := events[k - 1];
      var before := SendSteps(events, sends, k - 1);
      if sends(i).result == Raised then before else before + [StepOf(i, sends(i))]
  }

  function StepOf(row: nat, s: Send): Step {
    RelaySend(row, s.part, s.at, s.result == Acked)
  }

  /** The state of the protocol after the first `k` sends. */
  function MidBatch(h: Hub, events: seq<nat>, sends: Sends, k: nat): Hub
    requires k <= |events|
  {
    h.(logs := Stored(h.logs, h.tables.outbox, events, sends, k), sent := AckedOf(events, sends, k))
  }

  lemma SendIsStep(h: Hub, events: seq<nat>, sends: Sends, k: nat)
    requires Routed(h.logs, sends) && IsBatch(h.tables.outbox, events) && k < |events|
    requires sends(events[k]).result != Raised
    ensures var s := StepOf(events[k], sends(events[k]));
      && Enabled(MidBatch(h, events, sends, k), s)
      && Apply(MidBatch(h, events, sends, k), s) == MidBatch(h, events, sends, k + 1)
  {
    AckedBefore(events, sends, k);
    assert sends(events[k]).part in Stored(h.logs, h.tables.outbox, events, sends, k).Keys;
  }

  /** Before its commit, a batch is a sequence of enabled protocol steps with the same effect on the logs. */
  lemma {:induction false} SendsAreSteps(h: Hub, events: seq<nat>, sends: Sends, k: nat)
    requires h.sent == {} && Routed(h.logs, sends) && IsBatch(h.tables.outbox, events) && k <= |events|
    ensures After(h, SendSteps(events, sends, k)) == Some(MidBatch(h, events, sends, k))
  {
    if k > 0 {
      SendsAreSteps(h, events, sends, k - 1);
      var i := events[k - 1];
      if sends(i).result != Raised {
        SendIsStep(h, events, sends, k - 1);
        AfterOneMore(h, SendSteps(events, sends, k - 1), MidBatch(h, events, sends, k - 1), StepOf(i, sends(i)));
      } else {
        assert AckedOf(events, sends, k) == AckedOf(events, sends, k - 1);
      }
    }
  }

  /** The outbox but for the counters of refused sends, which nothing in the protocol reads. */
  ghost predicate SameButCounters(a: seq<OutboxRow>, b: seq<OutboxRow>) {
    |a| == |b| && forall i :: 0 <= i < |a| ==> a[i] == b[i].(publishAttempts := a[i].publishAttempts)
  }

  /** The protocol steps of a whole turn. */
  function TurnSteps(events: seq<nat>, sends: Sends, alive: nat): seq<Step> {
    SendSteps(events, sends, Made(events, alive)) + [if alive < |events| then RelayCrash else RelayCommit]
  }

  /** Every turn of the relay, whichever sends raise and wherever the process dies, is a sequence of enabled
      protocol steps that leaves the same logs and the same outbox, and nothing else changed. */
  lemma TurnIsProtocolSteps(h: Hub, limit: nat, sends: Sends, alive: nat)
    requires h.sent == {} && Routed(h.logs, sends)
    ensures var events := Unpublished(h.tables.outbox, 0, limit); var n := Made(events, alive);
      var r := After(h, TurnSteps(events, sends, alive));
      && r.Some?
      && r.value == h.(logs := Stored(h.logs, h.tables.outbox, events, sends, n),
                       tables := h.tables.(outbox := r.value.tables.outbox))
      && SameButCounters(r.value.tables.outbox,
                         if alive < |events| then h.tables.outbox else Marked(h.tables.outbox, events, sends, n))
  {
    var events := Unpublished(h.tables.outbox, 0, limit);
    var n := Made(events, alive);
    UnpublishedInRange(h.tables.outbox, 0, limit);
    SendsAreSteps(h, events, sends, n);
    AfterOneMore(h, SendSteps(events, sends, n), MidBatch(h, events, sends, n),
                 if alive < |events| then RelayCrash else RelayCommit);
    MarkedAsSent(h.tables.outbox, events, sends, n);
  }

  lemma MarkedAsSent(outbox: seq<OutboxRow>, events: seq<nat>, sends: Sends, k: nat)
    requires IsBatch(outbox, events) && k <= |events|
    ensures SameButCounters(MarkSent(outbox, AckedOf(events, sends, k)), Marked(outbox, events, sends, k))
  {
    AckedIs(events, sends, k);
    forall i | 0 <= i < |outbox|
      ensures MarkSent(outbox, AckedOf(events, sends, k))[i]
           == Marked(outbox, events, sends, k)[i].(publishAttempts := outbox[i].publishAttempts)
    {
      MarkedRow(outbox, events, sends, k, i);
    }
  }

  lemma {:induction false} AckedIs(events: seq<nat>, sends: Sends, k: nat)
    requires k <= |events|
    ensures forall i :: i in AckedOf(events, sends, k) <==> i in events[..k] && sends(i).result == Acked
  {
    if k > 0 {
      AckedIs(events, sends, k - 1);
      assert events[..k] == events[..k - 1] + [events[k - 1]];
    }
  }
}
