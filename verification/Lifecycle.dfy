/** What every committed table state keeps, and what one transaction does to it. */
module Lifecycle {
  import opened Wrappers
  import opened Status
  import opened Outcomes
  import opened Tables
  import opened Processor
  import opened Replays
  import opened Outbox

  function AttemptLimit(d: Delivery): int {
    if d.maxAttempts < 1 then 1 else d.maxAttempts
  }

  function Replayed(t: Tables, id: DeliveryId): nat {
    Count(t.audits, id)
  }

  /** Attempt rows are numbered 1..n, and the counter never runs ahead of them; until the first dead
      letter an open delivery's counter is exactly n and below the limit. No more rows are ever stored
      than the limit allows, but for the one that delivers a replayed delivery. */
  ghost predicate AttemptsOk(t: Tables, id: DeliveryId)
    requires id in t.deliveries && id in t.attempts
  {
    var d, n := t.deliveries[id], |t.attempts[id]|;
    && t.attempts[id] == UpTo(n)
    && d.attemptCount <= n
    && (IsOpen(d.status) && id !in t.deadLetters ==> d.attemptCount == n < AttemptLimit(d))
    && n <= AttemptLimit(d) + (if d.status == DELIVERED then Replayed(t, id) else 0)
  }

  /** DELIVERING is never committed; the SLA fields tell exactly when and whether too late. */
  predicate StatusOk(d: Delivery) {
    && d.status != DELIVERING
    && (d.firstSuccessAt.Some? <==> d.status == DELIVERED)
    && (d.slaBreached <==> d.firstSuccessAt.Some? && d.firstSuccessAt.value > d.slaDeadlineAt)
  }

  /** One outbox row for the enqueue and one per replay; the dead letter marks a delivery that is
      FAILED or was, and a delivery that was replayed never becomes FAILED again. */
  ghost predicate ConservationOk(t: Tables, id: DeliveryId)
    requires id in t.deliveries
  {
    var s := t.deliveries[id].status;
    && Rows(t.outbox, id) == 1 + Replayed(t, id)
    && Replayed(t, id) <= 1
    && (id in t.deadLetters <==> s == FAILED || Replayed(t, id) == 1)
    && (s == FAILED || s == PENDING ==> Replayed(t, id) == 0)
    && (s == REPLAYING ==> Replayed(t, id) == 1)
  }

  ghost predicate Wellformed(t: Tables) {
    && t.attempts.Keys == t.deliveries.Keys
    && t.deadLetters <= t.deliveries.Keys
    && (forall i :: 0 <= i < |t.outbox| ==>
          t.outbox[i].delivery in t.deliveries && t.outbox[i].envelope == t.outbox[i].delivery)
    && (forall i :: 0 <= i < |t.audits| ==> t.audits[i] in t.deliveries)
  }

  ghost predicate DeliveryOk(t: Tables, id: DeliveryId)
    requires id in t.deliveries && id in t.attempts
  {
    AttemptsOk(t, id) && StatusOk(t.deliveries[id]) && ConservationOk(t, id)
  }

  ghost predicate TablesOk(t: Tables) {
    && Wellformed(t)
    && forall id {:trigger DeliveryOk(t, id)} :: id in t.deliveries ==> DeliveryOk(t, id)
  }

  /** The fields that say which event and endpoint a delivery is for. */
  predicate SameIdentity(d: Delivery, d': Delivery) {
    && d'.partner == d.partner && d'.endpoint == d.endpoint
    && d'.idempotencyKey == d.idempotencyKey && d'.sourceEventId == d.sourceEventId
  }

  /** What the rows written for an open delivery look like, whatever the delays and topics are. */
  predicate Shape(d: Delivery, u: Unit, posted: bool) {
    var d' := u.delivery;
    && SameIdentity(d, d') && d'.maxAttempts == d.maxAttempts && d'.slaDeadlineAt == d.slaDeadlineAt
    && u.attempt == (if posted then Some(d.attemptCount + 1) else None)
    && (u.deadLetter <==> d'.status == FAILED)
    && match d'.status
       case DELIVERED =>
         && posted && d'.attemptCount == d.attemptCount
         && (d.firstSuccessAt.None? ==>
               d'.firstSuccessAt.Some?
               && (d'.slaBreached <==> d.slaBreached || d'.firstSuccessAt.value > d.slaDeadlineAt))
       case RETRYING =>
         && d'.firstSuccessAt == d.firstSuccessAt && d'.slaBreached == d.slaBreached
         && (if posted then d'.attemptCount == d.attemptCount + 1 < d.maxAttempts
             else d'.attemptCount == d.attemptCount)
       case FAILED =>
         && d'.firstSuccessAt == d.firstSuccessAt && d'.slaBreached == d.slaBreached
         && d.attemptCount <= d'.attemptCount <= d.attemptCount + (if posted then 1 else 0)
       case _ => false
  }

  lemma DecideShape(id: DeliveryId, d: Delivery, cfg: Settings, w: Environment)
    ensures Shape(d, Decide(id, d, cfg, w).0, w.hasSecret && w.admitted)
  {
  }

  lemma ProcessShape(t: Tables, id: DeliveryId, cfg: Settings, w: Environment) returns (u: Unit)
    requires t.deliveries.Keys <= t.attempts.Keys && !Process(t, id, cfg, w).Skipped?
    ensures id in t.deliveries && IsOpen(t.deliveries[id].status)
    ensures Shape(t.deliveries[id], u, Process(t, id, cfg, w).posted)
    ensures Process(t, id, cfg, w).Committed? <==> Commit(t, id, u).Some?
    ensures Process(t, id, cfg, w).Committed? ==> Process(t, id, cfg, w).tables == Commit(t, id, u).value
  {
    u := Decide(id, t.deliveries[id], cfg, w).0;
    DecideShape(id, t.deliveries[id], cfg, w);
  }

  /** A retry record is published exactly for a delivery that stays open, and names it. */
  lemma ProcessRetry(t: Tables, id: DeliveryId, cfg: Settings, w: Environment)
    requires t.deliveries.Keys <= t.attempts.Keys
    ensures var v := Process(t, id, cfg, w);
      v.Committed? ==>
        && (v.retry.Some? <==> IsOpen(v.tables.deliveries[id].status))
        && (v.retry.Some? ==> v.retry.value.delivery == id)
  {
  }

  /** Every processor commit keeps the table invariant. */
  lemma ProcessKeepsTables(t: Tables, id: DeliveryId, cfg: Settings, w: Environment)
    requires TablesOk(t) && Process(t, id, cfg, w).Committed?
    ensures TablesOk(Process(t, id, cfg, w).tables)
  {
    var u := ProcessShape(t, id, cfg, w);
    CommitKeepsTables(t, id, u, Process(t, id, cfg, w).posted);
  }

  lemma CommitKeepsTables(t: Tables, id: DeliveryId, u: Unit, posted: bool)
    requires TablesOk(t) && id in t.deliveries && IsOpen(t.deliveries[id].status)
    requires Shape(t.deliveries[id], u, posted) && Commit(t, id, u).Some?
    ensures TablesOk(Commit(t, id, u).value)
  {
    var t' := Commit(t, id, u).value;
    forall other | other in t'.deliveries
      ensures DeliveryOk(t', other)
    {
      if other == id {
        CommitKeepsOwn(t, id, u, posted);
      } else {
        CommitKeepsOther(t, id, u, other);
      }
    }
  }

  lemma CommitKeepsOwn(t: Tables, id: DeliveryId, u: Unit, posted: bool)
    requires TablesOk(t) && id in t.deliveries && IsOpen(t.deliveries[id].status)
    requires Shape(t.deliveries[id], u, posted) && Commit(t, id, u).Some?
    ensures DeliveryOk(Commit(t, id, u).value, id)
    ensures |Commit(t, id, u).value.attempts[id]| == |t.attempts[id]| + if posted then 1 else 0
  {
    var t' := Commit(t, id, u).value;
    assert DeliveryOk(t, id);
    var n := |t.attempts[id]|;
    if posted {
      assert u.attempt.value == n + 1;
      assert t'.attempts[id] == UpTo(n) + {n + 1} == UpTo(n + 1);
    }
    assert StatusOk(u.delivery);
  }

  lemma CommitKeepsOther(t: Tables, id: DeliveryId, u: Unit, other: DeliveryId)
    requires TablesOk(t) && id in t.deliveries && other in t.deliveries && other != id
    requires Commit(t, id, u).Some?
    ensures DeliveryOk(Commit(t, id, u).value, other)
  {
    assert DeliveryOk(t, other);
  }

  /** Before its first dead letter an open delivery's commit never meets a unique constraint. */
  lemma FirstLifeNeverAborts(t: Tables, id: DeliveryId, cfg: Settings, w: Environment)
    requires TablesOk(t) && id in t.deliveries && id !in t.deadLetters && IsOpen(t.deliveries[id].status)
    ensures Process(t, id, cfg, w).Committed?
  {
    var u := ProcessShape(t, id, cfg, w);
    assert DeliveryOk(t, id);
  }

  /** A commit after a POST ends the delivery or uses up one of its remaining attempts; a commit
      without a POST consumes no attempt. */
  lemma CommitMakesProgress(t: Tables, id: DeliveryId, cfg: Settings, w: Environment)
    requires TablesOk(t) && Process(t, id, cfg, w).Committed?
    ensures var v := Process(t, id, cfg, w); var d, d' := t.deliveries[id], v.tables.deliveries[id];
      && (v.posted ==>
            || d'.status == DELIVERED || d'.status == FAILED
            || (0 < d'.maxAttempts - d'.attemptCount < d.maxAttempts - d.attemptCount))
      && |v.tables.attempts[id]| == |t.attempts[id]| + (if v.posted then 1 else 0)
      && (!v.posted ==> d'.attemptCount == d.attemptCount && v.tables.attempts == t.attempts)
  {
    var u := ProcessShape(t, id, cfg, w);
    CommitKeepsOwn(t, id, u, Process(t, id, cfg, w).posted);
  }

  /** Every commit moves the status along allowed edges only. */
  lemma CommitFollowsEdges(t: Tables, id: DeliveryId, cfg: Settings, w: Environment)
    requires t.deliveries.Keys <= t.attempts.Keys && Process(t, id, cfg, w).Committed?
    ensures PathBetween(t.deliveries[id].status, Process(t, id, cfg, w).tables.deliveries[id].status)
  {
    var u := ProcessShape(t, id, cfg, w);
    assert IsPath([t.deliveries[id].status, DELIVERING, u.delivery.status]);
  }

  lemma {:induction false} CountAbsent(ids: seq<DeliveryId>, id: DeliveryId)
    requires id !in ids
    ensures Count(ids, id) == 0
  {
    if ids != [] {
      CountAbsent(ids[..|ids| - 1], id);
    }
  }

  lemma ReplayKeepsTables(t: Tables, id: DeliveryId, reset: bool)
    requires TablesOk(t) && Replay(t, id, reset).Some?
    ensures TablesOk(Replay(t, id, reset).value)
  {
    var t' := Replay(t, id, reset).value;
    forall other | other in t'.deliveries
      ensures DeliveryOk(t', other)
    {
      ReplayKeepsDelivery(t, id, reset, other);
    }
  }

  lemma ReplayKeepsDelivery(t: Tables, id: DeliveryId, reset: bool, other: DeliveryId)
    requires TablesOk(t) && Replay(t, id, reset).Some? && other in t.deliveries
    ensures DeliveryOk(Replay(t, id, reset).value, other)
  {
    var t' := Replay(t, id, reset).value;
    assert DeliveryOk(t, other);
    assert t'.outbox[..|t'.outbox| - 1] == t.outbox;
    assert t'.audits[..|t'.audits| - 1] == t.audits;
  }

  /** A freshly built delivery, as `build_pending_delivery` makes it. */
  predicate IsNew(d: Delivery) {
    d.status == PENDING && d.attemptCount == 0 && d.firstSuccessAt == None && !d.slaBreached
  }

  lemma PersistKeepsTables(t: Tables, news: seq<NewRow>)
    requires TablesOk(t) && Persist(t, news, Ids(news)).Persisted?
    requires forall i :: 0 <= i < |news| ==> IsNew(news[i].1)
    ensures TablesOk(Persist(t, news, Ids(news)).tables)
  {
    PersistAddsExactly(t, news, Ids(news));
    DistinctIds(t, news);
    AddedKeepsTables(t, Persist(t, news, Ids(news)).tables, news);
  }

  lemma AddedKeepsTables(t: Tables, t': Tables, news: seq<NewRow>)
    requires TablesOk(t) && AddsExactly(t, t', news, Ids(news))
    requires forall i :: 0 <= i < |news| ==> IsNew(news[i].1)
    requires forall i, j :: 0 <= i < j < |news| ==> news[i].0 != news[j].0
    ensures TablesOk(t')
  {
    AddedKeepsWellformed(t, t', news);
    forall id | id in t'.deliveries
      ensures DeliveryOk(t', id)
    {
      AddedKeepsDelivery(t, t', news, id);
    }
  }

  lemma AddedKeepsDelivery(t: Tables, t': Tables, news: seq<NewRow>, id: DeliveryId)
    requires TablesOk(t) && AddsExactly(t, t', news, Ids(news)) && id in t'.deliveries
    requires forall i :: 0 <= i < |news| ==> IsNew(news[i].1)
    requires forall i, j :: 0 <= i < j < |news| ==> news[i].0 != news[j].0
    ensures id in t'.attempts && DeliveryOk(t', id)
  {
    if id in t.deliveries {
      OldDeliveryKept(t, t', news, id);
    } else {
      var i :| 0 <= i < |news| && news[i].0 == id;
      NewDeliveryOk(t, t', news, i);
    }
  }

  lemma AddedKeepsWellformed(t: Tables, t': Tables, news: seq<NewRow>)
    requires Wellformed(t) && AddsExactly(t, t', news, Ids(news))
    ensures Wellformed(t')
  {
    forall i | |t.outbox| <= i < |t'.outbox|
      ensures t'.outbox[i].delivery in t'.deliveries && t'.outbox[i].envelope == t'.outbox[i].delivery
    {
      assert t'.outbox[|t.outbox| + (i - |t.outbox|)].delivery == news[i - |t.outbox|].0;
    }
  }

  lemma OldDeliveryKept(t: Tables, t': Tables, news: seq<NewRow>, id: DeliveryId)
    requires TablesOk(t) && AddsExactly(t, t', news, Ids(news)) && id in t.deliveries
    requires forall i, j :: 0 <= i < j < |news| ==> news[i].0 != news[j].0
    ensures DeliveryOk(t', id)
  {
    BatchCounted(t.outbox, t'.outbox, news, id);
    assert DeliveryOk(t, id);
    assert id !in Ids(news);
  }

  /** Each new delivery gets one outbox row, and no other delivery gets any. */
  lemma BatchCounted(rows: seq<OutboxRow>, rows': seq<OutboxRow>, news: seq<NewRow>, id: DeliveryId)
    requires AddsRows(rows, rows', news, Ids(news))
    requires forall i, j :: 0 <= i < j < |news| ==> news[i].0 != news[j].0
    ensures Rows(rows', id) == Rows(rows, id) + if id in Ids(news) then 1 else 0
  {
    var ids := Ids(news);
    assert |ids| == |news| && forall i :: 0 <= i < |ids| ==> ids[i] == news[i].0;
    RowsOfBatch(rows, rows', ids, id);
  }

  lemma NotCountedBefore(t: Tables, id: DeliveryId)
    requires Wellformed(t) && id !in t.deliveries
    ensures Rows(t.outbox, id) == 0 && Replayed(t, id) == 0
  {
    RowsAbsent(t.outbox, id);
    CountAbsent(t.audits, id);
  }

  lemma NewDeliveryCounted(t: Tables, t': Tables, news: seq<NewRow>, i: nat)
    requires Wellformed(t) && AddsExactly(t, t', news, Ids(news)) && i < |news|
    requires forall i, j :: 0 <= i < j < |news| ==> news[i].0 != news[j].0
    ensures Rows(t'.outbox, news[i].0) == 1 && Replayed(t', news[i].0) == 0
  {
    var id := news[i].0;
    assert Ids(news)[i] == id;
    BatchCounted(t.outbox, t'.outbox, news, id);
    NotCountedBefore(t, id);
  }

  lemma NewDeliveryOk(t: Tables, t': Tables, news: seq<NewRow>, i: nat)
    requires Wellformed(t) && AddsExactly(t, t', news, Ids(news)) && i < |news| && IsNew(news[i].1)
    requires forall i, j :: 0 <= i < j < |news| ==> news[i].0 != news[j].0
    ensures DeliveryOk(t', news[i].0)
  {
    NewDeliveryCounted(t, t', news, i);
    assert t'.attempts[news[i].0] == {} == UpTo(0);
  }

  /** The partner accepts the POST. */
  predicate Succeeds(w: Environment) {
    w.hasSecret && w.admitted && ClassifyPost(w) == SUCCESS
  }

  /** A successful POST is committed as DELIVERED exactly if the counter is not behind the attempt rows. */
  lemma SuccessCommitsIff(t: Tables, id: DeliveryId, cfg: Settings, w: Environment)
    requires TablesOk(t) && id in t.deliveries && IsOpen(t.deliveries[id].status) && Succeeds(w)
    ensures Process(t, id, cfg, w).Committed? <==> t.deliveries[id].attemptCount == |t.attempts[id]|
    ensures var v := Process(t, id, cfg, w); v.Committed? ==> v.tables.deliveries[id].status == DELIVERED
  {
    assert DeliveryOk(t, id);
    assert Decide(id, t.deliveries[id], cfg, w).0.delivery.status == DELIVERED;
  }

  /** A deferral is always committed: it writes no attempt row and no dead letter. */
  lemma DeferralCommits(t: Tables, id: DeliveryId, cfg: Settings, w: Environment)
    requires TablesOk(t) && id in t.deliveries && IsOpen(t.deliveries[id].status) && w.hasSecret && !w.admitted
    ensures var v := Process(t, id, cfg, w);
      && v.Committed? && v.retry.Some? && v.tables.attempts == t.attempts && v.tables.outbox == t.outbox
      && v.tables.deliveries.Keys == t.deliveries.Keys
      && v.tables.deliveries[id].status == RETRYING
      && v.tables.deliveries[id].attemptCount == t.deliveries[id].attemptCount
      && forall x :: x in t.deliveries && x != id ==> v.tables.deliveries[x] == t.deliveries[x]
  {
  }

  /** The transaction would store FAILED: no secret, a final refusal, or a retryable answer to the last attempt. */
  predicate EndsFailed(d: Delivery, w: Environment) {
    || !w.hasSecret
    || (w.admitted && (ClassifyPost(w) == POISON || (ClassifyPost(w) == RETRYABLE && !Retries(d))))
  }

  /** The transaction meets a unique constraint: its attempt row is already there, or its dead letter is. */
  predicate Collides(t: Tables, id: DeliveryId, w: Environment) {
    && id in t.deliveries && id in t.attempts && IsOpen(t.deliveries[id].status)
    && (|| (w.hasSecret && w.admitted && t.deliveries[id].attemptCount < |t.attempts[id]|)
        || (id in t.deadLetters && EndsFailed(t.deliveries[id], w)))
  }

  /** The processor's commit aborts, which ends the worker, exactly in these cases. */
  lemma AbortsIff(t: Tables, id: DeliveryId, cfg: Settings, w: Environment)
    requires TablesOk(t)
    ensures Process(t, id, cfg, w).Aborted? <==> Collides(t, id, w)
  {
    if id in t.deliveries && IsOpen(t.deliveries[id].status) {
      assert DeliveryOk(t, id);
      var u := Decide(id, t.deliveries[id], cfg, w).0;
      DecideShape(id, t.deliveries[id], cfg, w);
      assert u.deadLetter <==> EndsFailed(t.deliveries[id], w);
    }
  }

  /** The breaker refuses, so nothing is POSTed. */
  predicate Defers(w: Environment) {
    w.hasSecret && !w.admitted
  }

  /** Which answers collide: before the first dead letter none. After a replay those that end FAILED; if the replay
      left no attempt, that is everything but a success or a deferral. Behind the attempt rows, everything but a
      deferral. */
  lemma CollisionCases(t: Tables, id: DeliveryId, w: Environment)
    requires TablesOk(t) && id in t.deliveries && IsOpen(t.deliveries[id].status)
    ensures var d, rows := t.deliveries[id], |t.attempts[id]|;
      && (id !in t.deadLetters ==> !Collides(t, id, w))
      && (id in t.deadLetters && d.attemptCount == rows ==> (Collides(t, id, w) <==> EndsFailed(d, w)))
      && (id in t.deadLetters && d.attemptCount == rows && !Retries(d) ==>
            (Collides(t, id, w) <==> !Defers(w) && !Succeeds(w)))
      && (d.attemptCount < rows ==> (Collides(t, id, w) <==> !Defers(w)))
  {
    assert DeliveryOk(t, id);
  }
}
