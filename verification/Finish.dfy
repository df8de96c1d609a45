/** Which open deliveries can still be delivered: exactly those whose counter equals their attempt rows. */
module Finish {
  import opened Wrappers
  import opened Status
  import opened Outcomes
  import opened Tables
  import opened Replays
  import opened Processor
  import opened Lifecycle
  import opened Protocol
  import opened ProtocolSafety
  import opened NoLoss
  import opened Continuations
  import opened StuckReplays

  /** Some continuation ends with the delivery DELIVERED. */
  ghost predicate CanFinish(h: Hub, id: DeliveryId) {
    exists steps, h' :: After(h, steps) == Some(h') && IsDelivered(h', id)
  }

  predicate IsDelivered(h: Hub, id: DeliveryId) {
    id in h.tables.deliveries && h.tables.deliveries[id].status == DELIVERED
  }

  /** Every topic that the settings use has a partition. */
  ghost predicate TiersPresent(h: Hub) {
    forall t: Topic :: UsesTopic(h.settings, t) ==> exists i: nat :: Partition(t, i) in h.logs
  }

  ghost predicate UpToDate(h: Hub, id: DeliveryId) {
    && Open(h, id) && id in h.tables.attempts
    && h.tables.deliveries[id].attemptCount == |h.tables.attempts[id]|
  }

  /** The worker is between records, and the record at `o` of `p`, which names the delivery, is ahead. */
  ghost predicate Ahead(h: Hub, p: Partition, o: nat, id: DeliveryId) {
    && CoverOk(h) && TiersPresent(h) && UpToDate(h, id)
    && h.worker.Up? && h.worker.task.Idle?
    && p in h.logs && p in h.worker.position && h.worker.position[p] <= o < |h.logs[p]|
    && h.logs[p][o].delivery == id
  }

  /** The breaker refuses. */
  function Refusing(now: real): Environment {
    Environment(now, true, false, [], PostResult(None, None))
  }

  /** The partner accepts. */
  function Accepting(now: real): Environment {
    Environment(now, true, true, [], PostResult(Some(200), None))
  }

  lemma TiersStay(h: Hub, h': Hub)
    requires TiersPresent(h) && h'.settings == h.settings && h'.logs.Keys == h.logs.Keys
    ensures TiersPresent(h')
  {
    forall t: Topic | UsesTopic(h'.settings, t)
      ensures exists i: nat :: Partition(t, i) in h'.logs
    {
      var i: nat :| Partition(t, i) in h.logs;
      assert Partition(t, i) in h'.logs.Keys;
    }
  }

  // ---------------------------------------------------------------- passing one record

  /** The worker holds the record before the one in question. */
  ghost predicate Holding(h: Hub, p: Partition, o: nat, id: DeliveryId, task: Task) {
    && CoverOk(h) && TiersPresent(h) && UpToDate(h, id)
    && h.worker.Up? && h.worker.task == task && !task.Idle? && task.part == p && task.offset < o
    && p in h.logs && o < |h.logs[p]| && h.logs[p][o].delivery == id
  }

  lemma TakeHolds(h: Hub, p: Partition, o: nat, id: DeliveryId)
    requires Ahead(h, p, o, id) && h.worker.position[p] < o
    ensures Enabled(h, WorkerTake(p))
    ensures Holding(Apply(h, WorkerTake(p)), p, o, id, Reading(p, h.worker.position[p]))
  {
    CoverAndTiersStay(h, WorkerTake(p));
  }

  /** A deferral leaves every delivery as up to date as it was, and the record in hand decided. */
  lemma DeferKeeps(h: Hub, env: Environment, id: DeliveryId)
    requires HubOk(h) && UpToDate(h, id) && CanProcess(h, env) && Defers(env)
    ensures var h', t := ProcessStep(h, env), h.worker.task;
      && UpToDate(h', id) && h'.logs == h.logs
      && h'.worker.Up? && (h'.worker.task.Publishing? || h'.worker.task.Acking?)
      && h'.worker.task.part == t.part && h'.worker.task.offset == t.offset
  {
    var x := h.logs[h.worker.task.part][h.worker.task.offset].delivery;
    if IsOpen(h.tables.deliveries[x].status) {
      DeferralCommits(h.tables, x, h.settings, env);
    }
  }

  lemma DeferHolds(h: Hub, p: Partition, o: nat, id: DeliveryId, k: nat)
    requires Holding(h, p, o, id, Reading(p, k))
    ensures var s := WorkerProcess(Refusing(h.logs[p][k].scheduledAt));
      Enabled(h, s) && (var h' := Apply(h, s);
        && h'.worker.Up? && (h'.worker.task.Publishing? || h'.worker.task == Acking(p, k))
        && Holding(h', p, o, id, h'.worker.task) && h'.worker.task.offset == k)
  {
    var env := Refusing(h.logs[p][k].scheduledAt);
    DeferKeeps(h, env, id);
    CoverAndTiersStay(h, WorkerProcess(env));
  }

  lemma CoverAndTiersStay(h: Hub, s: Step)
    requires CoverOk(h) && TiersPresent(h) && Enabled(h, s)
    ensures CoverOk(Apply(h, s)) && TiersPresent(Apply(h, s))
  {
    StepKeepsCover(h, s);
    StepKeepsPartitions(h, s);
    TiersStay(h, Apply(h, s));
  }

  lemma PublishHolds(h: Hub, p: Partition, o: nat, id: DeliveryId, k: nat) returns (s: Step)
    requires h.worker.Up? && h.worker.task.Publishing? && h.worker.task.offset == k
    requires Holding(h, p, o, id, h.worker.task)
    ensures Enabled(h, s) && Holding(Apply(h, s), p, o, id, Acking(p, k))
  {
    var topic := h.worker.task.retry.topic;
    var i: nat :| Partition(topic, i) in h.logs;
    s := WorkerPublish(i);
    CoverAndTiersStay(h, s);
  }

  lemma AckMovesOn(h: Hub, p: Partition, o: nat, id: DeliveryId, k: nat)
    requires Holding(h, p, o, id, Acking(p, k))
    ensures Enabled(h, WorkerAck)
    ensures Ahead(Apply(h, WorkerAck), p, o, id) && Apply(h, WorkerAck).worker.position[p] == k + 1
  {
    CoverAndTiersStay(h, WorkerAck);
  }

  /** One record is passed: taken, deferred, its retry published, its offset committed. */
  lemma PassOne(h: Hub, p: Partition, o: nat, id: DeliveryId) returns (steps: seq<Step>, h': Hub)
    requires Ahead(h, p, o, id) && h.worker.position[p] < o
    ensures After(h, steps) == Some(h') && Ahead(h', p, o, id)
    ensures h'.worker.position[p] == h.worker.position[p] + 1
  {
    var k := h.worker.position[p];
    assert After(h, []) == Some(h);
    TakeHolds(h, p, o, id);
    AfterOneMore(h, [], h, WorkerTake(p));
    steps, h' := [] + [WorkerTake(p)], Apply(h, WorkerTake(p));
    DeferHolds(h', p, o, id, k);
    var process := WorkerProcess(Refusing(h'.logs[p][k].scheduledAt));
    AfterOneMore(h, steps, h', process);
    steps, h' := steps + [process], Apply(h', process);
    if h'.worker.task.Publishing? {
      var s := PublishHolds(h', p, o, id, k);
      AfterOneMore(h, steps, h', s);
      steps, h' := steps + [s], Apply(h', s);
    }
    AckMovesOn(h', p, o, id, k);
    AfterOneMore(h, steps, h', WorkerAck);
    steps, h' := steps + [WorkerAck], Apply(h', WorkerAck);
  }

  // ---------------------------------------------------------------- delivering

  lemma TakeAndDeliver(h: Hub, p: Partition, o: nat, id: DeliveryId) returns (steps: seq<Step>, h': Hub)
    requires Ahead(h, p, o, id) && h.worker.position[p] == o
    ensures After(h, steps) == Some(h') && IsDelivered(h', id)
  {
    assert After(h, []) == Some(h);
    AfterOneMore(h, [], h, WorkerTake(p));
    var h1 := Apply(h, WorkerTake(p));
    var env := Accepting(h.logs[p][o].scheduledAt);
    SuccessCommitsIff(h.tables, id, h.settings, env);
    AfterOneMore(h, [] + [WorkerTake(p)], h1, WorkerProcess(env));
    steps, h' := [] + [WorkerTake(p)] + [WorkerProcess(env)], Apply(h1, WorkerProcess(env));
  }

  /** However many records lie before it, they can be passed and the delivery delivered. */
  lemma {:induction false} DeliverAhead(h: Hub, p: Partition, o: nat, id: DeliveryId)
      returns (steps: seq<Step>, h': Hub)
    requires Ahead(h, p, o, id)
    ensures After(h, steps) == Some(h') && IsDelivered(h', id)
    decreases o - h.worker.position[p]
  {
    if h.worker.position[p] == o {
      steps, h' := TakeAndDeliver(h, p, o, id);
    } else {
      var first, mid := PassOne(h, p, o, id);
      var rest;
      rest, h' := DeliverAhead(mid, p, o, id);
      AfterJoins(h, first, mid, rest);
      steps := first + rest;
    }
  }

  // ---------------------------------------------------------------- getting there

  /** A waiting outbox row becomes a record. */
  lemma RowToRecord(h: Hub, i: nat, id: DeliveryId) returns (s: Step, p: Partition, o: nat)
    requires CoverOk(h) && TiersPresent(h) && UpToDate(h, id) && RowUnsent(h, i, id)
    ensures Enabled(h, s) && RecordAhead(Apply(h, s), p, o, id)
    ensures CoverOk(Apply(h, s)) && TiersPresent(Apply(h, s)) && UpToDate(Apply(h, s), id)
  {
    assert UsesTopic(h.settings, OutboundPending);
    var k: nat :| Partition(OutboundPending, k) in h.logs;
    p, o := Partition(OutboundPending, k), |h.logs[Partition(OutboundPending, k)]|;
    s := RelaySend(i, p, 0.0, true);
    SentIsAhead(h, i, p, id);
    CoverAndTiersStay(h, s);
  }

  lemma SentIsAhead(h: Hub, i: nat, p: Partition, id: DeliveryId)
    requires HubOk(h) && Provisioned(h) && RowUnsent(h, i, id) && p in h.logs && p.topic == OutboundPending
    ensures Enabled(h, RelaySend(i, p, 0.0, true))
    ensures RecordAhead(Apply(h, RelaySend(i, p, 0.0, true)), p, |h.logs[p]|, id)
  {
    assert Fed(h, p);
  }

  /** A restarted worker has the record ahead of it. */
  lemma Restart(h: Hub, p: Partition, o: nat, id: DeliveryId) returns (steps: seq<Step>, h': Hub)
    requires CoverOk(h) && TiersPresent(h) && UpToDate(h, id) && RecordAhead(h, p, o, id)
    ensures After(h, steps) == Some(h') && Ahead(h', p, o, id)
  {
    steps, h' := [], h;
    if h.worker.Up? {
      AfterOneMore(h, [], h, WorkerCrash);
      StepKeepsCover(h, WorkerCrash);
      steps, h' := [] + [WorkerCrash], Apply(h, WorkerCrash);
    }
    AfterOneMore(h, steps, h', WorkerStart);
    StepKeepsCover(h', WorkerStart);
    steps, h' := steps + [WorkerStart], Apply(h', WorkerStart);
    TiersStay(h, h');
  }

  lemma DeliverRecord(h: Hub, p: Partition, o: nat, id: DeliveryId)
    requires CoverOk(h) && TiersPresent(h) && UpToDate(h, id) && RecordAhead(h, p, o, id)
    ensures CanFinish(h, id)
  {
    var a, mid := Restart(h, p, o, id);
    var b, h' := DeliverAhead(mid, p, o, id);
    AfterJoins(h, a, mid, b);
    assert After(h, a + b) == Some(h') && IsDelivered(h', id);
  }

  /** Every open delivery that is not behind its attempt rows can still be delivered. */
  lemma UpToDateCanFinish(h: Hub, id: DeliveryId)
    requires CoverOk(h) && TiersPresent(h) && UpToDate(h, id)
    ensures CanFinish(h, id)
  {
    assert Covered(h, id);
    if i :| RowUnsent(h, i, id) {
      var s, p, o := RowToRecord(h, i, id);
      var mid := Apply(h, s);
      DeliverRecord(mid, p, o, id);
      var rest, h' :| After(mid, rest) == Some(h') && IsDelivered(h', id);
      AfterOneMore(h, [], h, s);
      AfterJoins(h, [] + [s], mid, rest);
      assert After(h, [] + [s] + rest) == Some(h');
    } else {
      var p, o :| RecordAhead(h, p, o, id);
      DeliverRecord(h, p, o, id);
    }
  }

  /** In every state of a provisioned run with a partition for every used topic, an open delivery has a
      continuation in which it is delivered if and only if its counter equals its number of attempt rows. */
  lemma OpenCanFinishIff(h: Hub, id: DeliveryId)
    requires CoverOk(h) && TiersPresent(h) && Open(h, id)
    ensures CanFinish(h, id) <==> h.tables.deliveries[id].attemptCount == |h.tables.attempts[id]|
  {
    assert DeliveryOk(h.tables, id);
    if UpToDate(h, id) {
      UpToDateCanFinish(h, id);
    } else if CanFinish(h, id) {
      var steps, h' :| After(h, steps) == Some(h') && IsDelivered(h', id);
      BehindForever(h, steps, h', id);
    }
  }

  /** A replayed delivery can ever be delivered exactly when the counter it is replayed with still equals
      the number of stored attempt rows: the failure was not a POISON answer (whose attempt row is not
      counted), and the counter is not reset over existing rows. */
  lemma ReplayCanFinishIff(run: seq<Hub>, steps: seq<Step>, i: nat, id: DeliveryId, reset: bool)
    requires IsRun(run, steps) && Provisioned(run[0]) && i < |run| && TiersPresent(run[i])
    requires Replayable(run[i].tables, id)
    ensures id in run[i].tables.attempts && Enabled(run[i], ReplayDelivery(id, reset))
    ensures CanFinish(Apply(run[i], ReplayDelivery(id, reset)), id)
      <==> (if reset then 0 else run[i].tables.deliveries[id].attemptCount) == |run[i].tables.attempts[id]|
  {
    RunKeepsCover(run, steps, i);
    var h, s := run[i], ReplayDelivery(id, reset);
    StepKeepsCover(h, s);
    TiersStay(h, Apply(h, s));
    OpenCanFinishIff(Apply(h, s), id);
  }
}
