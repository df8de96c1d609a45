/** Replays that can never finish: they are reachable, they last for ever, and their records hold up the
    partition they are in. */
module StuckReplays {
  import opened Wrappers
  import opened Status
  import opened Outcomes
  import opened Tables
  import opened Processor
  import opened Lifecycle
  import opened Protocol
  import opened ProtocolSafety
  import opened History
  import opened Continuations
  import opened OffsetReset

  /** Open, but the next attempt row is already there. */
  ghost predicate Behind(h: Hub, id: DeliveryId) {
    && id in h.tables.deliveries && id in h.tables.attempts && IsOpen(h.tables.deliveries[id].status)
    && h.tables.deliveries[id].attemptCount < |h.tables.attempts[id]|
  }

  /** Whatever happens next, such a delivery stays open and its counter and attempt rows stay as they are. */
  lemma {:induction false} BehindForever(h: Hub, steps: seq<Step>, h': Hub, id: DeliveryId)
    requires HubOk(h) && Behind(h, id) && After(h, steps) == Some(h')
    ensures Behind(h', id) && h'.tables.attempts[id] == h.tables.attempts[id]
    ensures h'.tables.deliveries[id].attemptCount == h.tables.deliveries[id].attemptCount
  {
    if steps != [] {
      var n := |steps| - 1;
      var mid := After(h, steps[..n]).value;
      AfterKeepsHub(h, steps[..n], mid);
      BehindForever(h, steps[..n], mid, id);
      BehindStaysStuck(mid, steps[n], id);
    }
  }

  // ---------------------------------------------------------------- how a delivery gets there

  /** The partner's endpoint answers 404. */
  const NOT_FOUND := Environment(0.0, true, true, [], PostResult(Some(404), None))

  /** The last attempt on the only record has failed; the worker has yet to commit the offset. */
  ghost predicate HasFailed(h: Hub, h0: Hub, p: Partition, count: nat, rows: nat) {
    && h.logs == h0.logs[p := [Record(0, 0.0)]]
    && h.tables.outbox == [OutboxRow(0, 0, true, 0)]
    && h.worker.Up? && h.worker.task == Acking(p, 0)
    && 0 in h.tables.deliveries && 0 in h.tables.attempts && |h.tables.attempts[0]| == rows
    && h.tables.deliveries[0].status == FAILED && h.tables.deliveries[0].attemptCount == count
    && h.tables.deliveries[0].maxAttempts == 8
  }

  /** One 404 answer at the first attempt, or a 500 answer at the eighth. */
  predicate Ending(k: nat, env: Environment) {
    (env == NOT_FOUND && k == 0) || (env == UNAVAILABLE && k == 7)
  }

  function CountAfter(env: Environment): nat {
    if env == NOT_FOUND then 0 else 8
  }

  lemma LastAnswer(t: Tables, cfg: Settings, k: nat, env: Environment)
    requires TablesOk(t) && 0 in t.deliveries && 0 !in t.deadLetters && IsOpen(t.deliveries[0].status)
    requires t.deliveries[0].attemptCount == k && t.deliveries[0].maxAttempts == 8 && Ending(k, env)
    ensures var v := Process(t, 0, cfg, env);
      && v.Committed? && v.retry.None? && v.tables.outbox == t.outbox
      && 0 in v.tables.deliveries && 0 in v.tables.attempts && |v.tables.attempts[0]| == k + 1
      && var d := v.tables.deliveries[0];
         d.status == FAILED && d.attemptCount == CountAfter(env) && d.maxAttempts == 8
  {
    LastDecision(t.deliveries[0], cfg, k, env);
    FirstLifeNeverAborts(t, 0, cfg, env);
    assert DeliveryOk(t, 0);
    assert k + 1 !in t.attempts[0];
  }

  lemma LastDecision(d: Delivery, cfg: Settings, k: nat, env: Environment)
    requires d.attemptCount == k && d.maxAttempts == 8 && Ending(k, env)
    ensures Decide(0, d, cfg, env) == (FailedUnit(d.(attemptCount := CountAfter(env)), Some(k + 1)), Dlq, None)
  {
    assert ClassifyPost(NOT_FOUND) == POISON && ClassifyPost(UNAVAILABLE) == RETRYABLE;
    assert d.(attemptCount := k) == d;
  }

  lemma Fails(h: Hub, h0: Hub, p: Partition, k: nat, env: Environment)
    requires HubOk(h) && Looping(h, h0, p, k) && ReadsFromStart(h0, p) && Ending(k, env)
    ensures Enabled(h, WorkerProcess(env))
    ensures HasFailed(Apply(h, WorkerProcess(env)), h0, p, CountAfter(env), k + 1)
  {
    LastAnswer(h.tables, h.settings, k, env);
  }

  /** The delivery is replayed, and its new outbox row waits for the relay. */
  ghost predicate IsReplayed(h: Hub, h0: Hub, p: Partition, count: nat, rows: nat) {
    && h.logs == h0.logs[p := [Record(0, 0.0)]]
    && h.tables.outbox == [OutboxRow(0, 0, true, 0), OutboxRow(0, 0, false, 0)] && 1 !in h.sent
    && h.worker.Up? && h.worker.task == Acking(p, 0)
    && ReplayedRow(h, count, rows)
  }

  ghost predicate ReplayedRow(h: Hub, count: nat, rows: nat) {
    && 0 in h.tables.deliveries && 0 in h.tables.attempts && |h.tables.attempts[0]| == rows && 0 in h.tables.deadLetters
    && h.tables.deliveries[0].status == REPLAYING && h.tables.deliveries[0].attemptCount == count
    && h.tables.deliveries[0].maxAttempts == 8
  }

  lemma ReplayLeaves(h: Hub, h0: Hub, p: Partition, count: nat, rows: nat, reset: bool)
    requires HubOk(h) && HasFailed(h, h0, p, count, rows)
    ensures Enabled(h, ReplayDelivery(0, reset))
    ensures IsReplayed(Apply(h, ReplayDelivery(0, reset)), h0, p, if reset then 0 else count, rows)
  {
    assert DeliveryOk(h.tables, 0);
  }

  lemma FailThenReplay(h0: Hub, p: Partition, k: nat, env: Environment, reset: bool) returns (steps: seq<Step>, h: Hub)
    requires ReadsFromStart(h0, p) && Ending(k, env)
    ensures After(h0, steps) == Some(h) && HubOk(h)
    ensures IsReplayed(h, h0, p, if reset then 0 else CountAfter(env), k + 1)
  {
    var process, replay := WorkerProcess(env), ReplayDelivery(0, reset);
    InitOk(h0);
    steps, h := ReadTimes(h0, p, k);
    AfterKeepsHub(h0, steps, h);
    Fails(h, h0, p, k, env);
    AfterOneMore(h0, steps, h, process);
    StepKeepsHub(h, process);
    steps, h := steps + [process], Apply(h, process);
    ReplayLeaves(h, h0, p, CountAfter(env), k + 1, reset);
    AfterOneMore(h0, steps, h, replay);
    StepKeepsHub(h, replay);
    steps, h := steps + [replay], Apply(h, replay);
  }

  /** From every start at which a worker reads some pending partition: one 404 answer and a replay that
      keeps the counter leave a delivery that no continuation will ever end. */
  lemma PoisonThenReplayIsStuck(h0: Hub, p: Partition) returns (steps: seq<Step>, h: Hub)
    requires ReadsFromStart(h0, p)
    ensures After(h0, steps) == Some(h) && HubOk(h) && IsReplayed(h, h0, p, 0, 1)
    ensures forall more, h' :: After(h, more) == Some(h') ==> Behind(h', 0)
  {
    steps, h := FailThenReplay(h0, p, 0, NOT_FOUND, false);
    StuckFrom(h);
  }

  /** So do eight failed attempts, the default limit, and a replay that resets the counter. */
  lemma ResetThenReplayIsStuck(h0: Hub, p: Partition) returns (steps: seq<Step>, h: Hub)
    requires ReadsFromStart(h0, p)
    ensures After(h0, steps) == Some(h) && HubOk(h) && IsReplayed(h, h0, p, 0, 8)
    ensures forall more, h' :: After(h, more) == Some(h') ==> Behind(h', 0)
  {
    steps, h := FailThenReplay(h0, p, 7, UNAVAILABLE, true);
    StuckFrom(h);
  }

  lemma StuckFrom(h: Hub)
    requires HubOk(h) && Behind(h, 0)
    ensures forall more, h' :: After(h, more) == Some(h') ==> Behind(h', 0)
  {
    forall more, h' | After(h, more) == Some(h')
      ensures Behind(h', 0)
    {
      BehindForever(h, more, h', 0);
    }
  }

  // ---------------------------------------------------------------- head-of-line blocking

  /** The record at `o` is the next of `p` to be read, or is being read, and is not yet decided. */
  ghost predicate Head(h: Hub, p: Partition, o: nat) {
    && p in h.logs && p in h.committed && h.committed[p] == o < |h.logs[p]|
    && (h.worker.Up? ==>
          && p in h.worker.position && h.worker.position[p] == o
          && (!h.worker.task.Idle? && h.worker.task.part == p ==> h.worker.task.Reading?))
  }

  /** The step is the worker's transaction on the head of `p`. */
  predicate OnHead(h: Hub, s: Step, p: Partition) {
    s.WorkerProcess? && h.worker.Up? && !h.worker.task.Idle? && h.worker.task.part == p
  }

  /** That transaction meets a unique constraint. */
  predicate HeadCollides(h: Hub, p: Partition, o: nat, w: Environment) {
    p in h.logs && o < |h.logs[p]| && Collides(h.tables, h.logs[p][o].delivery, w)
  }

  /** A transaction on the head ends the worker exactly if it collides; then nothing has changed, and otherwise
      the head is decided. */
  lemma ProcessHead(h: Hub, env: Environment, p: Partition, o: nat)
    requires HubOk(h) && Head(h, p, o) && Enabled(h, WorkerProcess(env)) && OnHead(h, WorkerProcess(env), p)
    ensures var h' := ProcessStep(h, env);
      && (h'.worker.Down? <==> HeadCollides(h, p, o, env))
      && (h'.worker.Down? ==> h'.tables == h.tables && Head(h', p, o))
      && (h'.worker.Up? ==> !Head(h', p, o))
  {
    AbortsIff(h.tables, h.logs[p][o].delivery, h.settings, env);
  }

  lemma HeadStep(h: Hub, s: Step, p: Partition, o: nat)
    requires HubOk(h) && Head(h, p, o) && Enabled(h, s)
    ensures Head(Apply(h, s), p, o) <==> (OnHead(h, s, p) ==> HeadCollides(h, p, o, s.env))
  {
    if OnHead(h, s, p) {
      ProcessHead(h, s.env, p, o);
    }
  }

  /** Step `k` does not decide the head. */
  predicate Undecided(run: seq<Hub>, steps: seq<Step>, k: nat, p: Partition, o: nat)
    requires k < |steps| && k < |run|
  {
    OnHead(run[k], steps[k], p) ==> HeadCollides(run[k], p, o, steps[k].env)
  }

  ghost predicate HeldAt(run: seq<Hub>, k: nat, p: Partition, o: nat)
    requires k < |run|
  {
    Head(run[k], p, o)
  }

  lemma HeadStays(run: seq<Hub>, steps: seq<Step>, j: nat, p: Partition, o: nat)
    requires IsRun(run, steps) && j + 1 < |run| && Head(run[j], p, o)
    ensures HeldAt(run, j + 1, p, o) <==> Undecided(run, steps, j, p, o)
  {
    RunStep(run, steps, j);
    HeadStep(run[j], steps[j], p, o);
  }

  ghost predicate AlwaysHeld(run: seq<Hub>, i: nat, j: nat, p: Partition, o: nat)
    requires j < |run|
  {
    forall k {:trigger HeldAt(run, k, p, o)} :: i <= k <= j ==> HeldAt(run, k, p, o)
  }

  ghost predicate NeverDecided(run: seq<Hub>, steps: seq<Step>, i: nat, j: nat, p: Partition, o: nat)
    requires j <= |steps| && j <= |run|
  {
    forall k {:trigger Undecided(run, steps, k, p, o)} :: i <= k < j ==> Undecided(run, steps, k, p, o)
  }

  /** Each step from `i` on keeps the head exactly if it does not decide it. */
  ghost predicate StepsHold(run: seq<Hub>, steps: seq<Step>, i: nat, j: nat, p: Partition, o: nat)
    requires j < |run| && j <= |steps|
  {
    forall k {:trigger Undecided(run, steps, k, p, o)} :: i <= k < j && HeldAt(run, k, p, o) ==>
      (HeldAt(run, k + 1, p, o) <==> Undecided(run, steps, k, p, o))
  }

  lemma {:induction false} HeldIffUndecided(run: seq<Hub>, steps: seq<Step>, i: nat, j: nat, p: Partition, o: nat)
    requires i <= j < |run| && j <= |steps| && HeldAt(run, i, p, o) && StepsHold(run, steps, i, j, p, o)
    ensures AlwaysHeld(run, i, j, p, o) <==> NeverDecided(run, steps, i, j, p, o)
  {
    if i < j {
      HeldIffUndecided(run, steps, i, j - 1, p, o);
      assert HeldAt(run, j - 1, p, o) ==> (HeldAt(run, j - 1 + 1, p, o) <==> Undecided(run, steps, j - 1, p, o));
    }
  }

  /** Head-of-line blocking, exactly: on every run the record at the head of a partition stays there, and every
      later record of the partition waits, if and only if each transaction on it collides. The worker crashes on it
      each time. */
  lemma HeadHeldIff(run: seq<Hub>, steps: seq<Step>, i: nat, j: nat, p: Partition, o: nat)
    requires IsRun(run, steps) && i <= j < |run| && HeldAt(run, i, p, o)
    ensures AlwaysHeld(run, i, j, p, o) <==> NeverDecided(run, steps, i, j, p, o)
  {
    forall k | i <= k < j && HeldAt(run, k, p, o)
      ensures HeldAt(run, k + 1, p, o) <==> Undecided(run, steps, k, p, o)
    {
      HeadStays(run, steps, k, p, o);
    }
    HeldIffUndecided(run, steps, i, j, p, o);
  }

  /** The record of a delivery that is behind is held as long as the breaker refuses it not once. */
  lemma {:induction false} StuckRecordBlocks(run: seq<Hub>, steps: seq<Step>, i: nat, j: nat, p: Partition, o: nat)
    requires IsRun(run, steps) && i <= j < |run| && Head(run[i], p, o) && Behind(run[i], run[i].logs[p][o].delivery)
    requires forall k {:trigger OnHead(run[k], steps[k], p)} :: i <= k < j && OnHead(run[k], steps[k], p) ==>
      !Defers(steps[k].env)
    ensures Head(run[j], p, o) && run[j].logs[p][o] == run[i].logs[p][o] && Behind(run[j], run[j].logs[p][o].delivery)
  {
    if i < j {
      StuckRecordBlocks(run, steps, i, j - 1, p, o);
      BehindHeadStays(run, steps, j - 1, p, o);
    }
  }

  lemma BehindHeadStays(run: seq<Hub>, steps: seq<Step>, j: nat, p: Partition, o: nat)
    requires IsRun(run, steps) && j + 1 < |run| && Head(run[j], p, o) && Behind(run[j], run[j].logs[p][o].delivery)
    requires OnHead(run[j], steps[j], p) ==> !Defers(steps[j].env)
    ensures Head(run[j + 1], p, o) && run[j + 1].logs[p][o] == run[j].logs[p][o]
    ensures Behind(run[j + 1], run[j].logs[p][o].delivery)
  {
    var id := run[j].logs[p][o].delivery;
    RunStep(run, steps, j);
    BehindStaysStuck(run[j], steps[j], id);
    if steps[j].WorkerProcess? {
      CollisionCases(run[j].tables, id, steps[j].env);
    }
    HeadStays(run, steps, j, p, o);
  }

  // ---------------------------------------------------------------- blocked partitions are reachable

  /** The relay sends the replay to the partition the delivery came from, where it becomes the head. */
  lemma ReplayReachesHead(h0: Hub, p: Partition, k: nat, env: Environment) returns (steps: seq<Step>, h: Hub)
    requires ReadsFromStart(h0, p) && Ending(k, env)
    ensures After(h0, steps) == Some(h) && HubOk(h) && Head(h, p, 1) && h.logs[p][1].delivery == 0
    ensures ReplayedRow(h, CountAfter(env), k + 1)
  {
    var send := RelaySend(1, p, 0.0, true);
    steps, h := FailThenReplay(h0, p, k, env, false);
    AfterOneMore(h0, steps, h, WorkerAck);
    StepKeepsHub(h, WorkerAck);
    steps, h := steps + [WorkerAck], Apply(h, WorkerAck);
    AfterOneMore(h0, steps, h, send);
    StepKeepsHub(h, send);
    steps, h := steps + [send], Apply(h, send);
  }

  /** One 404 answer and a replay: at the head of `p` everything but a deferral collides, for ever. */
  lemma BlockedIsReachable(h0: Hub, p: Partition) returns (steps: seq<Step>, h: Hub)
    requires ReadsFromStart(h0, p)
    ensures After(h0, steps) == Some(h) && HubOk(h) && Head(h, p, 1) && Behind(h, h.logs[p][1].delivery)
    ensures forall w :: HeadCollides(h, p, 1, w) <==> !Defers(w)
  {
    steps, h := ReplayReachesHead(h0, p, 0, NOT_FOUND);
    forall w ensures HeadCollides(h, p, 1, w) <==> !Defers(w) { CollisionCases(h.tables, 0, w); }
  }

  /** The ordinary replay after the attempts ran out, counter kept: the delivery can still be delivered, but at the
      head of `p` everything but a success or a deferral collides. */
  lemma ExhaustedReplayBlocks(h0: Hub, p: Partition) returns (steps: seq<Step>, h: Hub)
    requires ReadsFromStart(h0, p)
    ensures After(h0, steps) == Some(h) && HubOk(h) && Head(h, p, 1) && !Behind(h, h.logs[p][1].delivery)
    ensures forall w :: HeadCollides(h, p, 1, w) <==> !Defers(w) && !Succeeds(w)
  {
    steps, h := ReplayReachesHead(h0, p, 7, UNAVAILABLE);
    forall w ensures HeadCollides(h, p, 1, w) <==> !Defers(w) && !Succeeds(w) { CollisionCases(h.tables, 0, w); }
  }
}
