/** Facts about whole runs: what can never change again, what a dead letter records, and which
    replayed deliveries are stuck for ever. */
module History {
  import opened Wrappers
  import opened Status
  import opened Outcomes
  import opened Tables
  import opened Outbox
  import opened Replays
  import opened Processor
  import opened Lifecycle
  import opened Protocol
  import opened ProtocolSafety

  /** The step leaves the delivery's row, attempt rows and dead letter alone. */
  ghost predicate Untouched(t: Tables, t': Tables, id: DeliveryId)
    requires id in t.deliveries && id in t.attempts
  {
    && id in t'.deliveries && id in t'.attempts
    && t'.deliveries[id] == t.deliveries[id] && t'.attempts[id] == t.attempts[id]
    && (id in t'.deadLetters <==> id in t.deadLetters)
  }

  /** The step is the worker's commit of rows `u` for this delivery, while it was open. */
  ghost predicate CommitsUnit(t: Tables, t': Tables, id: DeliveryId, u: Unit, posted: bool)
    requires id in t.deliveries && id in t.attempts
  {
    && IsOpen(t.deliveries[id].status)
    && Shape(t.deliveries[id], u, posted)
    && Commit(t, id, u) == Some(t')
  }

  ghost predicate CommitsSome(t: Tables, t': Tables, id: DeliveryId)
    requires id in t.deliveries && id in t.attempts
  {
    exists u, posted :: CommitsUnit(t, t', id, u, posted)
  }

  /** Only the worker's commit of that delivery, or its replay, changes a delivery. */
  lemma StepTouches(h: Hub, s: Step, id: DeliveryId)
    requires HubOk(h) && Enabled(h, s) && id in h.tables.deliveries
    ensures var t, t' := h.tables, Apply(h, s).tables;
      || Untouched(t, t', id)
      || CommitsSome(t, t', id)
      || (Replayable(t, id) && exists r :: Replay(t, id, r) == Some(t'))
  {
    match s
    case Enqueue(news) => EnqueueTouches(h, news, id);
    case WorkerProcess(env) =>
      var t := h.worker.task;
      var x := h.logs[t.part][t.offset].delivery;
      if Process(h.tables, x, h.settings, env).Committed? {
        ProcessTouches(h.tables, x, h.settings, env, id);
      }
    case _ =>
  }

  lemma EnqueueTouches(h: Hub, news: seq<NewRow>, id: DeliveryId)
    requires HubOk(h) && Enabled(h, Enqueue(news)) && id in h.tables.deliveries
    ensures Untouched(h.tables, Apply(h, Enqueue(news)).tables, id)
  {
    PersistAddsExactly(h.tables, news, Ids(news));
  }

  lemma ProcessTouches(t: Tables, x: DeliveryId, cfg: Settings, env: Environment, id: DeliveryId)
    requires Wellformed(t) && id in t.deliveries && Process(t, x, cfg, env).Committed?
    ensures var t' := Process(t, x, cfg, env).tables;
      if x == id then CommitsSome(t, t', id) else Untouched(t, t', id)
  {
    var v := Process(t, x, cfg, env);
    var u := ProcessShape(t, x, cfg, env);
    if x == id {
      assert CommitsUnit(t, v.tables, id, u, v.posted);
    }
  }

  /** The worker POSTs only for the delivery in hand, and only if that is open. */
  lemma ProcessPosts(h: Hub, env: Environment, id: DeliveryId)
    requires HubOk(h) && CanProcess(h, env)
    ensures Count(ProcessStep(h, env).posts, id) != Count(h.posts, id) ==>
      id in h.tables.deliveries && IsOpen(h.tables.deliveries[id].status)
  {
    var x := h.logs[h.worker.task.part][h.worker.task.offset].delivery;
    if !Process(h.tables, x, h.settings, env).Skipped? {
      var u := ProcessShape(h.tables, x, h.settings, env);
      assert (h.posts + [x])[..|h.posts|] == h.posts;
      assert h.posts + [] == h.posts;
    }
  }

  /** A step makes a POST for a delivery only while that delivery is open. */
  lemma StepPosts(h: Hub, s: Step, id: DeliveryId)
    requires HubOk(h) && Enabled(h, s)
    ensures Count(Apply(h, s).posts, id) != Count(h.posts, id) ==>
      id in h.tables.deliveries && IsOpen(h.tables.deliveries[id].status)
  {
    if s.WorkerProcess? || s.WorkerCrashBeforeCommit? {
      ProcessPosts(h, s.env, id);
    }
  }

  lemma RunStep(run: seq<Hub>, steps: seq<Step>, j: nat)
    requires IsRun(run, steps) && j + 1 < |run|
    ensures HubOk(run[j]) && HubOk(run[j + 1]) && Enabled(run[j], steps[j]) && run[j + 1] == Apply(run[j], steps[j])
  {
    RunKeepsHub(run, steps, j);
    RunKeepsHub(run, steps, j + 1);
  }

  /** DELIVERED is final: from then on no record, replay or crash changes the delivery's row or attempt
      rows, and no further POST is made for it. */
  lemma {:induction false} DeliveredIsFinal(run: seq<Hub>, steps: seq<Step>, i: nat, j: nat, id: DeliveryId)
    requires IsRun(run, steps) && i <= j < |run|
    requires id in run[i].tables.deliveries && run[i].tables.deliveries[id].status == DELIVERED
    ensures id in run[i].tables.attempts && Untouched(run[i].tables, run[j].tables, id)
    ensures Count(run[j].posts, id) == Count(run[i].posts, id)
  {
    RunKeepsHub(run, steps, i);
    if i < j {
      DeliveredIsFinal(run, steps, i, j - 1, id);
      DeliveredStays(run, steps, j - 1, id);
    }
  }

  lemma DeliveredStays(run: seq<Hub>, steps: seq<Step>, j: nat, id: DeliveryId)
    requires IsRun(run, steps) && j + 1 < |run|
    requires id in run[j].tables.deliveries && run[j].tables.deliveries[id].status == DELIVERED
    ensures id in run[j].tables.attempts && Untouched(run[j].tables, run[j + 1].tables, id)
    ensures Count(run[j + 1].posts, id) == Count(run[j].posts, id)
  {
    RunStep(run, steps, j);
    StepTouches(run[j], steps[j], id);
    StepPosts(run[j], steps[j], id);
  }

  lemma JoinPaths(a: DeliveryStatus, b: DeliveryStatus, c: DeliveryStatus)
    requires PathBetween(a, b) && PathBetween(b, c)
    ensures PathBetween(a, c)
  {
    var p: seq<DeliveryStatus> :| IsPath(p) && p[0] == a && p[|p| - 1] == b;
    var q: seq<DeliveryStatus> :| IsPath(q) && q[0] == b && q[|q| - 1] == c;
    var r := p + q[1..];
    forall k | 0 <= k < |r| - 1
      ensures CanTransition(r[k], r[k + 1])
    {
      if k < |p| - 1 {
        assert CanTransition(p[k], p[k + 1]);
      } else {
        assert r[k] == q[k - |p| + 1];
        assert CanTransition(q[k - |p| + 1], q[k - |p| + 2]);
      }
    }
    assert IsPath(r) && r[|r| - 1] == c;
  }

  lemma PathThroughDelivering(a: DeliveryStatus, b: DeliveryStatus)
    requires IsOpen(a) && (b == DELIVERED || b == RETRYING || b == FAILED)
    ensures PathBetween(a, b)
  {
    assert IsPath([a, DELIVERING, b]);
  }

  lemma StepFollowsEdges(h: Hub, s: Step, id: DeliveryId)
    requires HubOk(h) && Enabled(h, s) && id in h.tables.deliveries
    ensures id in Apply(h, s).tables.deliveries
    ensures PathBetween(h.tables.deliveries[id].status, Apply(h, s).tables.deliveries[id].status)
  {
    StepTouches(h, s, id);
    var t, t' := h.tables, Apply(h, s).tables;
    if Untouched(t, t', id) {
      assert IsPath([t.deliveries[id].status]);
    } else if CommitsSome(t, t', id) {
      var u, posted :| CommitsUnit(t, t', id, u, posted);
      PathThroughDelivering(t.deliveries[id].status, u.delivery.status);
    } else {
      assert IsPath([FAILED, REPLAYING]);
    }
  }

  lemma RunStepFollowsEdges(run: seq<Hub>, steps: seq<Step>, j: nat, id: DeliveryId)
    requires IsRun(run, steps) && j + 1 < |run| && id in run[j].tables.deliveries
    ensures id in run[j + 1].tables.deliveries
    ensures PathBetween(run[j].tables.deliveries[id].status, run[j + 1].tables.deliveries[id].status)
  {
    RunStep(run, steps, j);
    StepFollowsEdges(run[j], steps[j], id);
  }

  /** Between any two committed states of a run a delivery's status moved along allowed edges only. */
  lemma {:induction false} StatusFollowsEdges(run: seq<Hub>, steps: seq<Step>, i: nat, j: nat, id: DeliveryId)
    requires IsRun(run, steps) && i <= j < |run| && id in run[i].tables.deliveries
    ensures id in run[j].tables.deliveries
    ensures PathBetween(run[i].tables.deliveries[id].status, run[j].tables.deliveries[id].status)
  {
    if i < j {
      StatusFollowsEdges(run, steps, i, j - 1, id);
      RunStepFollowsEdges(run, steps, j - 1, id);
      JoinPaths(run[i].tables.deliveries[id].status, run[j - 1].tables.deliveries[id].status,
                run[j].tables.deliveries[id].status);
    } else {
      assert IsPath([run[i].tables.deliveries[id].status]);
    }
  }

  lemma StepKeepsIdentity(h: Hub, s: Step, id: DeliveryId)
    requires HubOk(h) && Enabled(h, s) && id in h.tables.deliveries
    ensures id in Apply(h, s).tables.deliveries
    ensures SameIdentity(h.tables.deliveries[id], Apply(h, s).tables.deliveries[id])
  {
    StepTouches(h, s, id);
  }

  lemma RunStepKeepsIdentity(run: seq<Hub>, steps: seq<Step>, j: nat, id: DeliveryId)
    requires IsRun(run, steps) && j + 1 < |run| && id in run[j].tables.deliveries
    ensures id in run[j + 1].tables.deliveries
    ensures SameIdentity(run[j].tables.deliveries[id], run[j + 1].tables.deliveries[id])
  {
    RunStep(run, steps, j);
    StepKeepsIdentity(run[j], steps[j], id);
  }

  /** Deliveries are never removed, and which event and endpoint one is for never changes. */
  lemma {:induction false} IdentityNeverChanges(run: seq<Hub>, steps: seq<Step>, i: nat, j: nat, id: DeliveryId)
    requires IsRun(run, steps) && i <= j < |run| && id in run[i].tables.deliveries
    ensures id in run[j].tables.deliveries
    ensures SameIdentity(run[i].tables.deliveries[id], run[j].tables.deliveries[id])
  {
    if i < j {
      IdentityNeverChanges(run, steps, i, j - 1, id);
      RunStepKeepsIdentity(run, steps, j - 1, id);
    }
  }

  ghost predicate FailedAt(h: Hub, id: DeliveryId) {
    id in h.tables.deliveries && h.tables.deliveries[id].status == FAILED
  }

  ghost predicate EverFailed(run: seq<Hub>, j: nat, id: DeliveryId)
    requires j < |run|
  {
    exists i :: 0 <= i <= j && FailedAt(run[i], id)
  }

  /** A step writes the dead letter exactly when it commits FAILED. */
  lemma StepDeadLetter(h: Hub, s: Step, id: DeliveryId)
    requires HubOk(h) && Enabled(h, s)
    ensures id in Apply(h, s).tables.deadLetters <==> id in h.tables.deadLetters || FailedAt(Apply(h, s), id)
  {
    StepKeepsHub(h, s);
    if id in h.tables.deliveries {
      assert DeliveryOk(h.tables, id);
      StepTouches(h, s, id);
    } else {
      NewIsNotDead(h, s, id);
    }
  }

  lemma NewIsNotDead(h: Hub, s: Step, id: DeliveryId)
    requires HubOk(h) && Enabled(h, s) && id !in h.tables.deliveries
    ensures id !in Apply(h, s).tables.deadLetters && !FailedAt(Apply(h, s), id)
  {
    if s.Enqueue? {
      PersistAddsExactly(h.tables, s.news, Ids(s.news));
    } else if s.WorkerProcess? {
      var t := h.worker.task;
      var x := h.logs[t.part][t.offset].delivery;
      if Process(h.tables, x, h.settings, s.env).Committed? {
        var u := ProcessShape(h.tables, x, h.settings, s.env);
      }
    }
  }

  /** A delivery has its (one) dead-letter row exactly if some committed state so far had it FAILED. */
  lemma {:induction false} DeadLetterIffEverFailed(run: seq<Hub>, steps: seq<Step>, j: nat, id: DeliveryId)
    requires IsRun(run, steps) && j < |run|
    ensures id in run[j].tables.deadLetters <==> EverFailed(run, j, id)
  {
    if j > 0 {
      DeadLetterIffEverFailed(run, steps, j - 1, id);
      RunStep(run, steps, j - 1);
      StepDeadLetter(run[j - 1], steps[j - 1], id);
      assert EverFailed(run, j, id) <==> EverFailed(run, j - 1, id) || FailedAt(run[j], id);
    }
  }

  /** Once an open delivery's counter is behind its attempt rows (a replay after POISON, or with the
      counter reset over existing rows), it is stuck: no run ever ends it, adds an attempt row or
      changes its counter again. */
  lemma {:induction false} BehindIsStuck(run: seq<Hub>, steps: seq<Step>, i: nat, j: nat, id: DeliveryId)
    requires IsRun(run, steps) && i <= j < |run|
    requires id in run[i].tables.deliveries && id in run[i].tables.attempts
    requires IsOpen(run[i].tables.deliveries[id].status)
    requires run[i].tables.deliveries[id].attemptCount < |run[i].tables.attempts[id]|
    ensures id in run[j].tables.deliveries && id in run[j].tables.attempts
    ensures IsOpen(run[j].tables.deliveries[id].status)
    ensures run[j].tables.deliveries[id].attemptCount == run[i].tables.deliveries[id].attemptCount
    ensures run[j].tables.attempts[id] == run[i].tables.attempts[id]
  {
    if i < j {
      BehindIsStuck(run, steps, i, j - 1, id);
      RunStep(run, steps, j - 1);
      BehindStaysStuck(run[j - 1], steps[j - 1], id);
    }
  }

  lemma BehindStaysStuck(h: Hub, s: Step, id: DeliveryId)
    requires HubOk(h) && Enabled(h, s) && id in h.tables.deliveries && id in h.tables.attempts
    requires IsOpen(h.tables.deliveries[id].status)
    requires h.tables.deliveries[id].attemptCount < |h.tables.attempts[id]|
    ensures var t, t' := h.tables, Apply(h, s).tables;
      && id in t'.deliveries && id in t'.attempts && IsOpen(t'.deliveries[id].status)
      && t'.deliveries[id].attemptCount == t.deliveries[id].attemptCount
      && t'.attempts[id] == t.attempts[id]
  {
    var t, t' := h.tables, Apply(h, s).tables;
    assert DeliveryOk(t, id);
    StepTouches(h, s, id);
    if CommitsSome(t, t', id) && !Untouched(t, t', id) {
      var u, posted :| CommitsUnit(t, t', id, u, posted);
      assert t.deliveries[id].attemptCount + 1 in t.attempts[id];
      assert id in t.deadLetters;
    }
  }
}
