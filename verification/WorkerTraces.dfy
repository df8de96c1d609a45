/** One worker process among the protocol's steps: what its trace promises about offsets and schedules. */
module WorkerTraces {
  import opened Wrappers
  import opened Outcomes
  import opened Outbox
  import opened Processor
  import opened Protocol
  import opened ProtocolSafety
  import opened NoLoss
  import opened Continuations

  type Positions = map<Partition, nat>

  predicate IsForeign(s: Step) {
    s.Enqueue? || s.ReplayDelivery? || s.RelaySend? || s.RelayCommit? || s.RelayCrash?
  }

  /** The logs only grew. */
  ghost predicate Grown(a: map<Partition, seq<Record>>, b: map<Partition, seq<Record>>) {
    a.Keys == b.Keys && forall p :: p in a ==> a[p] <= b[p]
  }

  /** Nothing of the worker's own has changed. */
  ghost predicate WorkerSame(h: Hub, h': Hub) {
    h'.worker == h.worker && h'.committed == h.committed && Grown(h.logs, h'.logs)
  }

  lemma GrownTwice(a: map<Partition, seq<Record>>, b: map<Partition, seq<Record>>, c: map<Partition, seq<Record>>)
    requires Grown(a, b) && Grown(b, c)
    ensures Grown(a, c)
  {
    forall p | p in a
      ensures p in c && a[p] <= c[p]
    {
      assert p in b.Keys && p in c.Keys;
    }
  }

  lemma StepGrowsLogs(h: Hub, s: Step)
    requires Enabled(h, s)
    ensures Grown(h.logs, Apply(h, s).logs)
    ensures IsForeign(s) ==> WorkerSame(h, Apply(h, s))
  {
  }

  /** The states a process and the rest of the hub went through: it started first, and only once. */
  ghost predicate IsTrace(run: seq<Hub>, steps: seq<Step>) {
    && |run| == |steps| + 1 && steps != [] && steps[0] == WorkerStart
    && (forall i {:trigger steps[i]} :: 0 <= i < |steps| ==>
          Enabled(run[i], steps[i]) && run[i + 1] == Apply(run[i], steps[i]) && (i > 0 ==> !steps[i].WorkerStart?))
  }

  lemma TraceOneMore(run: seq<Hub>, steps: seq<Step>, s: Step)
    requires IsTrace(run, steps) && Enabled(run[|run| - 1], s) && !s.WorkerStart?
    ensures IsTrace(run + [Apply(run[|run| - 1], s)], steps + [s])
  {
  }

  lemma {:induction false} TraceIsAfter(run: seq<Hub>, steps: seq<Step>, k: nat)
    requires IsTrace(run, steps) && k < |run|
    ensures After(run[0], steps[..k]) == Some(run[k])
  {
    if k > 0 {
      TraceIsAfter(run, steps, k - 1);
      assert steps[..k][..k - 1] == steps[..k - 1];
      assert Enabled(run[k - 1], steps[k - 1]) && run[k - 1 + 1] == Apply(run[k - 1], steps[k - 1]);
    }
  }

  lemma TraceKeepsHub(run: seq<Hub>, steps: seq<Step>, k: nat)
    requires IsTrace(run, steps) && HubOk(run[0]) && k < |run|
    ensures HubOk(run[k])
  {
    TraceIsAfter(run, steps, k);
    AfterKeepsHub(run[0], steps[..k], run[k]);
  }

  /** The worker holds the record of `task` in state `k`. */
  predicate Handles(h: Hub, p: Partition, o: nat) {
    h.worker.Up? && !h.worker.task.Idle? && h.worker.task.part == p && h.worker.task.offset == o
  }

  /** Step `j` is the transaction on the record at `o` of `p`. */
  predicate Processed(run: seq<Hub>, steps: seq<Step>, j: nat, p: Partition, o: nat) {
    && j < |steps| && |run| == |steps| + 1 && steps[j].WorkerProcess? && CanProcess(run[j], steps[j].env)
    && run[j].worker.task == Reading(p, o)
  }

  /** How that transaction ended. */
  function VerdictOn(h: Hub, env: Environment): Verdict
    requires CanProcess(h, env)
  {
    Process(h.tables, h.logs[h.worker.task.part][h.worker.task.offset].delivery, h.settings, env)
  }

  predicate RecordAt(h: Hub, q: Partition, i: int, r: Retry) {
    q in h.logs && q.topic == r.topic && 0 <= i < |h.logs[q]| && h.logs[q][i] == Record(r.delivery, r.scheduledAt)
  }

  /** The retry's record is in a log of its topic. */
  ghost predicate IsPublished(h: Hub, r: Retry) {
    exists q, i :: RecordAt(h, q, i, r)
  }

  /** The processing of the record returned normally: its transaction found nothing to do, or was committed, and
      if that called for a retry, the retry's record is in its log. */
  ghost predicate Returned(run: seq<Hub>, steps: seq<Step>, j: nat, h: Hub, p: Partition, o: nat) {
    && Processed(run, steps, j, p, o)
    && var v := VerdictOn(run[j], steps[j].env);
       v.Skipped? || (v.Committed? && (v.retry.Some? ==> IsPublished(h, v.retry.value)))
  }

  /** The transaction on the record was committed and calls for the retry. */
  predicate CallsFor(run: seq<Hub>, steps: seq<Step>, j: nat, p: Partition, o: nat, r: Retry) {
    && Processed(run, steps, j, p, o)
    && var v := VerdictOn(run[j], steps[j].env);
       v.Committed? && v.retry == Some(r)
  }

  ghost predicate ReturnedBefore(run: seq<Hub>, steps: seq<Step>, n: nat, h: Hub, p: Partition, o: nat) {
    exists j :: 0 <= j < n && Returned(run, steps, j, h, p, o)
  }

  /** The committed offset of `p` has passed the record at `o`, which the process began at or before. */
  predicate Passes(start: Positions, committed: Positions, p: Partition, o: nat) {
    p in committed && p in start && start[p] <= o < committed[p]
  }

  /** Committed offsets passed only records whose processing returned normally, ... */
  ghost predicate PassedOk(run: seq<Hub>, steps: seq<Step>, n: nat, start: Positions, h: Hub) {
    forall p, o :: Passes(start, h.committed, p, o) ==> ReturnedBefore(run, steps, n, h, p, o)
  }

  /** ... the worker stands at the committed offset, or where it started as long as it has committed none, ... */
  ghost predicate StandsOk(start: Positions, h: Hub) {
    h.worker.Up? ==>
      && h.worker.position.Keys == start.Keys
      && forall p :: p in start ==> h.worker.position[p] == if p in h.committed then h.committed[p] else start[p]
  }

  /** ... a record whose offset is next has returned, and one being published has been committed. */
  ghost predicate HandOk(run: seq<Hub>, steps: seq<Step>, n: nat, h: Hub) {
    h.worker.Up? ==>
      && (h.worker.task.Acking? ==> ReturnedBefore(run, steps, n, h, h.worker.task.part, h.worker.task.offset))
      && (h.worker.task.Publishing? ==>
            exists j :: 0 <= j < n
              && CallsFor(run, steps, j, h.worker.task.part, h.worker.task.offset, h.worker.task.retry))
  }

  ghost predicate OffsetsTrue(run: seq<Hub>, steps: seq<Step>, n: nat)
    requires 1 <= n < |run| && run[1].worker.Up?
  {
    && PassedOk(run, steps, n, run[1].worker.position, run[n])
    && StandsOk(run[1].worker.position, run[n]) && HandOk(run, steps, n, run[n])
  }

  lemma StillPublished(h: Hub, h': Hub, r: Retry)
    requires IsPublished(h, r) && Grown(h.logs, h'.logs)
    ensures IsPublished(h', r)
  {
    var q, i :| RecordAt(h, q, i, r);
    assert q in h'.logs.Keys;
    assert RecordAt(h', q, i, r);
  }

  lemma StillReturned(run: seq<Hub>, steps: seq<Step>, n: nat, h: Hub, h': Hub, p: Partition, o: nat)
    requires ReturnedBefore(run, steps, n, h, p, o) && Grown(h.logs, h'.logs)
    ensures ReturnedBefore(run, steps, n + 1, h', p, o)
  {
    var j :| 0 <= j < n && Returned(run, steps, j, h, p, o);
    var v := VerdictOn(run[j], steps[j].env);
    if v.Committed? && v.retry.Some? {
      StillPublished(h, h', v.retry.value);
    }
    assert Returned(run, steps, j, h', p, o);
  }

  lemma StepStands(start: Positions, h: Hub, s: Step)
    requires WorkerOk(h) && StandsOk(start, h) && Enabled(h, s) && !s.WorkerStart?
    ensures StandsOk(start, Apply(h, s))
  {
  }

  /** Only the worker's acknowledgement commits an offset. */
  lemma StepCommits(h: Hub, s: Step)
    requires Enabled(h, s) && !s.WorkerAck?
    ensures Apply(h, s).committed == h.committed
  {
  }

  lemma AckPasses(run: seq<Hub>, steps: seq<Step>, n: nat, start: Positions, h: Hub)
    requires WorkerOk(h) && Enabled(h, WorkerAck) && StandsOk(start, h) && HandOk(run, steps, n, h)
    requires PassedOk(run, steps, n, start, h)
    ensures PassedOk(run, steps, n + 1, start, Apply(h, WorkerAck))
  {
    var h', t := Apply(h, WorkerAck), h.worker.task;
    forall p, o | Passes(start, h'.committed, p, o)
      ensures ReturnedBefore(run, steps, n + 1, h', p, o)
    {
      assert (p == t.part && o == t.offset) || Passes(start, h.committed, p, o);
      StillReturned(run, steps, n, h, h', p, o);
    }
  }

  lemma PassedNext(run: seq<Hub>, steps: seq<Step>, n: nat, start: Positions, h: Hub, s: Step)
    requires WorkerOk(h) && Enabled(h, s) && StandsOk(start, h) && HandOk(run, steps, n, h)
    requires PassedOk(run, steps, n, start, h)
    ensures PassedOk(run, steps, n + 1, start, Apply(h, s))
  {
    if s.WorkerAck? {
      AckPasses(run, steps, n, start, h);
    } else {
      var h' := Apply(h, s);
      StepCommits(h, s);
      StepGrowsLogs(h, s);
      forall p, o | Passes(start, h'.committed, p, o)
        ensures ReturnedBefore(run, steps, n + 1, h', p, o)
      {
        StillReturned(run, steps, n, h, h', p, o);
      }
    }
  }

  /** A record's offset is next only if it was already, or its transaction has just left nothing to publish, or its
      retry has just been published; and it is being published only if it was, or has just been committed. */
  lemma StepHand(h: Hub, s: Step)
    requires Enabled(h, s) && Apply(h, s).worker.Up?
    ensures var t' := Apply(h, s).worker.task;
      && (t'.Acking? ==>
            || (h.worker.Up? && h.worker.task == t')
            || (s.WorkerProcess? && h.worker.task == Reading(t'.part, t'.offset)
                && var v := VerdictOn(h, s.env); v.Skipped? || (v.Committed? && v.retry.None?))
            || (s.WorkerPublish? && h.worker.task.part == t'.part && h.worker.task.offset == t'.offset))
      && (t'.Publishing? ==>
            || (h.worker.Up? && h.worker.task == t')
            || (s.WorkerProcess? && h.worker.task == Reading(t'.part, t'.offset)
                && VerdictOn(h, s.env).Committed? && VerdictOn(h, s.env).retry == Some(t'.retry)))
  {
  }

  lemma PublishedNow(h: Hub, index: nat)
    requires Enabled(h, WorkerPublish(index))
    ensures IsPublished(Apply(h, WorkerPublish(index)), h.worker.task.retry)
  {
    var q := Partition(h.worker.task.retry.topic, index);
    assert RecordAt(Apply(h, WorkerPublish(index)), q, |h.logs[q]|, h.worker.task.retry);
  }

  lemma AckingNext(run: seq<Hub>, steps: seq<Step>, n: nat)
    requires |run| == |steps| + 1 && n < |steps| && HandOk(run, steps, n, run[n])
    requires Enabled(run[n], steps[n]) && run[n + 1] == Apply(run[n], steps[n])
    requires run[n + 1].worker.Up? && run[n + 1].worker.task.Acking?
    ensures ReturnedBefore(run, steps, n + 1, run[n + 1], run[n + 1].worker.task.part, run[n + 1].worker.task.offset)
  {
    var h, s, t' := run[n], steps[n], run[n + 1].worker.task;
    StepHand(h, s);
    if h.worker.Up? && h.worker.task == t' {
      StepGrowsLogs(h, s);
      StillReturned(run, steps, n, h, run[n + 1], t'.part, t'.offset);
    } else if s.WorkerProcess? {
      assert Returned(run, steps, n, run[n + 1], t'.part, t'.offset);
    } else {
      var j :| 0 <= j < n && CallsFor(run, steps, j, t'.part, t'.offset, h.worker.task.retry);
      PublishedNow(h, s.index);
      assert Returned(run, steps, j, run[n + 1], t'.part, t'.offset);
    }
  }

  lemma PublishingNext(run: seq<Hub>, steps: seq<Step>, n: nat)
    requires |run| == |steps| + 1 && n < |steps| && HandOk(run, steps, n, run[n])
    requires Enabled(run[n], steps[n]) && run[n + 1] == Apply(run[n], steps[n])
    requires run[n + 1].worker.Up? && run[n + 1].worker.task.Publishing?
    ensures var t' := run[n + 1].worker.task;
      exists j :: 0 <= j < n + 1 && CallsFor(run, steps, j, t'.part, t'.offset, t'.retry)
  {
    var h, s, t' := run[n], steps[n], run[n + 1].worker.task;
    StepHand(h, s);
    if h.worker.Up? && h.worker.task == t' {
      var j :| 0 <= j < n && CallsFor(run, steps, j, t'.part, t'.offset, t'.retry);
    } else {
      assert CallsFor(run, steps, n, t'.part, t'.offset, t'.retry);
    }
  }

  lemma HandNext(run: seq<Hub>, steps: seq<Step>, n: nat)
    requires |run| == |steps| + 1 && n < |steps| && HandOk(run, steps, n, run[n])
    requires Enabled(run[n], steps[n]) && run[n + 1] == Apply(run[n], steps[n])
    ensures HandOk(run, steps, n + 1, run[n + 1])
  {
    if run[n + 1].worker.Up? {
      if run[n + 1].worker.task.Acking? {
        AckingNext(run, steps, n);
      } else if run[n + 1].worker.task.Publishing? {
        PublishingNext(run, steps, n);
      }
    }
  }

  lemma StepKeepsOffsets(run: seq<Hub>, steps: seq<Step>, n: nat)
    requires IsTrace(run, steps) && 1 <= n < |steps| && WorkerOk(run[n])
    requires run[1].worker.Up? && OffsetsTrue(run, steps, n)
    ensures OffsetsTrue(run, steps, n + 1)
  {
    assert Enabled(run[n], steps[n]) && run[n + 1] == Apply(run[n], steps[n]) && !steps[n].WorkerStart?;
    StepStands(run[1].worker.position, run[n], steps[n]);
    HandNext(run, steps, n);
    PassedNext(run, steps, n, run[1].worker.position, run[n], steps[n]);
  }

  lemma {:induction false} OffsetsAlwaysTrue(run: seq<Hub>, steps: seq<Step>, n: nat)
    requires IsTrace(run, steps) && HubOk(run[0]) && 1 <= n < |run|
    ensures run[1].worker.Up? && OffsetsTrue(run, steps, n)
  {
    assert Enabled(run[0], steps[0]) && run[0 + 1] == Apply(run[0], steps[0]);
    if n > 1 {
      OffsetsAlwaysTrue(run, steps, n - 1);
      TraceKeepsHub(run, steps, n - 1);
      StepKeepsOffsets(run, steps, n - 1);
    }
  }

  /** The committed offset of a partition never passes a record whose processing did not return normally: each
      record between start and committed offset had its transaction, which was not aborted, and the retry that
      the transaction called for is in its log. */
  lemma OffsetsNeverPass(run: seq<Hub>, steps: seq<Step>, n: nat, p: Partition, o: nat)
    requires IsTrace(run, steps) && HubOk(run[0]) && 1 <= n < |run|
    requires run[1].worker.Up? && Passes(run[1].worker.position, run[n].committed, p, o)
    ensures exists j :: 0 <= j < n && Returned(run, steps, j, run[n], p, o)
  {
    OffsetsAlwaysTrue(run, steps, n);
    assert ReturnedBefore(run, steps, n, run[n], p, o);
  }

  /** No retry-topic record is processed before its scheduled time, by the clock that the transaction reads. */
  lemma NeverEarly(run: seq<Hub>, steps: seq<Step>, k: nat)
    requires IsTrace(run, steps) && k < |steps| && steps[k].WorkerProcess?
    requires run[k].worker.task.part.topic != OutboundPending
    ensures var t := run[k].worker.task; run[k].logs[t.part][t.offset].scheduledAt <= steps[k].env.now
  {
    assert Enabled(run[k], steps[k]);
  }

  /** Every delivery has its (possibly empty) set of attempt rows. */
  predicate Paired(h: Hub) {
    h.tables.deliveries.Keys == h.tables.attempts.Keys
  }

  lemma StepKeepsPairs(h: Hub, s: Step)
    requires Paired(h) && Enabled(h, s)
    ensures Paired(Apply(h, s))
  {
    match s
    case Enqueue(news) => InsertKeepsKeys(h.tables, news);
    case _ =>
  }

  /** What a transaction on the record in hand can do to the worker. */
  lemma AfterTransaction(h: Hub, env: Environment)
    requires Paired(h) && h.worker.Up? && h.worker.task.Reading?
    requires var t := h.worker.task;
      && t.part in h.logs && t.offset < |h.logs[t.part]|
      && (t.part.topic != OutboundPending ==> h.logs[t.part][t.offset].scheduledAt <= env.now)
    ensures Enabled(h, WorkerProcess(env)) && Enabled(h, WorkerCrashBeforeCommit(env))
    ensures var h' := Apply(h, WorkerProcess(env));
      && h'.logs == h.logs && h'.committed == h.committed
      && (h'.worker.Down? <==> VerdictOn(h, env).Aborted?)
      && (h'.worker.Up? ==>
            && h'.worker.position == h.worker.position && Handles(h', h.worker.task.part, h.worker.task.offset)
            && (h'.worker.task.Publishing? || h'.worker.task.Acking?))
  {
  }

  /** What holds at the end of every trace: committed offsets passed only records whose processing, publication
      included, returned, and a covered hub has lost nothing. */
  lemma TraceEnds(run: seq<Hub>, steps: seq<Step>)
    requires IsTrace(run, steps) && HubOk(run[0])
    ensures run[1].worker.Up?
    ensures PassedOk(run, steps, |steps|, run[1].worker.position, run[|steps|])
    ensures CoverOk(run[0]) ==> NoneLost(run[|steps|])
  {
    OffsetsAlwaysTrue(run, steps, |steps|);
    if CoverOk(run[0]) {
      TraceIsAfter(run, steps, |steps|);
      assert steps[..|steps|] == steps;
      AfterKeepsCover(run[0], steps, run[|steps|]);
      CoveredIsWaiting(run[|steps|]);
    }
  }
}
