/** The sequential Kafka consumer (app/workers/outbound_consumer.py): batches, scheduled waits, shutdown,
    exceptions and offset commits. Whatever it does is a sequence of protocol steps. */
module Consumer {
  import opened Outcomes
  import opened Processor
  import opened Protocol
  import opened ProtocolSafety
  import opened NoLoss
  import opened WorkerTraces

  /** The longest single sleep of a scheduled wait, in seconds. */
  const SLEEP_CHUNK := 5.0

  /** An exception around the processor's transaction: before its commit, or after one that calls for no retry (the
      dead-letter and SLA notifications). */
  datatype Break = NoBreak | BeforeCommit | AfterCommit

  /** What becomes of a retry's publication; the producer may raise although the record was stored. */
  datatype Publication = Published(index: nat) | RaisedAfterStoring(index: nat) | NotPublished

  /** What becomes of an offset commit; it, too, may raise although it took effect. */
  datatype OffsetCommit = OffsetStored | RaisedAfterCommit | OffsetLost

  /** What the outside world does to one run of the consumer: `polls` is what each `getmany` returns at most,
      `signalAt` the suspension at which the shutdown signal arrives, `delay` how many microseconds each
      suspension takes beyond what was asked for, and `others` what the rest of the hub does meanwhile. By
      suspension, `env` is what a transaction is answered, and `breaks`, `publish` and `commit` what goes wrong. */
  datatype World = World(
    polls: seq<seq<Fetch>>,
    signalAt: nat,
    delay: nat -> nat,
    others: nat -> seq<Step>,
    env: nat -> Environment,
    breaks: nat -> Break,
    publish: nat -> Publication,
    commit: nat -> OffsetCommit)

  /** Up to `count` records of one partition, in offset order. */
  datatype Fetch = Fetch(part: Partition, count: nat)

  /** A fetched slice: records `base` to `base + count - 1`. */
  datatype Slice = Slice(part: Partition, base: nat, count: nat)

  // ---------------------------------------------------------------- fetching

  /** The positions after reading the slices of a batch in turn. */
  function Advanced(m: Positions, batch: seq<Slice>): Positions
    decreases |batch|
  {
    if batch == [] then m else Advanced(m[batch[0].part := batch[0].base + batch[0].count], batch[1..])
  }

  /** Each slice of the batch begins where its partition's position is by then. */
  predicate Chained(m: Positions, batch: seq<Slice>)
    decreases |batch|
  {
    batch == [] || (&& batch[0].part in m && m[batch[0].part] == batch[0].base
                    && Chained(m[batch[0].part := batch[0].base + batch[0].count], batch[1..]))
  }

  /** Every slice lies inside its log. */
  predicate Inside(logs: map<Partition, seq<Record>>, batch: seq<Slice>) {
    forall i :: 0 <= i < |batch| ==> batch[i].part in logs && batch[i].base + batch[i].count <= |logs[batch[i].part]|
  }

  /** A position for every partition, none beyond its log. */
  predicate Within(logs: map<Partition, seq<Record>>, m: Positions) {
    m.Keys == logs.Keys && forall p :: p in m ==> m[p] <= |logs[p]|
  }

  /** What one `getmany` returns: per partition the next records from its position. */
  function Fetched(logs: map<Partition, seq<Record>>, m: Positions, poll: seq<Fetch>): seq<Slice>
    requires Within(logs, m)
    decreases |poll|
  {
    if poll == [] then []
    else
      var p := poll[0].part;
      if p !in m then Fetched(logs, m, poll[1..])
      else
        var left := |logs[p]| - m[p];
        var count := if poll[0].count <= left then poll[0].count else left;
        [Slice(p, m[p], count)] + Fetched(logs, m[p := m[p] + count], poll[1..])
  }

  lemma {:induction false} FetchedIsChained(logs: map<Partition, seq<Record>>, m: Positions, poll: seq<Fetch>)
    requires Within(logs, m)
    ensures var batch := Fetched(logs, m, poll);
      Chained(m, batch) && Inside(logs, batch) && Within(logs, Advanced(m, batch))
    decreases |poll|
  {
    if poll != [] {
      var p := poll[0].part;
      if p in m {
        var left := |logs[p]| - m[p];
        var count := if poll[0].count <= left then poll[0].count else left;
        var s, m' := Slice(p, m[p], count), m[p := m[p] + count];
        FetchedIsChained(logs, m', poll[1..]);
        assert ([s] + Fetched(logs, m', poll[1..]))[1..] == Fetched(logs, m', poll[1..]);
      } else {
        FetchedIsChained(logs, m, poll[1..]);
      }
    }
  }

  /** The rest of a batch, once its first slice is handled and the logs have grown. */
  lemma NextSlice(a: map<Partition, seq<Record>>, b: map<Partition, seq<Record>>, at: Positions, rest: seq<Slice>)
    requires Inside(a, rest) && Grown(a, b) && rest != []
    ensures Inside(b, rest[1..])
    ensures var at' := at[rest[0].part := rest[0].base + rest[0].count];
      (Chained(at, rest) ==> Chained(at', rest[1..])) && Advanced(at, rest) == Advanced(at', rest[1..])
  {
    forall i | 0 <= i < |rest[1..]|
      ensures rest[1..][i].part in b && rest[1..][i].base + rest[1..][i].count <= |b[rest[1..][i].part]|
    {
      assert rest[1..][i] == rest[i + 1] && rest[i + 1].part in a;
      assert rest[i + 1].part in b.Keys;
    }
  }

  lemma WithinGrown(a: map<Partition, seq<Record>>, b: map<Partition, seq<Record>>, m: Positions)
    requires Within(a, m) && Grown(a, b)
    ensures Within(b, m)
  {
    forall p | p in m
      ensures p in b && m[p] <= |b[p]|
    {
      assert p in a.Keys && p in b.Keys;
    }
  }

  // ---------------------------------------------------------------- the process

  /** Nothing goes wrong: no exception around a transaction, every retry is published to a partition that exists, and
      every offset commit returns. */
  ghost predicate Smooth(w: World, partitions: set<Partition>) {
    forall n: nat ::
      && w.breaks(n) == NoBreak && w.commit(n) == OffsetStored && w.publish(n).Published?
      && forall t: Topic :: Partition(t, w.publish(n).index) in partitions
  }

  /** The last step is a transaction whose commit was aborted. */
  ghost predicate EndsInAbort(run: seq<Hub>, steps: seq<Step>) {
    && |run| == |steps| + 1 && steps != []
    && var h, s := run[|steps| - 1], steps[|steps| - 1];
       s.WorkerProcess? && CanProcess(h, s.env) && VerdictOn(h, s.env).Aborted?
  }

  /** Every poll that asks for enough of a partition takes all that is left of it. */
  lemma {:induction false} FetchedTakesAll(logs: map<Partition, seq<Record>>, m: Positions, poll: seq<Fetch>, i: nat)
    requires Within(logs, m) && i < |poll| && poll[i].part in m && poll[i].count >= |logs[poll[i].part]|
    ensures poll[i].part in Advanced(m, Fetched(logs, m, poll))
    ensures Advanced(m, Fetched(logs, m, poll))[poll[i].part] == |logs[poll[i].part]|
    decreases |poll|
  {
    var p, q := poll[0].part, poll[i].part;
    if p !in m {
      FetchedTakesAll(logs, m, poll[1..], i - 1);
    } else {
      var left := |logs[p]| - m[p];
      var count := if poll[0].count <= left then poll[0].count else left;
      var m', rest := m[p := m[p] + count], Fetched(logs, m[p := m[p] + count], poll[1..]);
      assert ([Slice(p, m[p], count)] + rest)[1..] == rest;
      if i > 0 {
        FetchedTakesAll(logs, m', poll[1..], i - 1);
      } else {
        StaysAtEnd(logs, m', poll[1..], q);
      }
    }
  }

  lemma {:induction false} StaysAtEnd(logs: map<Partition, seq<Record>>, m: Positions, poll: seq<Fetch>, q: Partition)
    requires Within(logs, m) && q in m && m[q] == |logs[q]|
    ensures q in Advanced(m, Fetched(logs, m, poll)) && Advanced(m, Fetched(logs, m, poll))[q] == |logs[q]|
    decreases |poll|
  {
    if poll != [] {
      var p := poll[0].part;
      if p !in m {
        StaysAtEnd(logs, m, poll[1..], q);
      } else {
        var left := |logs[p]| - m[p];
        var count := if poll[0].count <= left then poll[0].count else left;
        var m', rest := m[p := m[p] + count], Fetched(logs, m[p := m[p] + count], poll[1..]);
        assert ([Slice(p, m[p], count)] + rest)[1..] == rest;
        StaysAtEnd(logs, m', poll[1..], q);
      }
    }
  }

  /** A bound on the sleeps left. */
  ghost function Chunks(remaining: real): nat {
    if remaining <= 0.0 then 0 else (remaining / SLEEP_CHUNK).Floor + 1
  }

  lemma FewerChunks(before: real, after: real)
    requires before > 0.0 && (after <= 0.0 || after <= before - SLEEP_CHUNK)
    ensures Chunks(after) < Chunks(before)
  {
    if after > 0.0 {
      assert after / SLEEP_CHUNK <= before / SLEEP_CHUNK - 1.0;
    }
  }

  /** The record was handled to the end: its offset is committed, and the worker is ready for the next. */
  ghost predicate Handled(h: Hub, h': Hub, part: Partition, offset: nat) {
    && h.worker.Up? && h'.committed == h.committed[part := offset + 1]
    && h'.worker == Up(h.worker.position[part := offset + 1], Idle)
  }

  /** The worker is up, between records, at these positions. */
  predicate AtRest(h: Hub, position: Positions) {
    h.worker == Up(position, Idle)
  }

  class OutboundConsumer {
    const world: World
    /** The hub when the process started. */
    ghost const first: Hub

    var hub: Hub
    var shutdown: bool
    var now: real
    var ticks: nat
    /** The Kafka client's own positions, past all fetched records, and how often it has polled. */
    var fetched: Positions
    var polled: nat

    /** The protocol steps taken so far, by this worker and by the rest of the hub, and the states between. */
    ghost var did: seq<Step>
    ghost var run: seq<Hub>

    ghost predicate Valid()
      reads this
    {
      && IsTrace(run, did) && run[0] == first && run[|run| - 1] == hub && Paired(hub)
      && hub.logs.Keys == first.logs.Keys && (shutdown ==> ticks >= world.signalAt)
    }

    /** The process starts: it resumes every partition at its committed offset. */
    constructor (world: World, h: Hub)
      requires HubOk(h) && h.worker.Down?
      ensures Valid() && this.world == world && first == h && !shutdown
      ensures did == [WorkerStart] && hub == Apply(h, WorkerStart) && AtRest(hub, fetched) && polled == 0
      ensures Within(hub.logs, fetched)
    {
      this.world, first := world, h;
      var h' := Apply(h, WorkerStart);
      hub, fetched, polled, shutdown, now, ticks := h', h'.worker.position, 0, false, 0.0, 0;
      did, run := [WorkerStart], [h, h'];
    }

    /** One step of the worker's own. */
    method Do(s: Step)
      requires Valid() && Enabled(hub, s) && !s.WorkerStart?
      modifies this`hub, this`did, this`run
      ensures Valid() && hub == Apply(old(hub), s) && did == old(did) + [s] && run == old(run) + [hub]
    {
      TraceOneMore(run, did, s);
      StepKeepsPairs(hub, s);
      StepKeepsPartitions(hub, s);
      hub := Apply(hub, s);
      did, run := did + [s], run + [hub];
    }

    /** Any `await`: time passes, the rest of the hub goes on, and the shutdown signal may arrive. */
    method Suspend(asked: real)
      requires Valid() && 0.0 <= asked <= 5.0
      modifies this`hub, this`did, this`run, this`now, this`ticks, this`shutdown
      ensures Valid() && WorkerSame(old(hub), hub)
      ensures now >= old(now) + asked && (old(shutdown) ==> shutdown)
    {
      Meanwhile(world.others(ticks));
      now := now + asked + world.delay(ticks) as real / 1000000.0;
      ticks := ticks + 1;
      if ticks >= world.signalAt {
        shutdown := true;
      }
    }

    /** What the rest of the hub does: those of the steps that are not the worker's, and are enabled when
        their turn comes. */
    method Meanwhile(steps: seq<Step>)
      requires Valid()
      modifies this`hub, this`did, this`run
      ensures Valid() && WorkerSame(old(hub), hub)
    {
      for i := 0 to |steps|
        invariant Valid() && WorkerSame(old(hub), hub)
      {
        if IsForeign(steps[i]) && Enabled(hub, steps[i]) {
          ghost var before := hub;
          StepGrowsLogs(hub, steps[i]);
          Do(steps[i]);
          GrownTwice(old(hub).logs, before.logs, hub.logs);
        }
      }
    }

    /** `wait_until_scheduled`: returns only when the time has come or shutdown was requested. */
    method WaitUntilScheduled(scheduledAt: real)
      requires Valid()
      modifies this`hub, this`did, this`run, this`now, this`ticks, this`shutdown
      ensures Valid() && WorkerSame(old(hub), hub)
      ensures shutdown || now >= scheduledAt
      ensures now >= old(now) && (old(shutdown) ==> shutdown)
    {
      while true
        invariant Valid() && WorkerSame(old(hub), hub)
        invariant now >= old(now) && (old(shutdown) ==> shutdown)
        decreases Chunks(scheduledAt - now)
      {
        if shutdown { return; }
        var remaining := scheduledAt - now;
        if remaining <= 0.0 { return; }
        ghost var before := hub;
        Suspend(if remaining < SLEEP_CHUNK then remaining else SLEEP_CHUNK);
        GrownTwice(old(hub).logs, before.logs, hub.logs);
        FewerChunks(remaining, scheduledAt - now);
      }
    }

    /** `_handle_message`. The record's offset is committed, or all offsets are left alone: after an exception,
        or because shutdown came during the wait. */
    method HandleMessage(part: Partition, offset: nat) returns (raised: bool)
      requires Valid() && hub.worker.Up? && AtRest(hub, hub.worker.position)
      requires part in hub.logs && part in hub.worker.position && hub.worker.position[part] == offset < |hub.logs[part]|
      modifies this`hub, this`did, this`run, this`now, this`ticks, this`shutdown
      ensures Valid() && Grown(old(hub).logs, hub.logs) && (old(shutdown) ==> shutdown)
      ensures Handled(old(hub), hub, part, offset) || (hub.committed == old(hub).committed && (raised || shutdown))
      ensures raised && Smooth(world, old(hub).logs.Keys) ==> EndsInAbort(run, did)
    {
      Do(WorkerTake(part));
      if part.topic != OutboundPending {
        WaitUntilScheduled(hub.logs[part][offset].scheduledAt);
        if shutdown { return false; }
      }
      ghost var held := hub;
      raised := ProcessAndCommit(part, offset);
      GrownTwice(old(hub).logs, held.logs, hub.logs);
    }

    /** `process_outbound_message`, and the offset commit if it returned. */
    method ProcessAndCommit(part: Partition, offset: nat) returns (raised: bool)
      requires Valid() && hub.worker.Up? && hub.worker.task == Reading(part, offset)
      requires part in hub.logs && offset < |hub.logs[part]|
      requires part.topic != OutboundPending ==> now >= hub.logs[part][offset].scheduledAt
      modifies this`hub, this`did, this`run, this`now, this`ticks, this`shutdown
      ensures Valid() && Grown(old(hub).logs, hub.logs) && (old(shutdown) ==> shutdown)
      ensures Handled(old(hub), hub, part, offset) || (raised && hub.committed == old(hub).committed)
      ensures raised && Smooth(world, old(hub).logs.Keys) ==> EndsInAbort(run, did)
    {
      raised := ProcessRecord(part, offset);
      if raised { return; }
      ghost var decided := hub;
      if hub.worker.task.Publishing? {
        raised := PublishRetry();
        if raised { return; }
      }
      ghost var published := hub;
      GrownTwice(old(hub).logs, decided.logs, hub.logs);
      raised := CommitOffset();
      GrownTwice(old(hub).logs, published.logs, hub.logs);
    }

    /** The processor's transaction; it raises if the commit aborts, or if something breaks before or after it. */
    method ProcessRecord(part: Partition, offset: nat) returns (raised: bool)
      requires Valid() && hub.worker.Up? && hub.worker.task == Reading(part, offset)
      requires part in hub.logs && offset < |hub.logs[part]|
      requires part.topic != OutboundPending ==> now >= hub.logs[part][offset].scheduledAt
      modifies this`hub, this`did, this`run
      ensures Valid() && hub.logs == old(hub).logs && hub.committed == old(hub).committed
      ensures var env := world.env(ticks).(now := now);
        && CanProcess(old(hub), env)
        && (world.breaks(ticks) == BeforeCommit ==> raised && did == old(did) + [WorkerCrashBeforeCommit(env)])
        && (world.breaks(ticks) != BeforeCommit ==>
              var v := VerdictOn(old(hub), env);
              && did == old(did) + [WorkerProcess(env)] && run == old(run) + [hub]
              && (raised <==> v.Aborted? || (v.Committed? && v.retry.None? && world.breaks(ticks) == AfterCommit)))
      ensures !raised ==>
        && hub.worker.Up? && hub.worker.position == old(hub).worker.position && Handles(hub, part, offset)
        && (hub.worker.task.Publishing? || hub.worker.task.Acking?)
    {
      var env := world.env(ticks).(now := now);
      if world.breaks(ticks) == BeforeCommit {
        DieBeforeCommit(env);
        return true;
      }
      var verdict := Transact(env);
      return verdict.Aborted? || (verdict.Committed? && verdict.retry.None? && world.breaks(ticks) == AfterCommit);
    }

    /** The transaction itself. */
    method Transact(env: Environment) returns (verdict: Verdict)
      requires Valid() && hub.worker.Up? && hub.worker.task.Reading? && CanProcess(hub, env)
      modifies this`hub, this`did, this`run
      ensures Valid() && verdict == VerdictOn(old(hub), env)
      ensures did == old(did) + [WorkerProcess(env)] && run == old(run) + [hub]
      ensures hub.logs == old(hub).logs && hub.committed == old(hub).committed
      ensures hub.worker.Down? <==> verdict.Aborted?
      ensures hub.worker.Up? ==>
        && hub.worker.position == old(hub).worker.position
        && Handles(hub, old(hub).worker.task.part, old(hub).worker.task.offset)
        && (hub.worker.task.Publishing? || hub.worker.task.Acking?)
    {
      AfterTransaction(hub, env);
      verdict := VerdictOn(hub, env);
      Do(WorkerProcess(env));
    }

    /** The process dies before the commit. */
    method DieBeforeCommit(env: Environment)
      requires Valid() && CanProcess(hub, env)
      modifies this`hub, this`did, this`run
      ensures Valid() && did == old(did) + [WorkerCrashBeforeCommit(env)]
      ensures hub.logs == old(hub).logs && hub.committed == old(hub).committed
    {
      Do(WorkerCrashBeforeCommit(env));
    }

    /** `publish_outbound_retry`. */
    method PublishRetry() returns (raised: bool)
      requires Valid() && hub.worker.Up? && hub.worker.task.Publishing?
      modifies this`hub, this`did, this`run, this`now, this`ticks, this`shutdown
      ensures Valid() && Grown(old(hub).logs, hub.logs) && (old(shutdown) ==> shutdown)
      ensures hub.committed == old(hub).committed && hub.worker.Up? && hub.worker.position == old(hub).worker.position
      ensures !raised ==> hub.worker.task == Acking(old(hub).worker.task.part, old(hub).worker.task.offset)
      ensures var q := world.publish(old(ticks));
        raised <==> !(q.Published? && Partition(old(hub).worker.task.retry.topic, q.index) in old(hub).logs)
    {
      var publication := world.publish(ticks);
      Suspend(0.0);
      if publication.NotPublished? || Partition(hub.worker.task.retry.topic, publication.index) !in hub.logs {
        return true;
      }
      ghost var before := hub;
      StepGrowsLogs(hub, WorkerPublish(publication.index));
      Do(WorkerPublish(publication.index));
      GrownTwice(old(hub).logs, before.logs, hub.logs);
      return publication.RaisedAfterStoring?;
    }

    /** `consumer.commit`. */
    method CommitOffset() returns (raised: bool)
      requires Valid() && hub.worker.Up? && hub.worker.task.Acking?
      modifies this`hub, this`did, this`run, this`now, this`ticks, this`shutdown
      ensures Valid() && Grown(old(hub).logs, hub.logs) && (old(shutdown) ==> shutdown)
      ensures Handled(old(hub), hub, old(hub).worker.task.part, old(hub).worker.task.offset)
        || (raised && hub.committed == old(hub).committed)
      ensures raised <==> world.commit(old(ticks)) != OffsetStored
    {
      var result := world.commit(ticks);
      Suspend(0.0);
      if result == OffsetLost { return true; }
      Do(WorkerAck);
      return result == RaisedAfterCommit;
    }

    /** `getmany`: the fetched records' positions are passed at once, before they are handled. */
    method GetMany(poll: seq<Fetch>) returns (batch: seq<Slice>)
      requires Valid() && Within(hub.logs, fetched)
      modifies this`hub, this`did, this`run, this`now, this`ticks, this`shutdown, this`fetched, this`polled
      ensures Valid() && WorkerSame(old(hub), hub) && (old(shutdown) ==> shutdown) && polled == old(polled) + 1
      ensures Within(hub.logs, old(fetched)) && batch == Fetched(hub.logs, old(fetched), poll)
      ensures Chained(old(fetched), batch) && fetched == Advanced(old(fetched), batch)
      ensures Inside(hub.logs, batch) && Within(hub.logs, fetched)
    {
      Suspend(0.0);
      WithinGrown(old(hub).logs, hub.logs, fetched);
      batch := Fetched(hub.logs, fetched, poll);
      FetchedIsChained(hub.logs, fetched, poll);
      fetched := Advanced(fetched, batch);
      polled := polled + 1;
    }

    /** The messages of one slice, in order, until shutdown or an exception. */
    method HandleSlice(s: Slice, ghost position: Positions) returns (raised: bool)
      requires Valid() && s.part in hub.logs && s.base + s.count <= |hub.logs[s.part]|
      requires shutdown || (AtRest(hub, position) && s.part in position && position[s.part] == s.base)
      modifies this`hub, this`did, this`run, this`now, this`ticks, this`shutdown
      ensures Valid() && Grown(old(hub).logs, hub.logs) && (old(shutdown) ==> shutdown)
      ensures !raised && !shutdown ==> AtRest(hub, position[s.part := s.base + s.count])
      ensures raised && Smooth(world, old(hub).logs.Keys) ==> EndsInAbort(run, did)
    {
      var k := 0;
      raised := false;
      while k < s.count
        invariant k <= s.count && Valid() && Grown(old(hub).logs, hub.logs) && (old(shutdown) ==> shutdown)
        invariant shutdown || AtRest(hub, position[s.part := s.base + k])
      {
        if shutdown { break; }
        ghost var before := hub;
        raised := HandleMessage(s.part, s.base + k);
        GrownTwice(old(hub).logs, before.logs, hub.logs);
        if raised { return; }
        k := k + 1;
      }
    }

    /** The slices of one batch, until shutdown or an exception. */
    method HandleBatch(batch: seq<Slice>, ghost position: Positions) returns (raised: bool)
      requires Valid() && Inside(hub.logs, batch) && (shutdown || (AtRest(hub, position) && Chained(position, batch)))
      modifies this`hub, this`did, this`run, this`now, this`ticks, this`shutdown
      ensures Valid() && Grown(old(hub).logs, hub.logs) && (old(shutdown) ==> shutdown)
      ensures !raised && !shutdown ==> AtRest(hub, Advanced(position, batch))
      ensures raised && Smooth(world, old(hub).logs.Keys) ==> EndsInAbort(run, did)
    {
      var rest := batch;
      ghost var at: Positions := position;
      raised := false;
      while rest != []
        invariant Valid() && Grown(old(hub).logs, hub.logs) && (old(shutdown) ==> shutdown)
        invariant Inside(hub.logs, rest)
        invariant shutdown
          || (AtRest(hub, at) && Chained(at, rest) && Advanced(at, rest) == Advanced(position, batch))
        decreases |rest|
      {
        ghost var before := hub;
        raised := HandleSlice(rest[0], at);
        GrownTwice(old(hub).logs, before.logs, hub.logs);
        NextSlice(before.logs, hub.logs, at, rest);
        if raised { return; }
        at := at[rest[0].part := rest[0].base + rest[0].count];
        rest := rest[1..];
      }
    }

    /** The end of the process, by exception or by shutdown. */
    method Stop()
      requires Valid()
      modifies this`hub, this`did, this`run
      ensures Valid() && hub.worker.Down? && hub.committed == old(hub).committed && hub.logs == old(hub).logs
      ensures old(hub).worker.Down? ==> did == old(did) && run == old(run)
    {
      if hub.worker.Up? {
        Do(WorkerCrash);
      }
    }

    /** The polling loop: batch after batch until shutdown, an exception, or the last poll. */
    method PollAll() returns (raised: bool)
      requires Valid() && AtRest(hub, fetched) && Within(hub.logs, fetched) && polled == 0
      modifies this
      ensures Valid()
      ensures !raised && !shutdown ==> AtRest(hub, fetched) && polled == |world.polls|
      ensures raised && Smooth(world, first.logs.Keys) ==> EndsInAbort(run, did) && hub.worker.Down?
    {
      raised := false;
      while polled < |world.polls| && !shutdown && !raised
        invariant polled <= |world.polls| && Valid()
        invariant raised && Smooth(world, first.logs.Keys) ==> EndsInAbort(run, did)
        invariant raised || shutdown || (AtRest(hub, fetched) && Within(hub.logs, fetched))
      {
        ghost var position := fetched;
        var batch := GetMany(world.polls[polled]);
        ghost var logs := hub.logs;
        raised := HandleBatch(batch, position);
        WithinGrown(logs, hub.logs, fetched);
      }
      AbortIsDown(run, did);
    }

    /** `run`, over any number of polls. However far it gets and however it ends, what it and the rest of the hub
        did is one trace of enabled protocol steps, so no retry-topic record was processed before its time; no
        committed offset passed a record whose processing did not return; unless it was stopped, it has polled as
        often as it could and all it fetched is committed; only the signal shuts it down, and if nothing else goes
        wrong only an aborted transaction ends it by an exception; and a covered hub has lost nothing. */
    method Run() returns (raised: bool)
      requires Valid() && HubOk(first) && AtRest(hub, fetched) && Within(hub.logs, fetched) && polled == 0
      modifies this
      ensures IsTrace(run, did) && run[0] == first && run[|run| - 1] == hub
      ensures run[1].worker.Up? && PassedOk(run, did, |did|, run[1].worker.position, hub)
      ensures if raised || shutdown then hub.worker.Down? else AtRest(hub, fetched) && polled == |world.polls|
      ensures shutdown ==> ticks >= world.signalAt
      ensures raised && Smooth(world, first.logs.Keys) ==> EndsInAbort(run, did)
      ensures CoverOk(first) ==> NoneLost(hub)
    {
      raised := PollAll();
      if raised || shutdown {
        Stop();
      }
      TraceEnds(run, did);
    }
  }

  lemma AbortIsDown(run: seq<Hub>, steps: seq<Step>)
    requires IsTrace(run, steps)
    ensures EndsInAbort(run, steps) ==> run[|steps|].worker.Down?
  {
    var n := |steps| - 1;
    assert Enabled(run[n], steps[n]) && run[n + 1] == Apply(run[n], steps[n]);
  }
}
