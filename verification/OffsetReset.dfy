/** What the consumer's start-up offset costs. The consumer passes no reset policy, so a partition the
    group has never committed on is read from whatever the client library's policy says. */
module OffsetReset {
  import opened Wrappers
  import opened Status
  import opened Outcomes
  import opened Tables
  import opened Outbox
  import opened Processor
  import opened Lifecycle
  import opened Protocol
  import opened ProtocolSafety
  import opened NoLoss
  import opened Continuations

  /** One delivery, with the hub's default attempt limit. */
  const SAMPLE := Delivery(1, "00000000-0000-0000-0000-000000000000", "::00000000-0000-0000-0000-000000000000", "",
                           PENDING, 0, 8, None, None, 0.0, false)

  const SAMPLE_NEWS: seq<NewRow> := [(0, SAMPLE)]

  const SAMPLE_TABLES := Inserted(EMPTY, SAMPLE_NEWS, Ids(SAMPLE_NEWS))

  lemma SamplePersists()
    ensures Persist(EMPTY, SAMPLE_NEWS, Ids(SAMPLE_NEWS)) == Persisted(SAMPLE_TABLES)
    ensures SAMPLE_TABLES.outbox == [OutboxRow(0, 0, false, 0)]
    ensures 0 in SAMPLE_TABLES.deliveries && SAMPLE_TABLES.deliveries[0] == SAMPLE
    ensures SAMPLE_TABLES.deadLetters == {}
  {
    assert !Conflicts(EMPTY, SAMPLE_NEWS);
    PersistAddsExactly(EMPTY, SAMPLE_NEWS, Ids(SAMPLE_NEWS));
    assert SAMPLE_TABLES.outbox[|EMPTY.outbox| + 0] == OutboxRow(0, 0, false, 0);
  }

  // ---------------------------------------------------------------- a first run

  /** Enqueue, relay send and relay commit: delivery 0's record is the only one, in partition `p`. */
  ghost predicate OnlyRecord(h: Hub, h0: Hub, p: Partition) {
    && h.settings == h0.settings && h.reset == h0.reset && h.committed == h0.committed
    && h.logs == h0.logs[p := [Record(0, 0.0)]]
    && h.tables.outbox == [OutboxRow(0, 0, true, 0)]
    && 0 in h.tables.deliveries && 0 !in h.tables.deadLetters
  }

  lemma FirstRecord(h0: Hub, p: Partition) returns (steps: seq<Step>, h: Hub)
    requires Init(h0) && p in h0.logs && p.topic == OutboundPending
    ensures After(h0, steps) == Some(h) && OnlyRecord(h, h0, p) && h.worker == Down
    ensures h.tables.deliveries[0] == SAMPLE
  {
    SamplePersists();
    var h1 := h0.(tables := SAMPLE_TABLES);
    steps := [Enqueue(SAMPLE_NEWS)];
    assert After(h0, []) == Some(h0);
    AfterOneMore(h0, [], h0, Enqueue(SAMPLE_NEWS));
    assert [] + [Enqueue(SAMPLE_NEWS)] == steps;
    var send := RelaySend(0, p, 0.0, true);
    AfterOneMore(h0, steps, h1, send);
    var h2 := Apply(h1, send);
    AfterOneMore(h0, steps + [send], h2, RelayCommit);
    steps, h := steps + [send] + [RelayCommit], Apply(h2, RelayCommit);
    assert h.logs[p] == [] + [Record(0, 0.0)] == [Record(0, 0.0)];
    assert h.tables.outbox == MarkSent([OutboxRow(0, 0, false, 0)], {0}) == [OutboxRow(0, 0, true, 0)];
  }

  /** Under `latest`, one delivery published to a pending partition without a committed offset, before
      the worker has started, is gone for good. */
  lemma LatestLoses(h0: Hub, p: Partition) returns (steps: seq<Step>, h: Hub)
    requires Init(h0) && h0.reset == Latest
    requires p in h0.logs && p.topic == OutboundPending && p !in h0.committed
    ensures After(h0, steps) == Some(h) && Gone(h, 0)
  {
    var h1;
    steps, h1 := FirstRecord(h0, p);
    AfterOneMore(h0, steps, h1, WorkerStart);
    steps, h := steps + [WorkerStart], Apply(h1, WorkerStart);
  }

  // ---------------------------------------------------------------- the same record, read again and again

  /** The partner's endpoint answers 500. */
  const UNAVAILABLE := Environment(0.0, true, true, [], PostResult(Some(500), None))

  /** A worker that starts on empty logs will read partition `p` from the beginning. */
  ghost predicate ReadsFromStart(h0: Hub, p: Partition) {
    Init(h0) && p in h0.logs && p.topic == OutboundPending && (p in h0.committed || h0.reset == Earliest)
  }

  /** The worker holds the only record for the (k+1)-th time: each time before, it crashed between its
      commit and the publication of the retry. */
  ghost predicate Looping(h: Hub, h0: Hub, p: Partition, k: nat) {
    && OnlyRecord(h, h0, p)
    && h.worker.Up? && h.worker.task == Reading(p, 0)
    && var d := h.tables.deliveries[0];
       IsOpen(d.status) && d.attemptCount == k && d.maxAttempts == 8
  }

  lemma FirstRead(h0: Hub, p: Partition) returns (steps: seq<Step>, h: Hub)
    requires ReadsFromStart(h0, p)
    ensures After(h0, steps) == Some(h) && Looping(h, h0, p, 0)
  {
    var h1;
    steps, h1 := FirstRecord(h0, p);
    AfterOneMore(h0, steps, h1, WorkerStart);
    var h2 := Apply(h1, WorkerStart);
    AfterOneMore(h0, steps + [WorkerStart], h2, WorkerTake(p));
    steps, h := steps + [WorkerStart] + [WorkerTake(p)], Apply(h2, WorkerTake(p));
  }

  /** A failed attempt, not the last, leaves the worker about to publish the retry. */
  ghost predicate AboutToRetry(h: Hub, h0: Hub, p: Partition, k: nat) {
    && h.worker.Up? && h.worker.task.Publishing?
    && h.worker.task.retry.topic == RetryTopicFor(k + 2, DelaySeconds(k + 1, h0.settings))
    && Looping(h.(worker := h.worker.(task := Reading(p, 0))), h0, p, k + 1)
    && h.worker.task.part == p && h.worker.task.offset == 0 && h.worker.task.retry.delivery == 0
  }

  lemma Attempt(h: Hub, h0: Hub, p: Partition, k: nat)
    requires HubOk(h) && ReadsFromStart(h0, p) && Looping(h, h0, p, k) && k < 7
    ensures Enabled(h, WorkerProcess(UNAVAILABLE))
    ensures AboutToRetry(Apply(h, WorkerProcess(UNAVAILABLE)), h0, p, k)
  {
    FirstLifeNeverAborts(h.tables, 0, h.settings, UNAVAILABLE);
    assert ClassifyPost(UNAVAILABLE) == RETRYABLE;
  }

  /** Crash, restart and read the same record again. */
  lemma ReadAgain(h: Hub, h0: Hub, p: Partition, k: nat)
    requires ReadsFromStart(h0, p) && h.worker.Up?
    requires Looping(h.(worker := h.worker.(task := Reading(p, 0))), h0, p, k)
    ensures Enabled(h, WorkerCrash) && Enabled(Apply(h, WorkerCrash), WorkerStart)
    ensures var h1 := Apply(Apply(h, WorkerCrash), WorkerStart);
      Enabled(h1, WorkerTake(p)) && Looping(Apply(h1, WorkerTake(p)), h0, p, k)
  {
  }

  lemma InitOk(h0: Hub)
    requires Init(h0)
    ensures HubOk(h0)
  {
  }

  lemma Attempted(h0: Hub, p: Partition, k: nat, steps: seq<Step>, h: Hub) returns (steps': seq<Step>, h': Hub)
    requires ReadsFromStart(h0, p) && After(h0, steps) == Some(h) && Looping(h, h0, p, k) && k < 7
    ensures After(h0, steps') == Some(h') && AboutToRetry(h', h0, p, k)
  {
    InitOk(h0);
    AfterKeepsHub(h0, steps, h);
    Attempt(h, h0, p, k);
    AfterOneMore(h0, steps, h, WorkerProcess(UNAVAILABLE));
    steps', h' := steps + [WorkerProcess(UNAVAILABLE)], Apply(h, WorkerProcess(UNAVAILABLE));
  }

  lemma {:induction false} ReadTimes(h0: Hub, p: Partition, k: nat) returns (steps: seq<Step>, h: Hub)
    requires ReadsFromStart(h0, p) && k <= 7
    ensures After(h0, steps) == Some(h) && Looping(h, h0, p, k)
  {
    if k == 0 {
      steps, h := FirstRead(h0, p);
    } else {
      steps, h := ReadTimes(h0, p, k - 1);
      steps, h := Attempted(h0, p, k - 1, steps, h);
      ReadAgain(h, h0, p, k);
      steps, h := Restarted(h0, steps, h);
      AfterOneMore(h0, steps, h, WorkerTake(p));
      steps, h := steps + [WorkerTake(p)], Apply(h, WorkerTake(p));
    }
  }

  lemma Restarted(h0: Hub, steps: seq<Step>, h: Hub) returns (steps': seq<Step>, h': Hub)
    requires After(h0, steps) == Some(h) && h.worker.Up?
    ensures After(h0, steps') == Some(h') && h' == Apply(Apply(h, WorkerCrash), WorkerStart)
  {
    AfterOneMore(h0, steps, h, WorkerCrash);
    var down := Apply(h, WorkerCrash);
    AfterOneMore(h0, steps + [WorkerCrash], down, WorkerStart);
    steps', h' := steps + [WorkerCrash] + [WorkerStart], Apply(down, WorkerStart);
  }

  // ---------------------------------------------------------------- retry partitions

  /** After how many failed attempts the next retry goes to the topic. */
  function FailuresBefore(topic: Topic): nat
    requires topic != OutboundPending
  {
    match topic
    case Retry30s => 0
    case Retry1m => 1
    case Retry5m => 2
    case Retry15m => 3
    case Retry1h => 5
  }

  /** Every tier that the settings use is reached within the default attempt limit. */
  lemma EveryUsedTopicIsReached(cfg: Settings, topic: Topic)
    requires topic != OutboundPending && UsesTopic(cfg, topic)
    ensures var n := FailuresBefore(topic); n < 7 && RetryTopicFor(n + 2, DelaySeconds(n + 1, cfg)) == topic
  {
    SecondDelay(cfg);
  }

  /** Under `latest`, a retry published to a partition without a committed offset is gone for good if the
      worker restarts before it has committed there. */
  lemma LatestLosesRetries(h0: Hub, p: Partition, q: Partition) returns (steps: seq<Step>, h: Hub)
    requires ReadsFromStart(h0, p) && h0.reset == Latest
    requires q in h0.logs && q !in h0.committed && q.topic != OutboundPending && UsesTopic(h0.settings, q.topic)
    ensures After(h0, steps) == Some(h) && Gone(h, 0)
  {
    var n := FailuresBefore(q.topic);
    EveryUsedTopicIsReached(h0.settings, q.topic);
    steps, h := ReadTimes(h0, p, n);
    steps, h := Attempted(h0, p, n, steps, h);
    PublishThenAck(h, h0, p, q, n);
    AfterOneMore(h0, steps, h, WorkerPublish(q.index));
    var h1 := Apply(h, WorkerPublish(q.index));
    AfterOneMore(h0, steps + [WorkerPublish(q.index)], h1, WorkerAck);
    steps, h := Restarted(h0, steps + [WorkerPublish(q.index)] + [WorkerAck], Apply(h1, WorkerAck));
  }

  lemma PublishThenAck(h: Hub, h0: Hub, p: Partition, q: Partition, k: nat)
    requires ReadsFromStart(h0, p) && h0.reset == Latest && AboutToRetry(h, h0, p, k)
    requires q in h0.logs && q !in h0.committed && q.topic != OutboundPending && h.worker.task.retry.topic == q.topic
    ensures Enabled(h, WorkerPublish(q.index)) && Enabled(Apply(h, WorkerPublish(q.index)), WorkerAck)
    ensures Gone(Apply(Apply(Apply(Apply(h, WorkerPublish(q.index)), WorkerAck), WorkerCrash), WorkerStart), 0)
  {
    assert q == Partition(h.worker.task.retry.topic, q.index);
  }

  // ---------------------------------------------------------------- exactly when

  /** No run leaves an open delivery without an outbox row or a record that a restart would read. */
  ghost predicate NeverLoses(h0: Hub) {
    forall steps, h :: After(h0, steps) == Some(h) ==> NoneLost(h)
  }

  /** No run leaves an open delivery that will never be processed again. */
  ghost predicate NeverStrands(h0: Hub) {
    forall steps, h, id :: After(h0, steps) == Some(h) ==> !Gone(h, id)
  }

  lemma ProvisionedNeverLoses(h0: Hub)
    requires Init(h0) && Provisioned(h0)
    ensures NeverLoses(h0) && NeverStrands(h0)
  {
    InitOk(h0);
    forall steps, h | After(h0, steps) == Some(h)
      ensures NoneLost(h)
    {
      AfterKeepsCover(h0, steps, h);
      CoveredIsWaiting(h);
    }
    forall steps, h, id | After(h0, steps) == Some(h)
      ensures !Gone(h, id)
    {
      if Gone(h, id) {
        GoneIsNotWaiting(h, id);
      }
    }
  }

  lemma UnprovisionedStrands(h0: Hub) returns (steps: seq<Step>, h: Hub)
    requires Init(h0) && !Provisioned(h0)
    ensures After(h0, steps) == Some(h) && Gone(h, 0)
  {
    var q :| q in h0.logs && Fed(h0, q) && q !in h0.committed;
    var p :| p in h0.logs && p.topic == OutboundPending;
    if q.topic == OutboundPending {
      steps, h := LatestLoses(h0, q);
    } else if p !in h0.committed {
      steps, h := LatestLoses(h0, p);
    } else {
      steps, h := LatestLosesRetries(h0, p, q);
    }
  }

  /** From any initial state: no run ever loses a delivery, and no run ever strands one for good, if and
      only if every partition that records can reach has a committed offset or unread partitions are read
      from the start. */
  lemma NeverLosesIffProvisioned(h0: Hub)
    requires Init(h0)
    ensures NeverLoses(h0) <==> Provisioned(h0)
    ensures NeverStrands(h0) <==> Provisioned(h0)
  {
    if Provisioned(h0) {
      ProvisionedNeverLoses(h0);
    } else {
      var steps, h := UnprovisionedStrands(h0);
      GoneIsNotWaiting(h, 0);
    }
  }
}
