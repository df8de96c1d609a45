/** No delivery is ever lost: at-least-once hand-over between outbox, Kafka and worker, with crashes
    possible between any two steps. */
module NoLoss {
  import opened Status
  import opened Outcomes
  import opened Tables
  import opened Outbox
  import opened Processor
  import opened Lifecycle
  import opened Protocol
  import opened ProtocolSafety

  /** Row `i` names the delivery and survives the relay's open transaction as unpublished. */
  predicate RowUnsent(h: Hub, i: int, id: DeliveryId) {
    0 <= i < |h.tables.outbox| && h.tables.outbox[i].envelope == id && !h.tables.outbox[i].published && i !in h.sent
  }

  predicate BeingAcked(h: Hub, p: Partition, o: int) {
    h.worker.Up? && h.worker.task.Acking? && h.worker.task.part == p && h.worker.task.offset == o
  }

  /** The record at `p`, `o` names the delivery and will be read (again) before its offset is passed. */
  predicate RecordAhead(h: Hub, p: Partition, o: int, id: DeliveryId) {
    && p in h.logs && ResumeAt(h, p) <= o < |h.logs[p]| && h.logs[p][o].delivery == id
    && !BeingAcked(h, p, o)
  }

  ghost predicate Covered(h: Hub, id: DeliveryId) {
    (exists i :: RowUnsent(h, i, id)) || (exists p, o :: RecordAhead(h, p, o, id))
  }

  predicate Open(h: Hub, id: DeliveryId) {
    id in h.tables.deliveries && IsOpen(h.tables.deliveries[id].status)
  }

  ghost predicate AllCovered(h: Hub) {
    forall id {:trigger Covered(h, id)} :: Open(h, id) ==> Covered(h, id)
  }

  /** With every partition provisioned a running worker reads exactly from where it would resume. */
  ghost predicate PositionOk(h: Hub) {
    h.worker.Up? ==> forall p :: p in h.logs ==> p in h.worker.position && h.worker.position[p] == ResumeAt(h, p)
  }

  /** Partitions that no record can reach are empty, and the retry being published goes to a used topic. */
  ghost predicate FeedOk(h: Hub) {
    && (forall p :: p in h.logs && !Fed(h, p) ==> h.logs[p] == [])
    && (h.worker.Up? && h.worker.task.Publishing? ==> UsesTopic(h.settings, h.worker.task.retry.topic))
  }

  ghost predicate CoverOk(h: Hub) {
    HubOk(h) && FeedOk(h) && Provisioned(h) && PositionOk(h) && AllCovered(h)
  }

  lemma EnqueueCovers(h: Hub, news: seq<NewRow>, id: DeliveryId)
    requires CoverOk(h) && Enabled(h, Enqueue(news)) && Open(Apply(h, Enqueue(news)), id)
    ensures Covered(Apply(h, Enqueue(news)), id)
  {
    var h' := Apply(h, Enqueue(news));
    PersistAddsExactly(h.tables, news, Ids(news));
    if id in h.tables.deliveries {
      assert Covered(h, id);
      if i :| RowUnsent(h, i, id) {
        assert RowUnsent(h', i, id);
      } else {
        var p, o :| RecordAhead(h, p, o, id);
        assert RecordAhead(h', p, o, id);
      }
    } else {
      var i :| 0 <= i < |news| && news[i].0 == id;
      assert RowUnsent(h', |h.tables.outbox| + i, id);
    }
  }

  lemma ReplayCovers(h: Hub, s: Step, id: DeliveryId)
    requires CoverOk(h) && s.ReplayDelivery? && Enabled(h, s) && Open(Apply(h, s), id)
    ensures Covered(Apply(h, s), id)
  {
    var h' := Apply(h, s);
    if id == s.id {
      assert RowUnsent(h', |h.tables.outbox|, id);
    } else {
      assert Covered(h, id);
      if i :| RowUnsent(h, i, id) {
        assert RowUnsent(h', i, id);
      } else {
        var p, o :| RecordAhead(h, p, o, id);
        assert RecordAhead(h', p, o, id);
      }
    }
  }

  lemma RelayCovers(h: Hub, s: Step, id: DeliveryId)
    requires CoverOk(h) && (s.RelaySend? || s.RelayCommit? || s.RelayCrash?) && Enabled(h, s) && Open(h, id)
    ensures Covered(Apply(h, s), id)
  {
    var h' := Apply(h, s);
    assert Covered(h, id);
    if i :| RowUnsent(h, i, id) {
      if s.RelaySend? && i == s.row {
        assert RecordAhead(h', s.part, |h.logs[s.part]|, id);
      } else {
        assert RowUnsent(h', i, id);
      }
    } else {
      var p, o :| RecordAhead(h, p, o, id);
      assert RecordAhead(h', p, o, id);
    }
  }

  /** Reading or processing a record loses nothing: its delivery stays open only together with a retry
      record still to be published, and until then the record itself is not passed. */
  lemma ProcessCovers(h: Hub, s: Step, id: DeliveryId)
    requires CoverOk(h) && s.WorkerProcess? && Enabled(h, s) && Open(Apply(h, s), id)
    ensures Covered(Apply(h, s), id)
  {
    var h' := Apply(h, s);
    var t := h.worker.task;
    var x := h.logs[t.part][t.offset].delivery;
    ProcessFrame(h.tables, x, h.settings, s.env);
    assert Covered(h, id);
    if i :| RowUnsent(h, i, id) {
      assert RowUnsent(h', i, id);
    } else {
      var p, o :| RecordAhead(h, p, o, id);
      assert RecordAhead(h', p, o, id);
    }
  }

  /** What a processed record does, seen from outside: other deliveries and the outbox are untouched,
      and a delivery that is still open afterwards is one whose retry is about to be published. */
  lemma ProcessFrame(t: Tables, x: DeliveryId, cfg: Settings, env: Environment)
    requires Wellformed(t) && x in t.deliveries
    ensures var v := Process(t, x, cfg, env);
      && (v.Skipped? ==> !IsOpen(t.deliveries[x].status))
      && (!v.Skipped? ==> IsOpen(t.deliveries[x].status))
      && (v.Committed? ==>
            && v.tables.outbox == t.outbox
            && v.tables.deliveries.Keys == t.deliveries.Keys
            && (v.retry.Some? <==> IsOpen(v.tables.deliveries[x].status))
            && forall id :: id in t.deliveries && id != x ==> v.tables.deliveries[id] == t.deliveries[id])
  {
    ProcessRetry(t, x, cfg, env);
    if Process(t, x, cfg, env).Committed? {
      var u := ProcessShape(t, x, cfg, env);
    }
  }

  lemma WorkerCovers(h: Hub, s: Step, id: DeliveryId)
    requires CoverOk(h) && Enabled(h, s) && Open(h, id)
    requires s.WorkerStart? || s.WorkerTake? || s.WorkerPublish? || s.WorkerAck? || s.WorkerCrash?
      || s.WorkerCrashBeforeCommit?
    ensures Covered(Apply(h, s), id)
  {
    var h' := Apply(h, s);
    assert Covered(h, id);
    if i :| RowUnsent(h, i, id) {
      assert RowUnsent(h', i, id);
    } else {
      var p, o :| RecordAhead(h, p, o, id);
      if s.WorkerPublish? && h.worker.task.retry.delivery == id {
        var q := Partition(h.worker.task.retry.topic, s.index);
        assert RecordAhead(h', q, |h.logs[q]|, id);
      } else {
        assert RecordAhead(h', p, o, id);
      }
    }
  }

  lemma SecondDelay(cfg: Settings)
    ensures UsesTopic(cfg, Retry1m) <==> 45.0 < DelaySeconds(2, cfg) <= 90.0
  {
    var product := cfg.backoffBase * cfg.backoffMultiplier;
    assert Power(cfg.backoffMultiplier, 1) == cfg.backoffMultiplier * Power(cfg.backoffMultiplier, 0);
    assert CappedDelay(2, cfg) == if product <= cfg.backoffMax then product else cfg.backoffMax;
  }

  /** Every retry the processor publishes, after a POST or a deferral, goes to a topic its settings use. */
  lemma RetryTopicIsUsed(t: Tables, x: DeliveryId, cfg: Settings, env: Environment)
    requires Wellformed(t)
    ensures var v := Process(t, x, cfg, env);
      v.Committed? && v.retry.Some? ==> UsesTopic(cfg, v.retry.value.topic)
  {
    SecondDelay(cfg);
  }

  lemma FedSame(h: Hub, h': Hub)
    requires h'.settings == h.settings && h'.logs.Keys == h.logs.Keys
    ensures forall p :: Fed(h', p) <==> Fed(h, p)
  {
    if q :| q in h.logs && q.topic == OutboundPending {
      assert q in h'.logs.Keys;
      assert q in h'.logs;
    } else {
      assert forall q :: q in h'.logs ==> q in h.logs.Keys;
    }
  }

  /** No step changes the settings or the set of partitions. */
  lemma StepKeepsPartitions(h: Hub, s: Step)
    requires Enabled(h, s)
    ensures Apply(h, s).settings == h.settings && Apply(h, s).reset == h.reset
    ensures Apply(h, s).logs.Keys == h.logs.Keys
  {
  }

  /** The partition a retry is published to can be reached: the worker's own record came from somewhere. */
  lemma PublishTargetIsFed(h: Hub, index: nat)
    requires HubOk(h) && FeedOk(h) && Enabled(h, WorkerPublish(index))
    ensures Fed(h, Partition(h.worker.task.retry.topic, index))
  {
    assert h.logs[h.worker.task.part] != [];
    assert Fed(h, h.worker.task.part);
  }

  lemma StepKeepsFeed(h: Hub, s: Step)
    requires HubOk(h) && FeedOk(h) && Enabled(h, s)
    ensures FeedOk(Apply(h, s))
  {
    StepKeepsPartitions(h, s);
    FedSame(h, Apply(h, s));
    match s
    case WorkerProcess(env) =>
      var t := h.worker.task;
      RetryTopicIsUsed(h.tables, h.logs[t.part][t.offset].delivery, h.settings, env);
    case WorkerPublish(index) => PublishTargetIsFed(h, index);
    case RelaySend(_, part, _, _) => assert Fed(h, part);
    case _ =>
  }

  lemma StepKeepsProvisioned(h: Hub, s: Step)
    requires Provisioned(h) && Enabled(h, s)
    ensures Provisioned(Apply(h, s))
  {
    StepKeepsPartitions(h, s);
    FedSame(h, Apply(h, s));
  }

  lemma AppendKeepsPosition(h: Hub, p: Partition, r: Record)
    requires PositionOk(h) && p in h.logs && (h.reset == Earliest || p in h.committed)
    ensures PositionOk(Append(h, p, r))
  {
  }

  lemma StepKeepsPosition(h: Hub, s: Step)
    requires HubOk(h) && FeedOk(h) && Provisioned(h) && PositionOk(h) && Enabled(h, s)
    ensures PositionOk(Apply(h, s))
  {
    match s
    case WorkerProcess(env) => ProcessKeepsPosition(h, env);
    case WorkerPublish(index) =>
      var r := h.worker.task.retry;
      PublishTargetIsFed(h, index);
      AppendKeepsPosition(h, Partition(r.topic, index), Record(r.delivery, r.scheduledAt));
    case RelaySend(row, part, at, _) =>
      assert Fed(h, part);
      AppendKeepsPosition(h, part, Record(h.tables.outbox[row].envelope, at));
    case _ => WorkerKeepsPosition(h, s);
  }

  lemma WorkerKeepsPosition(h: Hub, s: Step)
    requires WorkerOk(h) && PositionOk(h) && Enabled(h, s)
    requires !s.WorkerProcess? && !s.WorkerPublish? && !s.RelaySend?
    ensures PositionOk(Apply(h, s))
  {
  }

  lemma ProcessKeepsPosition(h: Hub, env: Environment)
    requires PositionOk(h) && Enabled(h, WorkerProcess(env))
    ensures PositionOk(ProcessStep(h, env))
  {
  }

  lemma StepKeepsCover(h: Hub, s: Step)
    requires CoverOk(h) && Enabled(h, s)
    ensures CoverOk(Apply(h, s))
  {
    StepKeepsHub(h, s);
    StepKeepsFeed(h, s);
    StepKeepsProvisioned(h, s);
    StepKeepsPosition(h, s);
    forall id | Open(Apply(h, s), id)
      ensures Covered(Apply(h, s), id)
    {
      match s
      case Enqueue(news) => EnqueueCovers(h, news, id);
      case ReplayDelivery(_, _) => ReplayCovers(h, s, id);
      case RelaySend(_, _, _, _) => RelayCovers(h, s, id);
      case RelayCommit => RelayCovers(h, s, id);
      case RelayCrash => RelayCovers(h, s, id);
      case WorkerProcess(_) => ProcessCovers(h, s, id);
      case _ => WorkerCovers(h, s, id);
    }
  }

  lemma {:induction false} RunKeepsCover(run: seq<Hub>, steps: seq<Step>, i: nat)
    requires IsRun(run, steps) && Provisioned(run[0]) && i < |run|
    ensures CoverOk(run[i])
  {
    if i > 0 {
      RunKeepsCover(run, steps, i - 1);
      assert run[i - 1 + 1] == Apply(run[i - 1], steps[i - 1]);
      StepKeepsCover(run[i - 1], steps[i - 1]);
    }
  }

  lemma CoveredIsWaiting(h: Hub)
    requires AllCovered(h)
    ensures NoneLost(h)
  {
    forall id | id in h.tables.deliveries && IsOpen(h.tables.deliveries[id].status)
      ensures RowWaiting(h, id) || RecordWaiting(h, id)
    {
      assert Covered(h, id);
    }
  }

  /** No delivery is ever lost: in every state of every run from a provisioned start, every committed
      PENDING, RETRYING or REPLAYING delivery has an unpublished outbox row or a Kafka record at or
      above the offset from which a restarted worker would read. */
  lemma NoDeliveryLost(run: seq<Hub>, steps: seq<Step>, i: nat)
    requires IsRun(run, steps) && Provisioned(run[0]) && i < |run|
    ensures NoneLost(run[i])
  {
    RunKeepsCover(run, steps, i);
    CoveredIsWaiting(run[i]);
  }
}
