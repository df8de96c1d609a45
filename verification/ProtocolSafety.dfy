/** What every reachable state of the protocol keeps. */
module ProtocolSafety {
  import opened Tables
  import opened Outbox
  import opened Processor
  import opened Lifecycle
  import opened Protocol

  /** Logs name existing deliveries, offsets stay within them, and the relay's sent rows exist. */
  ghost predicate LogsOk(h: Hub) {
    && h.committed.Keys <= h.logs.Keys
    && (forall p :: p in h.committed ==> h.committed[p] <= |h.logs[p]|)
    && (forall p, o :: p in h.logs && 0 <= o < |h.logs[p]| ==> h.logs[p][o].delivery in h.tables.deliveries)
    && (forall i :: i in h.sent ==> i < |h.tables.outbox|)
  }

  /** The worker's position is inside the log and its record is the one at that position. */
  ghost predicate WorkerOk(h: Hub) {
    h.worker.Up? ==>
      && h.worker.position.Keys == h.logs.Keys
      && (forall p :: p in h.logs ==> h.worker.position[p] <= |h.logs[p]|)
      && (!h.worker.task.Idle? ==>
            var t := h.worker.task;
            t.part in h.logs && t.offset == h.worker.position[t.part] < |h.logs[t.part]|)
      && (h.worker.task.Publishing? ==>
            h.worker.task.retry.delivery == h.logs[h.worker.task.part][h.worker.task.offset].delivery)
  }

  /** The invariant of every run, provisioned or not. */
  ghost predicate HubOk(h: Hub) {
    TablesOk(h.tables) && LogsOk(h) && WorkerOk(h)
  }

  lemma MarkSentKeepsTables(t: Tables, sent: set<nat>)
    requires TablesOk(t)
    ensures TablesOk(t.(outbox := MarkSent(t.outbox, sent)))
  {
    var t' := t.(outbox := MarkSent(t.outbox, sent));
    forall id | id in t'.deliveries
      ensures DeliveryOk(t', id)
    {
      MarkSentKeepsDelivery(t, sent, id);
    }
  }

  lemma MarkSentKeepsDelivery(t: Tables, sent: set<nat>, id: DeliveryId)
    requires TablesOk(t) && id in t.deliveries
    ensures DeliveryOk(t.(outbox := MarkSent(t.outbox, sent)), id)
  {
    assert DeliveryOk(t, id);
    RowsSameIds(t.outbox, MarkSent(t.outbox, sent), id);
  }

  lemma StepKeepsTables(h: Hub, s: Step)
    requires TablesOk(h.tables) && Enabled(h, s)
    ensures TablesOk(Apply(h, s).tables)
  {
    match s
    case Enqueue(news) => PersistKeepsTables(h.tables, news);
    case ReplayDelivery(id, r) => ReplayKeepsTables(h.tables, id, r);
    case RelayCommit => MarkSentKeepsTables(h.tables, h.sent);
    case WorkerProcess(env) =>
      var t := h.worker.task;
      var id := h.logs[t.part][t.offset].delivery;
      if Process(h.tables, id, h.settings, env).Committed? {
        ProcessKeepsTables(h.tables, id, h.settings, env);
      }
    case _ =>
  }

  /** No step removes a delivery or an outbox row. */
  lemma StepGrows(h: Hub, s: Step)
    requires TablesOk(h.tables) && Enabled(h, s)
    ensures h.tables.deliveries.Keys <= Apply(h, s).tables.deliveries.Keys
    ensures |h.tables.outbox| <= |Apply(h, s).tables.outbox|
  {
    match s
    case Enqueue(news) => PersistAddsExactly(h.tables, news, Ids(news));
    case _ =>
  }

  lemma StepKeepsLogs(h: Hub, s: Step)
    requires HubOk(h) && Enabled(h, s)
    ensures LogsOk(Apply(h, s)) && WorkerOk(Apply(h, s))
  {
    match s
    case WorkerProcess(env) =>
      StepGrows(h, s);
      ProcessKeepsWorker(h, env);
    case RelaySend(row, part, at, _) => AppendKeepsLogs(h, part, Record(h.tables.outbox[row].envelope, at));
    case WorkerPublish(index) =>
      var r := h.worker.task.retry;
      AppendKeepsLogs(h, Partition(r.topic, index), Record(r.delivery, r.scheduledAt));
    case Enqueue(_) => TableStepKeepsLogs(h, s);
    case ReplayDelivery(_, _) => TableStepKeepsLogs(h, s);
    case RelayCommit => TableStepKeepsLogs(h, s);
    case RelayCrash =>
    case _ => WorkerStepKeepsLogs(h, s);
  }

  lemma TableStepKeepsLogs(h: Hub, s: Step)
    requires HubOk(h) && Enabled(h, s) && (s.Enqueue? || s.ReplayDelivery? || s.RelayCommit?)
    ensures LogsOk(Apply(h, s)) && WorkerOk(Apply(h, s))
  {
    StepGrows(h, s);
  }

  lemma WorkerStepKeepsLogs(h: Hub, s: Step)
    requires LogsOk(h) && WorkerOk(h) && Enabled(h, s)
    requires s.WorkerStart? || s.WorkerTake? || s.WorkerAck? || s.WorkerCrash? || s.WorkerCrashBeforeCommit?
    ensures LogsOk(Apply(h, s)) && WorkerOk(Apply(h, s))
  {
  }

  lemma AppendKeepsLogs(h: Hub, p: Partition, r: Record)
    requires LogsOk(h) && WorkerOk(h) && p in h.logs && r.delivery in h.tables.deliveries
    ensures LogsOk(Append(h, p, r)) && WorkerOk(Append(h, p, r))
  {
    var h' := Append(h, p, r);
    forall q, o | q in h'.logs && 0 <= o < |h'.logs[q]|
      ensures h'.logs[q][o].delivery in h'.tables.deliveries
    {
      assert q != p || o < |h.logs[p]| ==> h'.logs[q][o] == h.logs[q][o];
    }
  }

  lemma ProcessKeepsWorker(h: Hub, env: Environment)
    requires HubOk(h) && Enabled(h, WorkerProcess(env))
    ensures WorkerOk(ProcessStep(h, env))
  {
    var t := h.worker.task;
    ProcessRetry(h.tables, h.logs[t.part][t.offset].delivery, h.settings, env);
  }

  lemma StepKeepsHub(h: Hub, s: Step)
    requires HubOk(h) && Enabled(h, s)
    ensures HubOk(Apply(h, s))
  {
    StepKeepsTables(h, s);
    StepKeepsLogs(h, s);
  }

  lemma {:induction false} RunKeepsHub(run: seq<Hub>, steps: seq<Step>, i: nat)
    requires IsRun(run, steps) && i < |run|
    ensures HubOk(run[i])
  {
    if i > 0 {
      RunKeepsHub(run, steps, i - 1);
      assert run[i - 1 + 1] == Apply(run[i - 1], steps[i - 1]);
      StepKeepsHub(run[i - 1], steps[i - 1]);
    }
  }

  /** Every committed state of every run satisfies the table invariant: attempt rows 1..n with the
      counter at most n, DELIVERING never committed, SLA fields exact, outbox rows and dead letters
      conserved, and no delivery replayed twice. */
  lemma CommittedStatesOk(run: seq<Hub>, steps: seq<Step>, i: nat, id: DeliveryId)
    requires IsRun(run, steps) && i < |run| && id in run[i].tables.deliveries
    ensures id in run[i].tables.attempts && DeliveryOk(run[i].tables, id)
  {
    RunKeepsHub(run, steps, i);
  }
}
