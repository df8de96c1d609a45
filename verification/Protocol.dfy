/** The delivery protocol as a transition system: PostgreSQL tables, Kafka logs with committed
    offsets, the outbox relay and one sequential worker, each of which may crash between its steps. */
module Protocol {
  import opened Wrappers
  import opened Status
  import opened Outcomes
  import opened Tables
  import opened Outbox
  import opened Replays
  import opened Processor
  import opened Lifecycle

  datatype Partition = Partition(topic: Topic, index: nat)

  datatype Record = Record(delivery: DeliveryId, scheduledAt: real)

  /** Where a consumer group without a committed offset begins to read a partition. */
  datatype OffsetReset = Earliest | Latest

  /** What the worker is doing with the record at `offset` of `part`. */
  datatype Task =
    | Idle
    | Reading(part: Partition, offset: nat)
    | Publishing(part: Partition, offset: nat, retry: Retry)
    | Acking(part: Partition, offset: nat)

  datatype Worker = Down | Up(position: map<Partition, nat>, task: Task)

  /** `sent` holds the outbox rows whose send the relay's open transaction saw acknowledged, `posts` every
      POST made. `settings` is the worker's configuration, one value for the whole deployment. */
  datatype Hub = Hub(
    settings: Settings,
    tables: Tables,
    logs: map<Partition, seq<Record>>,
    committed: map<Partition, nat>,
    reset: OffsetReset,
    worker: Worker,
    sent: set<nat>,
    posts: seq<DeliveryId>)

  datatype Step =
    | Enqueue(news: seq<NewRow>)
    | ReplayDelivery(id: DeliveryId, resetCounter: bool)
    | RelaySend(row: nat, part: Partition, at: real, acked: bool)
    | RelayCommit
    | RelayCrash
    | WorkerStart
    | WorkerTake(part: Partition)
    | WorkerProcess(env: Environment)
    | WorkerPublish(index: nat)
    | WorkerAck
    | WorkerCrash
    | WorkerCrashBeforeCommit(env: Environment)

  ghost predicate Init(h: Hub) {
    && h.tables == EMPTY && h.worker == Down && h.sent == {} && h.posts == []
    && h.committed.Keys <= h.logs.Keys
    && (forall p :: p in h.logs ==> h.logs[p] == [])
    && (forall p :: p in h.committed ==> h.committed[p] == 0)
  }

  /** Where a worker that starts now would begin to read partition `p`. */
  function ResumeAt(h: Hub, p: Partition): nat
    requires p in h.logs
  {
    if p in h.committed then h.committed[p]
    else if h.reset == Earliest then 0 else |h.logs[p]|
  }

  function Append(h: Hub, p: Partition, r: Record): Hub
    requires p in h.logs
  {
    h.(logs := h.logs[p := h.logs[p] + [r]])
  }

  /** The worker holds a record whose time has come. */
  predicate CanProcess(h: Hub, env: Environment) {
    && h.worker.Up? && h.worker.task.Reading?
    && h.tables.deliveries.Keys <= h.tables.attempts.Keys
    && var t := h.worker.task;
       && t.part in h.logs && t.offset < |h.logs[t.part]|
       && (t.part.topic != OutboundPending ==> h.logs[t.part][t.offset].scheduledAt <= env.now)
  }

  predicate Enabled(h: Hub, s: Step) {
    match s
    case Enqueue(news) =>
      Persist(h.tables, news, Ids(news)).Persisted? && forall i :: 0 <= i < |news| ==> IsNew(news[i].1)
    case ReplayDelivery(id, _) => Replayable(h.tables, id)
    case RelaySend(row, part, _, _) =>
      && row < |h.tables.outbox| && !h.tables.outbox[row].published && row !in h.sent
      && part in h.logs && part.topic == OutboundPending
    case RelayCommit => true
    case RelayCrash => true
    case WorkerStart => h.worker.Down?
    case WorkerTake(part) =>
      && h.worker.Up? && h.worker.task.Idle?
      && part in h.logs && part in h.worker.position && h.worker.position[part] < |h.logs[part]|
    case WorkerProcess(env) => CanProcess(h, env)
    case WorkerPublish(index) =>
      h.worker.Up? && h.worker.task.Publishing? && Partition(h.worker.task.retry.topic, index) in h.logs
    case WorkerAck => h.worker.Up? && h.worker.task.Acking?
    case WorkerCrash => h.worker.Up?
    case WorkerCrashBeforeCommit(env) => CanProcess(h, env)
  }

  /** The relay's commit marks the rows it sent. */
  function MarkSent(outbox: seq<OutboxRow>, sent: set<nat>): seq<OutboxRow> {
    seq(|outbox|, i requires 0 <= i < |outbox| =>
      if i in sent then outbox[i].(published := true) else outbox[i])
  }

  /** The worker's transaction on the record it reads; an aborted commit ends the process. */
  function ProcessStep(h: Hub, env: Environment): Hub
    requires h.worker.Up? && h.worker.task.Reading?
    requires h.tables.deliveries.Keys <= h.tables.attempts.Keys
    requires h.worker.task.part in h.logs && h.worker.task.offset < |h.logs[h.worker.task.part]|
  {
    var t := h.worker.task;
    var id := h.logs[t.part][t.offset].delivery;
    match Process(h.tables, id, h.settings, env)
    case Skipped => h.(worker := h.worker.(task := Acking(t.part, t.offset)))
    case Aborted(posted) => h.(worker := Down, posts := h.posts + if posted then [id] else [])
    case Committed(tables, _, posted, retry) =>
      h.(tables := tables,
         posts := h.posts + (if posted then [id] else []),
         worker := h.worker.(task :=
           if retry.Some? then Publishing(t.part, t.offset, retry.value) else Acking(t.part, t.offset)))
  }

  function Apply(h: Hub, s: Step): Hub
    requires Enabled(h, s)
  {
    match s
    case Enqueue(news) => h.(tables := Persist(h.tables, news, Ids(news)).tables)
    case ReplayDelivery(id, r) => h.(tables := Replay(h.tables, id, r).value)
    case RelaySend(row, part, at, acked) =>
      Append(h, part, Record(h.tables.outbox[row].envelope, at)).(sent := if acked then h.sent + {row} else h.sent)
    case RelayCommit => h.(tables := h.tables.(outbox := MarkSent(h.tables.outbox, h.sent)), sent := {})
    case RelayCrash => h.(sent := {})
    case WorkerStart => h.(worker := Up(map p | p in h.logs :: ResumeAt(h, p), Idle))
    case WorkerTake(part) => h.(worker := h.worker.(task := Reading(part, h.worker.position[part])))
    case WorkerProcess(env) => ProcessStep(h, env)
    case WorkerPublish(index) =>
      var t := h.worker.task;
      Append(h, Partition(t.retry.topic, index), Record(t.retry.delivery, t.retry.scheduledAt))
      .(worker := h.worker.(task := Acking(t.part, t.offset)))
    case WorkerAck =>
      var t := h.worker.task;
      h.(committed := h.committed[t.part := t.offset + 1],
         worker := Up(h.worker.position[t.part := t.offset + 1], Idle))
    case WorkerCrash => h.(worker := Down)
    case WorkerCrashBeforeCommit(env) => h.(posts := ProcessStep(h, env).posts, worker := Down)
  }

  /** A run: any interleaving of enabled steps from an initial state. */
  ghost predicate IsRun(run: seq<Hub>, steps: seq<Step>) {
    && |run| == |steps| + 1
    && Init(run[0])
    && forall i {:trigger steps[i]} :: 0 <= i < |steps| ==>
         Enabled(run[i], steps[i]) && run[i + 1] == Apply(run[i], steps[i])
  }

  /** The state after the steps, if each of them is enabled in its turn. */
  function After(h: Hub, steps: seq<Step>): Option<Hub> {
    if steps == [] then Some(h)
    else
      var n := |steps| - 1;
      match After(h, steps[..n])
      case None => None
      case Some(mid) => if Enabled(mid, steps[n]) then Some(Apply(mid, steps[n])) else None
  }

  /** The topics the settings send records to. The processor's retry delays reach every tier but the one
      minute tier, which needs the second delay, nine tenths of the capped product, to fall in its range. */
  predicate UsesTopic(cfg: Settings, topic: Topic) {
    var product := cfg.backoffBase * cfg.backoffMultiplier;
    var second := 0.9 * (if product <= cfg.backoffMax then product else cfg.backoffMax) as real;
    topic == Retry1m ==> 45.0 < second <= 90.0
  }

  /** Records can reach the partition: there is a pending partition to begin with, and its topic is used. */
  predicate Fed(h: Hub, p: Partition) {
    UsesTopic(h.settings, p.topic) && exists q :: q in h.logs && q.topic == OutboundPending
  }

  /** Every partition that records can reach has a committed offset, or unread partitions are read from
      the start. */
  predicate Provisioned(h: Hub) {
    h.reset == Earliest || forall p :: p in h.logs && Fed(h, p) ==> p in h.committed
  }

  /** The delivery still has work ahead: an outbox row the relay will send, ... */
  ghost predicate RowWaiting(h: Hub, id: DeliveryId) {
    exists i :: 0 <= i < |h.tables.outbox| && h.tables.outbox[i].envelope == id && !h.tables.outbox[i].published
  }

  /** ... or a record that a worker starting now would still read. */
  ghost predicate RecordWaiting(h: Hub, id: DeliveryId) {
    exists p, o :: p in h.logs && ResumeAt(h, p) <= o < |h.logs[p]| && h.logs[p][o].delivery == id
  }

  ghost predicate NoneLost(h: Hub) {
    forall id :: id in h.tables.deliveries && IsOpen(h.tables.deliveries[id].status) ==>
      RowWaiting(h, id) || RecordWaiting(h, id)
  }
}
