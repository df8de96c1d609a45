/** Continuing from any state: what every sequence of enabled steps keeps. */
module Continuations {
  import opened Wrappers
  import opened Tables
  import opened Outbox
  import opened Processor
  import opened Protocol
  import opened ProtocolSafety
  import opened NoLoss

  lemma AfterOneMore(h: Hub, steps: seq<Step>, mid: Hub, s: Step)
    requires After(h, steps) == Some(mid) && Enabled(mid, s)
    ensures After(h, steps + [s]) == Some(Apply(mid, s))
  {
    assert (steps + [s])[..|steps|] == steps;
  }

  lemma {:induction false} AfterKeepsHub(h: Hub, steps: seq<Step>, h': Hub)
    requires HubOk(h) && After(h, steps) == Some(h')
    ensures HubOk(h')
  {
    if steps != [] {
      var n := |steps| - 1;
      var mid := After(h, steps[..n]).value;
      AfterKeepsHub(h, steps[..n], mid);
      StepKeepsHub(mid, steps[n]);
    }
  }

  lemma {:induction false} AfterKeepsCover(h: Hub, steps: seq<Step>, h': Hub)
    requires CoverOk(h) && After(h, steps) == Some(h')
    ensures CoverOk(h') && h'.logs.Keys == h.logs.Keys && h'.settings == h.settings
  {
    if steps != [] {
      var n := |steps| - 1;
      var mid := After(h, steps[..n]).value;
      AfterKeepsCover(h, steps[..n], mid);
      StepKeepsCover(mid, steps[n]);
      StepKeepsPartitions(mid, steps[n]);
    }
  }

  lemma AfterLast(h: Hub, a: seq<Step>, s: Step)
    ensures After(h, a + [s]) ==
      match After(h, a)
      case None => None
      case Some(mid) => if Enabled(mid, s) then Some(Apply(mid, s)) else None
  {
    assert (a + [s])[..|a|] == a;
  }

  lemma {:induction false} AfterJoins(h: Hub, a: seq<Step>, mid: Hub, b: seq<Step>)
    requires After(h, a) == Some(mid)
    ensures After(h, a + b) == After(mid, b)
  {
    if b == [] {
      assert a + b == a;
    } else {
      var front, last := b[..|b| - 1], b[|b| - 1];
      AfterJoins(h, a, mid, front);
      AfterLast(h, a + front, last);
      AfterLast(mid, front, last);
      assert front + [last] == b && (a + front) + [last] == a + b;
    }
  }

  // ---------------------------------------------------------------- permanent loss

  /** Every record naming the delivery lies below where a restarted worker would resume, and below where a
      running one is. */
  ghost predicate RecordsPassed(h: Hub, id: DeliveryId) {
    forall p, o :: p in h.logs && 0 <= o < |h.logs[p]| && h.logs[p][o].delivery == id ==>
      o < ResumeAt(h, p) && (h.worker.Up? && p in h.worker.position ==> o < h.worker.position[p])
  }

  /** The delivery is open, but nothing is left that would process it. */
  ghost predicate Gone(h: Hub, id: DeliveryId) {
    && Open(h, id)
    && (forall i :: 0 <= i < |h.tables.outbox| && h.tables.outbox[i].envelope == id ==> h.tables.outbox[i].published)
    && RecordsPassed(h, id)
  }

  lemma GoneIsNotWaiting(h: Hub, id: DeliveryId)
    requires Gone(h, id)
    ensures !NoneLost(h)
  {
    assert !RowWaiting(h, id) && !RecordWaiting(h, id);
  }

  /** The worker is not working on a delivery that is gone. */
  lemma GoneIsNotInHand(h: Hub, id: DeliveryId)
    requires HubOk(h) && Gone(h, id) && h.worker.Up? && !h.worker.task.Idle?
    ensures h.logs[h.worker.task.part][h.worker.task.offset].delivery != id
  {
  }

  lemma AppendKeepsPassed(h: Hub, p: Partition, r: Record, id: DeliveryId)
    requires WorkerOk(h) && RecordsPassed(h, id) && p in h.logs && r.delivery != id
    ensures RecordsPassed(Append(h, p, r), id)
  {
  }

  lemma StepKeepsPassed(h: Hub, s: Step, id: DeliveryId)
    requires HubOk(h) && Gone(h, id) && Enabled(h, s)
    ensures RecordsPassed(Apply(h, s), id)
  {
    match s
    case RelaySend(row, part, at, _) => AppendKeepsPassed(h, part, Record(h.tables.outbox[row].envelope, at), id);
    case WorkerPublish(index) =>
      GoneIsNotInHand(h, id);
      var r := h.worker.task.retry;
      AppendKeepsPassed(h, Partition(r.topic, index), Record(r.delivery, r.scheduledAt), id);
    case WorkerStart => WorkerMoveKeepsPassed(h, s, id);
    case WorkerAck => WorkerMoveKeepsPassed(h, s, id);
    case WorkerProcess(env) => ProcessKeepsPassed(h, env, id);
    case _ =>
  }

  lemma ProcessKeepsPassed(h: Hub, env: Environment, id: DeliveryId)
    requires RecordsPassed(h, id) && Enabled(h, WorkerProcess(env))
    ensures RecordsPassed(ProcessStep(h, env), id)
  {
  }

  lemma WorkerMoveKeepsPassed(h: Hub, s: Step, id: DeliveryId)
    requires WorkerOk(h) && RecordsPassed(h, id) && (s.WorkerStart? || s.WorkerAck?) && Enabled(h, s)
    ensures RecordsPassed(Apply(h, s), id)
  {
  }

  /** What the worker does in one transaction leaves other deliveries and the outbox alone. */
  lemma ProcessPasses(h: Hub, env: Environment, id: DeliveryId)
    requires HubOk(h) && Enabled(h, WorkerProcess(env)) && id in h.tables.deliveries
    requires h.logs[h.worker.task.part][h.worker.task.offset].delivery != id
    ensures var h' := ProcessStep(h, env);
      && id in h'.tables.deliveries && h'.tables.deliveries[id] == h.tables.deliveries[id]
      && h'.tables.outbox == h.tables.outbox
      && Count(h'.posts, id) == Count(h.posts, id)
  {
    var x := h.logs[h.worker.task.part][h.worker.task.offset].delivery;
    ProcessFrame(h.tables, x, h.settings, env);
    assert (h.posts + [x])[..|h.posts|] == h.posts;
    assert h.posts + [] == h.posts;
  }

  lemma StepKeepsGoneRows(h: Hub, s: Step, id: DeliveryId)
    requires HubOk(h) && Gone(h, id) && Enabled(h, s)
    ensures var h' := Apply(h, s);
      && id in h'.tables.deliveries && h'.tables.deliveries[id] == h.tables.deliveries[id]
      && (forall i :: 0 <= i < |h'.tables.outbox| && h'.tables.outbox[i].envelope == id ==>
            h'.tables.outbox[i].published)
      && Count(h'.posts, id) == Count(h.posts, id)
  {
    match s
    case Enqueue(news) => EnqueueKeepsGoneRows(h, news, id);
    case WorkerProcess(env) =>
      GoneIsNotInHand(h, id);
      ProcessPasses(h, env, id);
    case WorkerCrashBeforeCommit(env) =>
      GoneIsNotInHand(h, id);
      ProcessPasses(h, env, id);
    case _ =>
  }

  lemma EnqueueKeepsGoneRows(h: Hub, news: seq<NewRow>, id: DeliveryId)
    requires HubOk(h) && Gone(h, id) && Enabled(h, Enqueue(news))
    ensures var t' := Apply(h, Enqueue(news)).tables;
      && id in t'.deliveries && t'.deliveries[id] == h.tables.deliveries[id]
      && (forall i :: 0 <= i < |t'.outbox| && t'.outbox[i].envelope == id ==> t'.outbox[i].published)
  {
    var t' := Apply(h, Enqueue(news)).tables;
    PersistAddsExactly(h.tables, news, Ids(news));
    forall i | |h.tables.outbox| <= i < |t'.outbox|
      ensures t'.outbox[i].envelope != id
    {
      var k := i - |h.tables.outbox|;
      assert t'.outbox[|h.tables.outbox| + k] == OutboxRow(news[k].0, Ids(news)[k], false, 0);
    }
  }

  lemma StepKeepsGone(h: Hub, s: Step, id: DeliveryId)
    requires HubOk(h) && Gone(h, id) && Enabled(h, s)
    ensures Gone(Apply(h, s), id)
    ensures Apply(h, s).tables.deliveries[id] == h.tables.deliveries[id]
    ensures Count(Apply(h, s).posts, id) == Count(h.posts, id)
  {
    StepKeepsPassed(h, s, id);
    StepKeepsGoneRows(h, s, id);
  }

  /** Gone is for ever: whatever happens next, the delivery is never processed, changed or POSTed again. */
  lemma {:induction false} GoneIsForever(h: Hub, steps: seq<Step>, h': Hub, id: DeliveryId)
    requires HubOk(h) && Gone(h, id) && After(h, steps) == Some(h')
    ensures Gone(h', id) && h'.tables.deliveries[id] == h.tables.deliveries[id]
    ensures Count(h'.posts, id) == Count(h.posts, id)
  {
    if steps != [] {
      var n := |steps| - 1;
      var mid := After(h, steps[..n]).value;
      AfterKeepsHub(h, steps[..n], mid);
      GoneIsForever(h, steps[..n], mid, id);
      StepKeepsGone(mid, steps[n], id);
    }
  }
}
