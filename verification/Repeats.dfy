/** Repeated requests over whole runs: enqueue idempotency in every state the protocol reaches. */
module Repeats {
  import opened Text
  import opened Tables
  import opened Outbox
  import opened Lifecycle
  import opened AcceptCache
  import opened Enqueue
  import opened Protocol
  import opened ProtocolSafety
  import opened History

  predicate KeyDerived(d: Delivery) {
    d.idempotencyKey == DerivedKey(d.sourceEventId, d.endpoint)
  }

  /** Every enqueue of the run carries keys as the accept path derives them. */
  ghost predicate EnqueuesDerived(steps: seq<Protocol.Step>) {
    forall i, k :: 0 <= i < |steps| && steps[i].Enqueue? && 0 <= k < |steps[i].news| ==> KeyDerived(steps[i].news[k].1)
  }

  lemma StepKeepsKeys(h: Hub, s: Protocol.Step)
    requires HubOk(h) && Enabled(h, s) && KeysDerived(h.tables)
    requires s.Enqueue? ==> forall k :: 0 <= k < |s.news| ==> KeyDerived(s.news[k].1)
    ensures KeysDerived(Apply(h, s).tables)
  {
    var t, t' := h.tables, Apply(h, s).tables;
    forall id | id in t'.deliveries
      ensures KeyDerived(t'.deliveries[id])
    {
      if id in t.deliveries {
        StepKeepsIdentity(h, s, id);
      } else {
        NewKeyDerived(h, s, id);
      }
    }
  }

  /** Only an enqueue adds deliveries. */
  lemma NewKeyDerived(h: Hub, s: Protocol.Step, id: DeliveryId)
    requires HubOk(h) && Enabled(h, s) && id !in h.tables.deliveries && id in Apply(h, s).tables.deliveries
    requires s.Enqueue? ==> forall k :: 0 <= k < |s.news| ==> KeyDerived(s.news[k].1)
    ensures KeyDerived(Apply(h, s).tables.deliveries[id])
  {
    if s.Enqueue? {
      PersistAddsExactly(h.tables, s.news, Ids(s.news));
    } else if s.WorkerProcess? {
      var x := h.logs[h.worker.task.part][h.worker.task.offset].delivery;
      if Processor.Process(h.tables, x, h.settings, s.env).Committed? {
        var u := ProcessShape(h.tables, x, h.settings, s.env);
      }
    }
  }

  /** Worker commits, replays and crashes never separate a delivery from its derived key. */
  lemma {:induction false} RunKeepsKeys(run: seq<Hub>, steps: seq<Protocol.Step>, i: nat)
    requires IsRun(run, steps) && EnqueuesDerived(steps) && i < |run|
    ensures KeysDerived(run[i].tables)
  {
    if i > 0 {
      RunKeepsKeys(run, steps, i - 1);
      RunStep(run, steps, i - 1);
      StepKeepsKeys(run[i - 1], steps[i - 1]);
    }
  }

  /** An accepted fan-out is one enabled enqueue step of the protocol, with derived keys. */
  lemma AcceptIsStep(h: Hub, p: Partner, es: seq<Endpoint>, req: Request, newIds: NewIds)
    requires HubOk(h) && KeysDerived(h.tables) && es != []
    requires IdsAreNew(h.tables, newIds, |es|) && DistinctEndpoints(es) && !AlreadySent(h.tables, p.id, req.key, es)
    ensures var s := Protocol.Enqueue(BuildAll(p, es, req, newIds));
      && Enabled(h, s) && Apply(h, s) == h.(tables := FanOut(h.tables, p, es, req, newIds).0)
      && forall k :: 0 <= k < |s.news| ==> KeyDerived(s.news[k].1)
  {
    ConflictIffAlreadySent(h.tables, p, es, req, newIds);
    var news := BuildAll(p, es, req, newIds);
    forall k | 0 <= k < |news|
      ensures KeyDerived(news[k].1) && IsNew(news[k].1)
    {
      BuiltRow(p, es, req, newIds, k);
    }
  }

  /** Two endpoint lists have an endpoint in common. */
  ghost predicate Meets(a: seq<Endpoint>, b: seq<Endpoint>) {
    exists i, j :: 0 <= i < |a| && 0 <= j < |b| && a[i].id == b[j].id
  }

  lemma AcceptedNow(h: Hub, p: Partner, es: seq<Endpoint>, req: Request, newIds: NewIds, k: nat)
    requires HubOk(h) && k < |es|
    requires Enabled(h, Protocol.Enqueue(BuildAll(p, es, req, newIds)))
    ensures var t := Apply(h, Protocol.Enqueue(BuildAll(p, es, req, newIds))).tables;
      newIds(k) in t.deliveries && t.deliveries[newIds(k)] == BuildPending(p, es[k], req)
  {
    var news := BuildAll(p, es, req, newIds);
    BuiltRow(p, es, req, newIds, k);
    PersistAddsExactly(h.tables, news, Ids(news));
    AddedRowIs(h.tables, Apply(h, Protocol.Enqueue(news)).tables, news, k);
  }

  /** The deliveries of a request accepted at state `i` are found under its key in every later state. */
  lemma AcceptedStays(run: seq<Hub>, steps: seq<Protocol.Step>, i: nat, j: nat, p: Partner, es: seq<Endpoint>,
                      req: Request, newIds: NewIds, k: nat)
    requires IsRun(run, steps) && i < j < |run| && k < |es|
    requires steps[i] == Protocol.Enqueue(BuildAll(p, es, req, newIds))
    ensures newIds(k) in BySource(run[j].tables, p.id, req.key)
    ensures run[j].tables.deliveries[newIds(k)].endpoint == es[k].id
  {
    RunStep(run, steps, i);
    AcceptedNow(run[i], p, es, req, newIds, k);
    IdentityNeverChanges(run, steps, i + 1, j, newIds(k));
  }

  /** Idempotency over runs. A request accepted at state `i`, repeated with the same client key at any
      later state `j`, whatever was enqueued, delivered, replayed or lost to crashes in between: if its
      endpoints now meet the endpoints then, it adds nothing, and the answer is exactly the deliveries with
      that source key, among them every delivery of the first request. */
  lemma RepeatIsDuplicate(run: seq<Hub>, steps: seq<Protocol.Step>, i: nat, j: nat, p: Partner, es: seq<Endpoint>,
                          req: Request, first: NewIds, p': Partner, es': seq<Endpoint>, req': Request, again: NewIds)
    requires IsRun(run, steps) && EnqueuesDerived(steps) && i < j < |run|
    requires steps[i] == Protocol.Enqueue(BuildAll(p, es, req, first))
    requires p'.id == p.id && req'.key == req.key && Meets(es, es')
    requires IdsAreNew(run[j].tables, again, |es'|) && DistinctEndpoints(es')
    ensures es' != []
    ensures var (t, r) := FanOut(run[j].tables, p', es', req', again);
      && t == run[j].tables && r == Duplicate(BySource(run[j].tables, p.id, req.key))
      && forall k :: 0 <= k < |es| ==> first(k) in r.existing
  {
    RunKeepsKeys(run, steps, j);
    RunKeepsHub(run, steps, j);
    forall k | 0 <= k < |es|
      ensures first(k) in BySource(run[j].tables, p.id, req.key)
      ensures run[j].tables.deliveries[first(k)].endpoint == es[k].id
    {
      AcceptedStays(run, steps, i, j, p, es, req, first, k);
    }
    var a, b :| 0 <= a < |es| && 0 <= b < |es'| && es[a].id == es'[b].id;
    assert AlreadySent(run[j].tables, p'.id, req'.key, es') by {
      assert first(a) in BySource(run[j].tables, p'.id, req'.key);
    }
    FanOutIsIdempotent(run[j].tables, p', es', req', again);
  }
}
