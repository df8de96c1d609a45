/** Accepting an outbound event (app/domain/services/outbound_enqueue.py and delivery_service.py), with
    and without the accept-path cache. */
module Enqueue {
  import opened Wrappers
  import opened Text
  import opened Status
  import opened Tables
  import opened Outbox
  import opened Lifecycle
  import opened AcceptCache

  datatype Request = Request(partnerId: Uuid, eventType: string, payload: string, key: string, now: real)

  /** JSON Schema validation of a payload stays abstract. */
  type Validator = (Schema, string) -> bool

  /** Newly generated public ids, by position. */
  type NewIds = nat -> DeliveryId

  datatype Response =
    | Accepted(ids: seq<DeliveryId>)
    | Duplicate(existing: set<DeliveryId>)
    | PartnerNotFound
    | PartnerInactive
    | SchemaValidationFailed
    | NoActiveEndpoint
    | IdempotencyConflict

  /** `validate_payload`: without an active schema for the event type every payload passes. */
  predicate PayloadOk(valid: Validator, schema: Option<Schema>, eventType: string, payload: string) {
    schema.None? || !schema.value.active || schema.value.eventType != eventType || valid(schema.value, payload)
  }

  /** `build_pending_delivery` with `compute_sla_deadline`. */
  function BuildPending(p: Partner, e: Endpoint, req: Request): Delivery {
    var seconds := if e.slaSeconds.Some? then e.slaSeconds.value else p.slaSeconds;
    Delivery(p.id, e.id, DerivedKey(req.key, e.id), req.key, PENDING, 0, e.maxAttempts, None, None,
             req.now + seconds as real, false)
  }

  function BuildAll(p: Partner, es: seq<Endpoint>, req: Request, newIds: NewIds): seq<NewRow> {
    seq(|es|, i requires 0 <= i < |es| => (newIds(i), BuildPending(p, es[i], req)))
  }

  lemma BuiltRow(p: Partner, es: seq<Endpoint>, req: Request, newIds: NewIds, i: nat)
    requires i < |es|
    ensures |BuildAll(p, es, req, newIds)| == |es|
    ensures BuildAll(p, es, req, newIds)[i] == (newIds(i), BuildPending(p, es[i], req))
    ensures IsNew(BuildPending(p, es[i], req))
  {
    var r := BuildAll(p, es, req, newIds);
    assert r[i].0 == newIds(i) && r[i].1 == BuildPending(p, es[i], req);
  }

  /** `fetch_deliveries_by_source_event_id`. */
  function BySource(t: Tables, partner: int, source: string): set<DeliveryId> {
    set id | id in t.deliveries && t.deliveries[id].partner == partner && t.deliveries[id].sourceEventId == source
  }

  /** `fetch_delivery_by_idempotency`. */
  function ByKey(t: Tables, partner: int, key: string): set<DeliveryId> {
    set id | id in t.deliveries && t.deliveries[id].partner == partner && t.deliveries[id].idempotencyKey == key
  }

  /** Everything after the lookups: fan-out, one persist statement, and the conflict handling. */
  function FanOut(t: Tables, p: Partner, es: seq<Endpoint>, req: Request, newIds: NewIds): (Tables, Response)
    requires es != []
  {
    var news := BuildAll(p, es, req, newIds);
    match Persist(t, news, Ids(news))
    case Persisted(t') => (t', Accepted(Ids(news)))
    case Refused(_) =>
      var raced := BySource(t, p.id, req.key);
      if raced != {} then (t, Duplicate(raced))
      else
        var conflicting := ByKey(t, p.id, DerivedKey(req.key, es[0].id));
        if conflicting == {} then (t, IdempotencyConflict) else (t, Duplicate(conflicting))
  }

  // ---------------------------------------------------------------- reading the database every time

  function DirectEnqueue(db: Admin, t: Tables, req: Request, newIds: NewIds, valid: Validator): (Tables, Response) {
    match FetchPartner(db, req.partnerId)
    case None => (t, PartnerNotFound)
    case Some(p) =>
      if p.status != ACTIVE then (t, PartnerInactive)
      else if !PayloadOk(valid, FetchSchema(db.schemas, req.eventType), req.eventType, req.payload) then
        (t, SchemaValidationFailed)
      else
        var es := FetchEndpoints(db.endpoints, p.id, req.eventType);
        if es == [] then (t, NoActiveEndpoint) else FanOut(t, p, es, req, newIds)
  }

  // ---------------------------------------------------------------- reading through the cache

  function LookupPartner(c: Cache, db: Admin, u: Uuid, clock: int): (Cache, Option<Partner>) {
    var (c1, hit) := Get(c, PartnerKey(u), clock);
    match hit
    case None =>
      var p := FetchPartner(db, u);
      (if p.Some? then Set(c1, PartnerKey(u), PartnerValue(CopyPartner(p.value)), clock) else c1, p)
    case Some(v) => (c1, if v.PartnerValue? then Some(v.partner) else None)
  }

  /** A cached value that is neither a schema nor the absence marker counts as no schema. */
  function LookupSchema(c: Cache, db: Admin, eventType: string, clock: int): (Cache, Option<Schema>) {
    var (c1, hit) := Get(c, SchemaKey(eventType), clock);
    match hit
    case None =>
      var s := FetchSchema(db.schemas, eventType);
      (Set(c1, SchemaKey(eventType), CacheSchemaValue(s), clock), s)
    case Some(v) => (c1, if v.SchemaValue? then Some(v.schema) else None)
  }

  function LookupEndpoints(c: Cache, db: Admin, partner: int, eventType: string, clock: int): (Cache, seq<Endpoint>) {
    var (c1, hit) := Get(c, EndpointsKey(partner, eventType), clock);
    match hit
    case None =>
      var es := FetchEndpoints(db.endpoints, partner, eventType);
      (Set(c1, EndpointsKey(partner, eventType), EndpointsValue(es), clock), es)
    case Some(v) => (c1, if v.EndpointsValue? then v.endpoints else [])
  }

  /** `enqueue_outbound_for_event`. */
  function CachedEnqueue(c: Cache, db: Admin, t: Tables, req: Request, clock: int, newIds: NewIds, valid: Validator)
    : (Cache, Tables, Response)
  {
    var (c1, found) := LookupPartner(c, db, req.partnerId, clock);
    match found
    case None => (c1, t, PartnerNotFound)
    case Some(p) =>
      if p.status != ACTIVE then (c1, t, PartnerInactive)
      else
        var (c2, schema) := LookupSchema(c1, db, req.eventType, clock);
        if !PayloadOk(valid, schema, req.eventType, req.payload) then (c2, t, SchemaValidationFailed)
        else
          var (c3, es) := LookupEndpoints(c2, db, p.id, req.eventType, clock);
          if es == [] then (c3, t, NoActiveEndpoint)
          else
            var (t', r) := FanOut(t, p, es, req, newIds);
            (c3, t', r)
  }

  class OutboundEnqueue {
    const cache: AcceptPathCache
    var db: Admin
    var tables: Tables

    constructor (db: Admin, tables: Tables)
      ensures cache.entries == map[] && fresh(cache) && this.db == db && this.tables == tables
    {
      cache := new AcceptPathCache();
      this.db, this.tables := db, tables;
    }

    method FindPartner(u: Uuid, clock: int) returns (r: Option<Partner>)
      modifies cache
      ensures (cache.entries, r) == LookupPartner(old(cache.entries), db, u, clock)
    {
      var hit := cache.CacheGet(PartnerKey(u), clock);
      if hit.Some? {
        return if hit.value.PartnerValue? then Some(hit.value.partner) else None;
      }
      r := FetchPartner(db, u);
      if r.Some? {
        cache.CacheSet(PartnerKey(u), PartnerValue(CopyPartner(r.value)), clock);
      }
    }

    method FindSchema(eventType: string, clock: int) returns (r: Option<Schema>)
      modifies cache
      ensures (cache.entries, r) == LookupSchema(old(cache.entries), db, eventType, clock)
    {
      var hit := cache.CacheGet(SchemaKey(eventType), clock);
      if hit.Some? {
        return if hit.value.SchemaValue? then Some(hit.value.schema) else None;
      }
      r := FetchSchema(db.schemas, eventType);
      cache.CacheSet(SchemaKey(eventType), CacheSchemaValue(r), clock);
    }

    method FindEndpoints(partner: int, eventType: string, clock: int) returns (r: seq<Endpoint>)
      modifies cache
      ensures (cache.entries, r) == LookupEndpoints(old(cache.entries), db, partner, eventType, clock)
    {
      var hit := cache.CacheGet(EndpointsKey(partner, eventType), clock);
      if hit.Some? {
        return if hit.value.EndpointsValue? then hit.value.endpoints else [];
      }
      r := FetchEndpoints(db.endpoints, partner, eventType);
      cache.CacheSet(EndpointsKey(partner, eventType), EndpointsValue(r), clock);
    }

    /** Builds the fan-out in a loop, persists it in one statement, and commits or rolls back. */
    method PersistFanOut(p: Partner, es: seq<Endpoint>, req: Request, newIds: NewIds) returns (r: Response)
      requires es != []
      modifies this`tables
      ensures (tables, r) == FanOut(old(tables), p, es, req, newIds)
    {
      var created: seq<NewRow> := [];
      for i := 0 to |es|
        invariant created == BuildAll(p, es, req, newIds)[..i]
      {
        created := created + [(newIds(i), BuildPending(p, es[i], req))];
      }
      assert created == BuildAll(p, es, req, newIds);
      var result := Persist(tables, created, Ids(created));
      if result.Persisted? {
        tables := result.tables;
        return Accepted(Ids(created));
      }
      var raced := BySource(tables, p.id, req.key);
      if raced != {} { return Duplicate(raced); }
      var conflicting := ByKey(tables, p.id, DerivedKey(req.key, es[0].id));
      return if conflicting == {} then IdempotencyConflict else Duplicate(conflicting);
    }

    method EnqueueOutboundForEvent(req: Request, clock: int, newIds: NewIds, valid: Validator) returns (r: Response)
      modifies this`tables, cache
      ensures (cache.entries, tables, r)
           == CachedEnqueue(old(cache.entries), db, old(tables), req, clock, newIds, valid)
    {
      var partner := FindPartner(req.partnerId, clock);
      if partner.None? { return PartnerNotFound; }
      if partner.value.status != ACTIVE { return PartnerInactive; }
      var schema := FindSchema(req.eventType, clock);
      if !PayloadOk(valid, schema, req.eventType, req.payload) { return SchemaValidationFailed; }
      var endpoints := FindEndpoints(partner.value.id, req.eventType, clock);
      if endpoints == [] { return NoActiveEndpoint; }
      r := PersistFanOut(partner.value, endpoints, req, newIds);
    }
  }

  // ---------------------------------------------------------------- the cache is invisible

  lemma LookupPartnerMirrors(c: Cache, db: Admin, u: Uuid, clock: int)
    requires Mirrors(c, db)
    ensures var (c1, p) := LookupPartner(c, db, u, clock);
      && Mirrors(c1, db)
      && (p.Some? <==> FetchPartner(db, u).Some?)
      && (p.Some? ==> CopyPartner(p.value) == CopyPartner(FetchPartner(db, u).value))
  {
    assert PartnerMirrored(c, db, u);
    var c1 := Get(c, PartnerKey(u), clock).0;
    FewerEntriesMirror(c, c1, db);
    if u in db.partners {
      SetPartnerMirrors(c1, db, u, clock);
    }
  }

  lemma LookupSchemaMirrors(c: Cache, db: Admin, e: string, clock: int)
    requires Mirrors(c, db)
    ensures Mirrors(LookupSchema(c, db, e, clock).0, db)
    ensures LookupSchema(c, db, e, clock).1 == FetchSchema(db.schemas, e)
  {
    assert SchemaMirrored(c, db, e);
    var c1 := Get(c, SchemaKey(e), clock).0;
    FewerEntriesMirror(c, c1, db);
    SetSchemaMirrors(c1, db, e, clock);
  }

  lemma LookupEndpointsMirrors(c: Cache, db: Admin, p: int, e: string, clock: int)
    requires Mirrors(c, db)
    ensures Mirrors(LookupEndpoints(c, db, p, e, clock).0, db)
    ensures LookupEndpoints(c, db, p, e, clock).1 == FetchEndpoints(db.endpoints, p, e)
  {
    assert EndpointsMirrored(c, db, p, e);
    var c1 := Get(c, EndpointsKey(p, e), clock).0;
    FewerEntriesMirror(c, c1, db);
    SetEndpointsMirrors(c1, db, p, e, clock);
  }

  /** The fan-out does not look at the secret that the cached partner lacks. */
  lemma FanOutIgnoresSecret(t: Tables, p: Partner, q: Partner, es: seq<Endpoint>, req: Request, newIds: NewIds)
    requires es != [] && CopyPartner(p) == CopyPartner(q)
    ensures FanOut(t, p, es, req, newIds) == FanOut(t, q, es, req, newIds)
  {
    assert CopyPartner(p).id == p.id && CopyPartner(q).id == q.id;
    assert CopyPartner(p).slaSeconds == p.slaSeconds && CopyPartner(q).slaSeconds == q.slaSeconds;
    forall i | 0 <= i < |es|
      ensures BuildAll(p, es, req, newIds)[i] == BuildAll(q, es, req, newIds)[i]
    {
      BuiltRow(p, es, req, newIds, i);
      BuiltRow(q, es, req, newIds, i);
    }
    assert BuildAll(p, es, req, newIds) == BuildAll(q, es, req, newIds);
  }

  /** One enqueue through a mirroring cache answers and writes what the uncached one does. */
  lemma CachedEqualsDirect(c: Cache, db: Admin, t: Tables, req: Request, clock: int, newIds: NewIds, valid: Validator)
    requires Mirrors(c, db)
    ensures var (c', t', r) := CachedEnqueue(c, db, t, req, clock, newIds, valid);
      Mirrors(c', db) && (t', r) == DirectEnqueue(db, t, req, newIds, valid)
  {
    LookupPartnerMirrors(c, db, req.partnerId, clock);
    var (c1, p) := LookupPartner(c, db, req.partnerId, clock);
    if p.Some? && p.value.status == ACTIVE {
      LookupSchemaMirrors(c1, db, req.eventType, clock);
      var (c2, schema) := LookupSchema(c1, db, req.eventType, clock);
      LookupEndpointsMirrors(c2, db, p.value.id, req.eventType, clock);
      var es := FetchEndpoints(db.endpoints, p.value.id, req.eventType);
      if es != [] {
        FanOutIgnoresSecret(t, p.value, db.partners[req.partnerId], es, req, newIds);
      }
    }
  }

  /** The cache is used: what a lookup has fetched, it answers from the cache for the next 30 seconds, unchanged,
      whatever the database says by then. */
  lemma LookupsAreCached(c: Cache, db: Admin, later: Admin, u: Uuid, p: int, e: string, clock: int, now: int)
    requires clock <= now < clock + 30 && Get(c, EndpointsKey(p, e), clock).1 == None
    requires Get(c, SchemaKey(e), clock).1 == None && Get(c, PartnerKey(u), clock).1 == None
    ensures LookupEndpoints(LookupEndpoints(c, db, p, e, clock).0, later, p, e, now).1
         == FetchEndpoints(db.endpoints, p, e)
    ensures LookupSchema(LookupSchema(c, db, e, clock).0, later, e, now).1 == FetchSchema(db.schemas, e)
    ensures u in db.partners ==>
      LookupPartner(LookupPartner(c, db, u, clock).0, later, u, now).1 == Some(CopyPartner(db.partners[u]))
  {
  }

  // ---------------------------------------------------------------- whole histories

  datatype Op =
    | Accept(req: Request, newIds: NewIds)
    | AdminWrite(write: Write)
    | Tick(to: int)

  /** One process with its cache, and the responses it gave. */
  datatype Process = Process(cache: Cache, db: Admin, tables: Tables, clock: int, responses: seq<Response>)

  function StepCached(s: Process, op: Op, valid: Validator): Process {
    match op
    case Accept(req, newIds) =>
      var (c, t, r) := CachedEnqueue(s.cache, s.db, s.tables, req, s.clock, newIds, valid);
      s.(cache := c, tables := t, responses := s.responses + [r])
    case AdminWrite(w) =>
      if CanWrite(s.db, w) then s.(cache := Invalidated(s.cache, s.db, w), db := Written(s.db, w)) else s
    case Tick(to) => s.(clock := to)
  }

  function StepDirect(s: Process, op: Op, valid: Validator): Process {
    match op
    case Accept(req, newIds) =>
      var (t, r) := DirectEnqueue(s.db, s.tables, req, newIds, valid);
      s.(tables := t, responses := s.responses + [r])
    case AdminWrite(w) => if CanWrite(s.db, w) then s.(db := Written(s.db, w)) else s
    case Tick(to) => s.(clock := to)
  }

  function RunCached(s: Process, ops: seq<Op>, valid: Validator): Process {
    if ops == [] then s else StepCached(RunCached(s, ops[..|ops| - 1], valid), ops[|ops| - 1], valid)
  }

  function RunDirect(s: Process, ops: seq<Op>, valid: Validator): Process {
    if ops == [] then s else StepDirect(RunDirect(s, ops[..|ops| - 1], valid), ops[|ops| - 1], valid)
  }

  /** Over every sequence of enqueues, admin writes and clock changes, a process that starts with an
      empty cache gives the same responses and leaves the same tables as one that always reads the
      database. */
  lemma {:induction false} CacheIsInvisible(s: Process, ops: seq<Op>, valid: Validator)
    requires s.cache == map[]
    ensures var a, b := RunCached(s, ops, valid), RunDirect(s, ops, valid);
      && Mirrors(a.cache, a.db)
      && a.(cache := map[]) == b.(cache := map[])
  {
    if ops != [] {
      CacheIsInvisible(s, ops[..|ops| - 1], valid);
      var a := RunCached(s, ops[..|ops| - 1], valid);
      match ops[|ops| - 1]
      case Accept(req, newIds) => CachedEqualsDirect(a.cache, a.db, a.tables, req, a.clock, newIds, valid);
      case AdminWrite(w) =>
        if CanWrite(a.db, w) {
          WriteKeepsMirror(a.cache, a.db, w);
        }
      case Tick(_) =>
    }
  }

  // ---------------------------------------------------------------- fan-out and idempotency

  /** Every stored delivery's unique key is derived from its source event id and its endpoint. */
  ghost predicate KeysDerived(t: Tables) {
    forall id :: id in t.deliveries ==>
      t.deliveries[id].idempotencyKey == DerivedKey(t.deliveries[id].sourceEventId, t.deliveries[id].endpoint)
  }

  /** The generator's ids are new and distinct. */
  ghost predicate IdsAreNew(t: Tables, newIds: NewIds, n: nat) {
    && (forall i :: 0 <= i < n ==> newIds(i) !in t.deliveries)
    && (forall i, j :: 0 <= i < j < n ==> newIds(i) != newIds(j))
  }

  /** Endpoints are distinct rows: their primary keys differ. */
  predicate DistinctEndpoints(es: seq<Endpoint>) {
    forall i, j :: 0 <= i < j < |es| ==> es[i].id != es[j].id
  }

  /** A delivery of this client key to one of these endpoints is already stored. */
  ghost predicate AlreadySent(t: Tables, partner: int, key: string, es: seq<Endpoint>) {
    exists id, i :: id in BySource(t, partner, key) && 0 <= i < |es| && t.deliveries[id].endpoint == es[i].id
  }

  /** With new ids the persist statement conflicts exactly when some endpoint was already served for the
      same client key. */
  lemma ConflictIffAlreadySent(t: Tables, p: Partner, es: seq<Endpoint>, req: Request, newIds: NewIds)
    requires KeysDerived(t) && IdsAreNew(t, newIds, |es|) && DistinctEndpoints(es)
    ensures Conflicts(t, BuildAll(p, es, req, newIds)) <==> AlreadySent(t, p.id, req.key, es)
  {
    var news := BuildAll(p, es, req, newIds);
    forall i, id | 0 <= i < |news| && id in t.deliveries
      ensures SameKey(news[i].1, t.deliveries[id])
        <==> id in BySource(t, p.id, req.key) && t.deliveries[id].endpoint == es[i].id
    {
      BuiltRow(p, es, req, newIds, i);
      DerivedKeyInjective(req.key, es[i].id, t.deliveries[id].sourceEventId, t.deliveries[id].endpoint);
    }
    forall i, j | 0 <= i < j < |news|
      ensures !SameKey(news[i].1, news[j].1) && news[i].0 != news[j].0
    {
      BuiltRow(p, es, req, newIds, i);
      BuiltRow(p, es, req, newIds, j);
      DerivedKeyInjective(req.key, es[i].id, req.key, es[j].id);
    }
    if AlreadySent(t, p.id, req.key, es) {
      var id, i :| id in BySource(t, p.id, req.key) && 0 <= i < |es| && t.deliveries[id].endpoint == es[i].id;
      assert SameKey(news[i].1, t.deliveries[id]);
    }
  }

  /** Fan-out is all or nothing and idempotent. If no endpoint was served for this client key, exactly
      one new delivery and one outbox row naming it are added per endpoint, in order. Otherwise nothing
      is written and the answer is exactly the deliveries with that source key; the 409 fallback is
      never reached. */
  lemma FanOutIsIdempotent(t: Tables, p: Partner, es: seq<Endpoint>, req: Request, newIds: NewIds)
    requires es != [] && KeysDerived(t) && IdsAreNew(t, newIds, |es|) && DistinctEndpoints(es)
    requires t.deliveries.Keys == t.attempts.Keys
    ensures var (t', r) := FanOut(t, p, es, req, newIds); var news := BuildAll(p, es, req, newIds);
      if AlreadySent(t, p.id, req.key, es) then
        t' == t && r == Duplicate(BySource(t, p.id, req.key)) && BySource(t, p.id, req.key) != {}
      else
        && r == Accepted(Ids(news)) && AddsExactly(t, t', news, Ids(news))
        && KeysDerived(t') && forall i :: 0 <= i < |news| ==> IsNew(news[i].1)
  {
    var news := BuildAll(p, es, req, newIds);
    ConflictIffAlreadySent(t, p, es, req, newIds);
    if AlreadySent(t, p.id, req.key, es) {
      var id, i :| id in BySource(t, p.id, req.key) && 0 <= i < |es| && t.deliveries[id].endpoint == es[i].id;
    } else {
      PersistAddsExactly(t, news, Ids(news));
      NewKeysDerived(t, Persist(t, news, Ids(news)).tables, p, es, req, newIds);
      forall i | 0 <= i < |news| ensures IsNew(news[i].1) { BuiltRow(p, es, req, newIds, i); }
    }
  }

  /** A fresh pending delivery under the derived key, due by the endpoint's own SLA or else the
      partner's. */
  predicate IsPendingFor(d: Delivery, p: Partner, e: Endpoint, req: Request) {
    && d.partner == p.id && d.endpoint == e.id && d.sourceEventId == req.key
    && d.idempotencyKey == req.key + "::" + e.id
    && d.status == PENDING && d.attemptCount == 0 && d.maxAttempts == e.maxAttempts
    && d.nextRetryAt == None && d.firstSuccessAt == None && !d.slaBreached
    && match e.slaSeconds
       case Some(own) => d.slaDeadlineAt == req.now + own as real
       case None => d.slaDeadlineAt == req.now + p.slaSeconds as real
  }

  lemma AddedRowIs(t: Tables, t': Tables, news: seq<NewRow>, i: nat)
    requires AddsExactly(t, t', news, Ids(news)) && i < |news|
    ensures var id := news[i].0;
      && id !in t.deliveries && id in t'.deliveries && id in t'.attempts && t'.attempts[id] == {}
      && t'.deliveries[id] == news[i].1
      && |t'.outbox| == |t.outbox| + |news| && t'.outbox[|t.outbox| + i] == OutboxRow(id, id, false, 0)
  {
    assert Ids(news)[i] == news[i].0;
  }

  /** What an accepted request stores for its i-th endpoint: such a delivery, new, without attempts, and
      an outbox row that names it. */
  lemma AcceptedRow(t: Tables, t': Tables, p: Partner, es: seq<Endpoint>, req: Request, newIds: NewIds, i: nat)
    requires KeysDerived(t) && IdsAreNew(t, newIds, |es|) && DistinctEndpoints(es) && i < |es|
    requires t.deliveries.Keys == t.attempts.Keys && !AlreadySent(t, p.id, req.key, es)
    requires t' == FanOut(t, p, es, req, newIds).0
    ensures var id := newIds(i);
      && id !in t.deliveries && id in t'.deliveries && id in t'.attempts && t'.attempts[id] == {}
      && IsPendingFor(t'.deliveries[id], p, es[i], req)
      && |t'.outbox| == |t.outbox| + |es| && t'.outbox[|t.outbox| + i] == OutboxRow(id, id, false, 0)
  {
    FanOutIsIdempotent(t, p, es, req, newIds);
    BuiltRow(p, es, req, newIds, i);
    AddedRowIs(t, t', BuildAll(p, es, req, newIds), i);
    assert IsPendingFor(BuildPending(p, es[i], req), p, es[i], req);
  }

  lemma NewKeysDerived(t: Tables, t': Tables, p: Partner, es: seq<Endpoint>, req: Request, newIds: NewIds)
    requires KeysDerived(t)
    requires AddsExactly(t, t', BuildAll(p, es, req, newIds), Ids(BuildAll(p, es, req, newIds)))
    ensures KeysDerived(t')
  {
    var news := BuildAll(p, es, req, newIds);
    forall id | id in t'.deliveries
      ensures t'.deliveries[id].idempotencyKey
           == DerivedKey(t'.deliveries[id].sourceEventId, t'.deliveries[id].endpoint)
    {
      if id !in t.deliveries {
        var i :| 0 <= i < |news| && news[i].0 == id;
        BuiltRow(p, es, req, newIds, i);
      }
    }
  }

  /** The endpoint query returns exactly the partner's outbound, live endpoints that list the event type, each once. */
  lemma {:induction false} FetchedEndpoints(all: seq<Endpoint>, partner: int, eventType: string)
    ensures var es := FetchEndpoints(all, partner, eventType);
      && (forall e :: e in es <==>
            && e in all && e.partner == partner && e.outbound && e.status == LIVE && eventType in e.eventTypes)
      && |es| <= |all|
      && (DistinctEndpoints(all) ==> DistinctEndpoints(es))
  {
    if all != [] {
      var front, last := all[..|all| - 1], all[|all| - 1];
      FetchedEndpoints(front, partner, eventType);
      assert all == front + [last];
      assert DistinctEndpoints(all) ==> DistinctEndpoints(front);
      forall e | e in FetchEndpoints(front, partner, eventType) && DistinctEndpoints(all)
        ensures e.id != last.id
      {
        var k :| 0 <= k < |front| && front[k] == e;
        assert all[k] == e;
      }
    }
  }

  /** The schema query returns the highest active version for the event type, if there is any. */
  lemma {:induction false} FetchedSchema(all: seq<Schema>, eventType: string)
    ensures var r := FetchSchema(all, eventType);
      && (r.Some? ==> r.value in all && r.value.active && r.value.eventType == eventType)
      && (forall s :: s in all && s.active && s.eventType == eventType ==> r.Some? && s.version <= r.value.version)
  {
    if all != [] {
      FetchedSchema(all[..|all| - 1], eventType);
      assert all == all[..|all| - 1] + [all[|all| - 1]];
    }
  }

  /** The table's unique constraint on event type and version. */
  predicate DistinctVersions(schemas: seq<Schema>) {
    forall i, j :: 0 <= i < j < |schemas| ==>
      schemas[i].eventType != schemas[j].eventType || schemas[i].version != schemas[j].version
  }

  /** An active schema of the event type, none of which is newer. */
  ghost predicate IsNewest(schemas: seq<Schema>, eventType: string, s: Schema) {
    && s in schemas && s.active && s.eventType == eventType
    && forall x :: x in schemas && x.active && x.eventType == eventType ==> x.version <= s.version
  }

  /** The newest active schema of the event type rejects the payload. */
  ghost predicate Rejected(schemas: seq<Schema>, eventType: string, payload: string, valid: Validator) {
    exists s :: IsNewest(schemas, eventType, s) && !valid(s, payload)
  }

  /** Some endpoint row of the partner takes the event. */
  ghost predicate Takes(endpoints: seq<Endpoint>, partner: int, eventType: string) {
    exists e :: e in endpoints && e.partner == partner && e.outbound && e.status == LIVE && eventType in e.eventTypes
  }

  lemma PayloadRejected(schemas: seq<Schema>, eventType: string, payload: string, valid: Validator)
    requires DistinctVersions(schemas)
    ensures PayloadOk(valid, FetchSchema(schemas, eventType), eventType, payload)
      <==> !Rejected(schemas, eventType, payload, valid)
  {
    FetchedSchema(schemas, eventType);
    var r := FetchSchema(schemas, eventType);
    if r.Some? {
      assert IsNewest(schemas, eventType, r.value);
    }
    if s :| IsNewest(schemas, eventType, s) && !valid(s, payload) {
      assert r.value.version == s.version;
      var i :| 0 <= i < |schemas| && schemas[i] == s;
      var j :| 0 <= j < |schemas| && schemas[j] == r.value;
      assert i == j;
    }
  }

  lemma EndpointTaken(endpoints: seq<Endpoint>, partner: int, eventType: string)
    ensures FetchEndpoints(endpoints, partner, eventType) != [] <==> Takes(endpoints, partner, eventType)
  {
    FetchedEndpoints(endpoints, partner, eventType);
    var es := FetchEndpoints(endpoints, partner, eventType);
    if es != [] {
      assert es[0] in es;
    }
  }

  /** Which answer a request gets, from the rows alone, first match first: no partner row; a partner that is not
      active; a payload that the newest active schema of the event type rejects; no live outbound endpoint of the
      partner that lists the event type; and otherwise the fan-out's answer. Only the fan-out writes anything. */
  lemma AnswerCases(db: Admin, t: Tables, req: Request, newIds: NewIds, valid: Validator)
    requires DistinctVersions(db.schemas)
    ensures var (t', r) := DirectEnqueue(db, t, req, newIds, valid);
      if req.partnerId !in db.partners then r == PartnerNotFound && t' == t
      else
        var p := db.partners[req.partnerId];
        if p.status != ACTIVE then r == PartnerInactive && t' == t
        else if Rejected(db.schemas, req.eventType, req.payload, valid) then r == SchemaValidationFailed && t' == t
        else if !Takes(db.endpoints, p.id, req.eventType) then r == NoActiveEndpoint && t' == t
        else
          && (r.Accepted? || r.Duplicate? || r == IdempotencyConflict) && (!r.Accepted? ==> t' == t)
          && FetchEndpoints(db.endpoints, p.id, req.eventType) != []
          && (t', r) == FanOut(t, p, FetchEndpoints(db.endpoints, p.id, req.eventType), req, newIds)
  {
    PayloadRejected(db.schemas, req.eventType, req.payload, valid);
    if req.partnerId in db.partners {
      EndpointTaken(db.endpoints, db.partners[req.partnerId].id, req.eventType);
    }
  }

  /** The 409 answer is unreachable: after a key conflict the lookup by source event is never empty. */
  lemma ConflictAnswerUnreachable(db: Admin, t: Tables, req: Request, newIds: NewIds, valid: Validator)
    requires KeysDerived(t) && IdsAreNew(t, newIds, |db.endpoints|) && DistinctEndpoints(db.endpoints)
    requires t.deliveries.Keys == t.attempts.Keys
    ensures DirectEnqueue(db, t, req, newIds, valid).1 != IdempotencyConflict
    ensures KeysDerived(DirectEnqueue(db, t, req, newIds, valid).0)
  {
    var p := FetchPartner(db, req.partnerId);
    if p.Some? {
      FetchedEndpoints(db.endpoints, p.value.id, req.eventType);
      var es := FetchEndpoints(db.endpoints, p.value.id, req.eventType);
      if es != [] {
        FanOutIsIdempotent(t, p.value, es, req, newIds);
      }
    }
  }
}
