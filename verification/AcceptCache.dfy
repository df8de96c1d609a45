/** The accept path's process-local TTL cache (app/domain/services/accept_path_cache.py) and the admin
    tables it caches. */
module AcceptCache {
  import opened Wrappers
  import opened Text

  datatype PartnerStatus = ACTIVE | SUSPENDED | PROVISIONING
  datatype EndpointStatus = LIVE | PAUSED | DISABLED

  datatype Partner = Partner(id: int, publicId: Uuid, slug: string, status: PartnerStatus, slaSeconds: int,
                             signingSecret: Option<string>)

  datatype Endpoint = Endpoint(id: Uuid, partner: int, outbound: bool, status: EndpointStatus, eventTypes: seq<string>,
                               slaSeconds: Option<int>, maxAttempts: int)

  datatype Schema = Schema(id: Uuid, eventType: string, version: int, body: string, active: bool)

  /** The partners, partner_endpoints and payload_schemas tables. */
  datatype Admin = Admin(partners: map<Uuid, Partner>, endpoints: seq<Endpoint>, schemas: seq<Schema>)

  // ---------------------------------------------------------------- the three lookups

  function FetchPartner(db: Admin, publicId: Uuid): Option<Partner> {
    if publicId in db.partners then Some(db.partners[publicId]) else None
  }

  predicate Serves(e: Endpoint, partner: int, eventType: string) {
    e.partner == partner && e.outbound && e.status == LIVE && eventType in e.eventTypes
  }

  function FetchEndpoints(endpoints: seq<Endpoint>, partner: int, eventType: string): seq<Endpoint> {
    if endpoints == [] then []
    else FetchEndpoints(endpoints[..|endpoints| - 1], partner, eventType)
         + (if Serves(endpoints[|endpoints| - 1], partner, eventType) then [endpoints[|endpoints| - 1]] else [])
  }

  /** The highest active version for the event type. */
  function FetchSchema(schemas: seq<Schema>, eventType: string): Option<Schema> {
    if schemas == [] then None
    else
      var best, last := FetchSchema(schemas[..|schemas| - 1], eventType), schemas[|schemas| - 1];
      if last.eventType == eventType && last.active && (best.None? || best.value.version < last.version)
      then Some(last) else best
  }

  // ---------------------------------------------------------------- the cache

  datatype Value =
    | PartnerValue(partner: Partner)
    | EndpointsValue(endpoints: seq<Endpoint>)
    | SchemaValue(schema: Schema)
    | SchemaAbsent

  datatype Entry = Entry(expires: int, value: Value)

  type Cache = map<string, Entry>

  const TTL := 30

  /** `cache_get`: an expired entry is removed. */
  function Get(c: Cache, key: string, now: int): (Cache, Option<Value>) {
    if key !in c then (c, None)
    else if now >= c[key].expires then (c - {key}, None)
    else (c, Some(c[key].value))
  }

  /** `cache_set`. */
  function Set(c: Cache, key: string, value: Value, now: int): Cache {
    c[key := Entry(now + TTL, value)]
  }

  /** `_invalidate_endpoints_for_partner`. */
  function InvalidateEndpoints(c: Cache, partner: int): Cache {
    map key | key in c && !(EndpointsPrefix(partner) <= key) :: c[key]
  }

  /** `invalidate_partner`. */
  function InvalidatePartner(c: Cache, publicId: Uuid): Cache {
    var key := PartnerKey(publicId);
    var rest := c - {key};
    if key in c && c[key].value.PartnerValue? then InvalidateEndpoints(rest, c[key].value.partner.id) else rest
  }

  function InvalidateSchema(c: Cache, eventType: string): Cache {
    c - {SchemaKey(eventType)}
  }

  /** `copy_partner` drops the signing secret. */
  function CopyPartner(p: Partner): Partner {
    p.(signingSecret := None)
  }

  function CacheSchemaValue(s: Option<Schema>): Value {
    match s
    case None => SchemaAbsent
    case Some(row) => SchemaValue(row)
  }

  class AcceptPathCache {
    var entries: Cache

    constructor ()
      ensures entries == map[]
    {
      entries := map[];
    }

    method CacheGet(key: string, now: int) returns (r: Option<Value>)
      modifies this
      ensures (entries, r) == Get(old(entries), key, now)
    {
      if key !in entries { return None; }
      if now >= entries[key].expires {
        entries := entries - {key};
        return None;
      }
      return Some(entries[key].value);
    }

    method CacheSet(key: string, value: Value, now: int)
      modifies this
      ensures entries == Set(old(entries), key, value, now)
    {
      entries := entries[key := Entry(now + TTL, value)];
    }

    method InvalidateEndpointsForPartner(partner: int)
      modifies this
      ensures entries == InvalidateEndpoints(old(entries), partner)
    {
      var prefix := EndpointsPrefix(partner);
      var keys := entries.Keys;
      while keys != {}
        invariant keys <= entries.Keys <= old(entries).Keys
        invariant forall key :: key in entries ==> entries[key] == old(entries)[key]
        invariant forall key :: key in old(entries) && key !in keys ==> (key in entries <==> !(prefix <= key))
        decreases keys
      {
        var key :| key in keys;
        keys := keys - {key};
        if prefix <= key {
          entries := entries - {key};
        }
      }
    }

    method InvalidateByPublicId(publicId: Uuid)
      modifies this
      ensures entries == InvalidatePartner(old(entries), publicId)
    {
      var key := PartnerKey(publicId);
      var partnerId: Option<int> := None;
      if key in entries && entries[key].value.PartnerValue? {
        partnerId := Some(entries[key].value.partner.id);
      }
      entries := entries - {key};
      if partnerId.Some? {
        InvalidateEndpointsForPartner(partnerId.value);
      }
    }
  }

  // ---------------------------------------------------------------- the cache mirrors the tables

  ghost predicate PartnerMirrored(c: Cache, db: Admin, u: Uuid) {
    PartnerKey(u) in c ==>
      FetchPartner(db, u).Some? && c[PartnerKey(u)].value == PartnerValue(CopyPartner(FetchPartner(db, u).value))
  }

  ghost predicate SchemaMirrored(c: Cache, db: Admin, e: string) {
    SchemaKey(e) in c ==> c[SchemaKey(e)].value == CacheSchemaValue(FetchSchema(db.schemas, e))
  }

  ghost predicate EndpointsMirrored(c: Cache, db: Admin, p: int, e: string) {
    EndpointsKey(p, e) in c ==> c[EndpointsKey(p, e)].value == EndpointsValue(FetchEndpoints(db.endpoints, p, e))
  }

  /** Every entry, expired or not, holds what the database would answer now. */
  ghost predicate Mirrors(c: Cache, db: Admin) {
    && (forall u: Uuid :: PartnerMirrored(c, db, u))
    && (forall e: string :: SchemaMirrored(c, db, e))
    && (forall p: int, e: string :: EndpointsMirrored(c, db, p, e))
  }

  /** Dropping entries, by expiry or invalidation, keeps the mirror. */
  lemma FewerEntriesMirror(c: Cache, c': Cache, db: Admin)
    requires Mirrors(c, db) && c'.Keys <= c.Keys && forall key :: key in c' ==> c'[key] == c[key]
    ensures Mirrors(c', db)
  {
    forall u: Uuid ensures PartnerMirrored(c', db, u) { assert PartnerMirrored(c, db, u); }
    forall e: string ensures SchemaMirrored(c', db, e) { assert SchemaMirrored(c, db, e); }
    forall p: int, e: string ensures EndpointsMirrored(c', db, p, e) { assert EndpointsMirrored(c, db, p, e); }
  }

  /** Storing under `key` what the database answers keeps the mirror: no other lookup has that key. */
  lemma SetKeepsMirror(c: Cache, db: Admin, key: string, value: Value, now: int)
    requires Mirrors(c, db)
    requires forall u: Uuid :: PartnerKey(u) == key ==>
      FetchPartner(db, u).Some? && value == PartnerValue(CopyPartner(FetchPartner(db, u).value))
    requires forall e: string :: SchemaKey(e) == key ==> value == CacheSchemaValue(FetchSchema(db.schemas, e))
    requires forall p: int, e: string :: EndpointsKey(p, e) == key ==>
      value == EndpointsValue(FetchEndpoints(db.endpoints, p, e))
    ensures Mirrors(Set(c, key, value, now), db)
  {
    var c' := Set(c, key, value, now);
    forall u: Uuid ensures PartnerMirrored(c', db, u) { assert PartnerMirrored(c, db, u); }
    forall e: string ensures SchemaMirrored(c', db, e) { assert SchemaMirrored(c, db, e); }
    forall p: int, e: string ensures EndpointsMirrored(c', db, p, e) { assert EndpointsMirrored(c, db, p, e); }
  }

  lemma SetPartnerMirrors(c: Cache, db: Admin, u: Uuid, now: int)
    requires Mirrors(c, db) && u in db.partners
    ensures Mirrors(Set(c, PartnerKey(u), PartnerValue(CopyPartner(db.partners[u])), now), db)
  {
    forall v: Uuid | PartnerKey(v) == PartnerKey(u) ensures v == u { PartnerKeyInjective(v, u); }
    forall e: string ensures SchemaKey(e) != PartnerKey(u) { KindsDiffer(u, e, 0, ""); }
    forall p: int, e: string ensures EndpointsKey(p, e) != PartnerKey(u) { KindsDiffer(u, "", p, e); }
    SetKeepsMirror(c, db, PartnerKey(u), PartnerValue(CopyPartner(db.partners[u])), now);
  }

  lemma SetSchemaMirrors(c: Cache, db: Admin, s: string, now: int)
    requires Mirrors(c, db)
    ensures Mirrors(Set(c, SchemaKey(s), CacheSchemaValue(FetchSchema(db.schemas, s)), now), db)
  {
    forall u: Uuid ensures PartnerKey(u) != SchemaKey(s) { KindsDiffer(u, s, 0, ""); }
    forall e: string | SchemaKey(e) == SchemaKey(s) ensures e == s { SchemaKeyInjective(e, s); }
    forall p: int, e: string ensures EndpointsKey(p, e) != SchemaKey(s) {
      KindsDiffer("00000000-0000-0000-0000-000000000000", s, p, e);
    }
    SetKeepsMirror(c, db, SchemaKey(s), CacheSchemaValue(FetchSchema(db.schemas, s)), now);
  }

  lemma SetEndpointsMirrors(c: Cache, db: Admin, q: int, s: string, now: int)
    requires Mirrors(c, db)
    ensures Mirrors(Set(c, EndpointsKey(q, s), EndpointsValue(FetchEndpoints(db.endpoints, q, s)), now), db)
  {
    forall u: Uuid ensures PartnerKey(u) != EndpointsKey(q, s) { KindsDiffer(u, "", q, s); }
    forall e: string ensures SchemaKey(e) != EndpointsKey(q, s) {
      KindsDiffer("00000000-0000-0000-0000-000000000000", e, q, s);
    }
    forall p: int, e: string | EndpointsKey(p, e) == EndpointsKey(q, s) ensures p == q && e == s {
      EndpointsKeyInjective(p, e, q, s);
    }
    SetKeepsMirror(c, db, EndpointsKey(q, s), EndpointsValue(FetchEndpoints(db.endpoints, q, s)), now);
  }

  /** Prefix invalidation drops exactly the endpoint keys of that partner. */
  lemma InvalidationIsExact(c: Cache, partner: int, u: Uuid, s: string, p: int)
    ensures var c' := InvalidateEndpoints(c, partner);
      && (EndpointsKey(p, s) in c' <==> EndpointsKey(p, s) in c && p != partner)
      && (PartnerKey(u) in c' <==> PartnerKey(u) in c)
      && (SchemaKey(s) in c' <==> SchemaKey(s) in c)
  {
    PrefixHitsOnePartner(partner, p, s);
    KindsDiffer(u, s, partner, s);
  }

  /** What is set is answered for the next 30 seconds and no longer, and no other key's answer changes. */
  lemma SetThenGet(c: Cache, key: string, value: Value, at: int, other: string, now: int)
    requires at <= now
    ensures Get(Set(c, key, value, at), key, now).1 == if now < at + 30 then Some(value) else None
    ensures other != key ==> Get(Set(c, key, value, at), other, now).1 == Get(c, other, now).1
    ensures Get(Get(c, key, at).0, other, now).1 == Get(c, other, now).1
  {
  }

  /** Invalidating a partner drops its own entry and, if that was cached, the endpoint entries of its id; invalidating
      an event type's schema drops that entry. Every other live entry is still answered. */
  lemma InvalidationDropsOnly(c: Cache, u: Uuid, v: Uuid, p: int, s: string, e: string)
    ensures var c' := InvalidatePartner(c, u);
      && (PartnerKey(v) in c' <==> PartnerKey(v) in c && v != u)
      && (SchemaKey(s) in c' <==> SchemaKey(s) in c)
      && (EndpointsKey(p, s) in c' <==>
            && EndpointsKey(p, s) in c
            && !(PartnerKey(u) in c && c[PartnerKey(u)].value.PartnerValue? && c[PartnerKey(u)].value.partner.id == p))
      && (forall key :: key in c' ==> c'[key] == c[key])
    ensures var c' := InvalidateSchema(c, e);
      && (SchemaKey(s) in c' <==> SchemaKey(s) in c && s != e)
      && (PartnerKey(v) in c' <==> PartnerKey(v) in c)
      && (EndpointsKey(p, s) in c' <==> EndpointsKey(p, s) in c)
      && (forall key :: key in c' ==> c'[key] == c[key])
  {
    if PartnerKey(v) == PartnerKey(u) { PartnerKeyInjective(v, u); }
    if SchemaKey(s) == SchemaKey(e) { SchemaKeyInjective(s, e); }
    KindsDiffer(u, s, p, s);
    KindsDiffer(v, e, p, s);
    KindsDiffer(v, s, p, s);
    var rest := c - {PartnerKey(u)};
    if PartnerKey(u) in c && c[PartnerKey(u)].value.PartnerValue? {
      InvalidationIsExact(rest, c[PartnerKey(u)].value.partner.id, v, s, p);
    }
  }

  // ---------------------------------------------------------------- admin writes

  /** The admin API's writes; each commits and then invalidates. Rotating a partner's signing secret
      changes the partner row without invalidating anything. */
  datatype Write =
    | PutPartner(partner: Partner)
    | RotateSecret(publicId: Uuid, secret: string)
    | CreateEndpoint(endpoint: Endpoint)
    | UpdateEndpoint(index: nat, status: EndpointStatus, eventTypes: seq<string>, slaSeconds: Option<int>)
    | CreateSchema(schema: Schema)

  predicate CanWrite(db: Admin, w: Write) {
    match w
    case PutPartner(_) => true
    case RotateSecret(u, _) => u in db.partners
    case CreateEndpoint(_) => true
    case UpdateEndpoint(i, _, _, _) => i < |db.endpoints|
    case CreateSchema(_) => true
  }

  function Written(db: Admin, w: Write): Admin
    requires CanWrite(db, w)
  {
    match w
    case PutPartner(p) => db.(partners := db.partners[p.publicId := p])
    case RotateSecret(u, s) => db.(partners := db.partners[u := db.partners[u].(signingSecret := Some(s))])
    case CreateEndpoint(e) => db.(endpoints := db.endpoints + [e])
    case UpdateEndpoint(i, status, types, sla) =>
      db.(endpoints := db.endpoints[i := db.endpoints[i].(status := status, eventTypes := types, slaSeconds := sla)])
    case CreateSchema(s) => db.(schemas := db.schemas + [s])
  }

  /** What each write leaves in the tables: the one row it is about, and every other row as it was. */
  lemma WriteChanges(db: Admin, w: Write)
    requires CanWrite(db, w)
    ensures var db' := Written(db, w);
      match w
      case PutPartner(p) =>
        && FetchPartner(db', p.publicId) == Some(p) && db'.endpoints == db.endpoints && db'.schemas == db.schemas
        && forall u: Uuid :: u != p.publicId ==> FetchPartner(db', u) == FetchPartner(db, u)
      case RotateSecret(u, s) =>
        && db'.endpoints == db.endpoints && db'.schemas == db.schemas && u in db'.partners
        && db'.partners[u].signingSecret == Some(s) && CopyPartner(db'.partners[u]) == CopyPartner(db.partners[u])
        && forall v: Uuid :: v != u ==> FetchPartner(db', v) == FetchPartner(db, v)
      case CreateEndpoint(e) =>
        && db'.partners == db.partners && db'.schemas == db.schemas
        && |db'.endpoints| == |db.endpoints| + 1 && db'.endpoints[..|db.endpoints|] == db.endpoints
        && db'.endpoints[|db.endpoints|] == e
      case UpdateEndpoint(i, status, types, sla) =>
        && db'.partners == db.partners && db'.schemas == db.schemas && |db'.endpoints| == |db.endpoints|
        && (forall k :: 0 <= k < |db.endpoints| && k != i ==> db'.endpoints[k] == db.endpoints[k])
        && var e := db.endpoints[i];
           db'.endpoints[i] == Endpoint(e.id, e.partner, e.outbound, status, types, sla, e.maxAttempts)
      case CreateSchema(s) =>
        && db'.partners == db.partners && db'.endpoints == db.endpoints
        && |db'.schemas| == |db.schemas| + 1 && db'.schemas[..|db.schemas|] == db.schemas
        && db'.schemas[|db.schemas|] == s
  {
  }

  /** The cached copy is the partner without its signing secret. */
  lemma CopyDropsSecretOnly(p: Partner)
    ensures CopyPartner(p) == Partner(p.id, p.publicId, p.slug, p.status, p.slaSeconds, None)
  {
  }

  function Invalidated(c: Cache, db: Admin, w: Write): Cache
    requires CanWrite(db, w)
  {
    match w
    case PutPartner(p) => InvalidatePartner(c, p.publicId)
    case RotateSecret(_, _) => c
    case CreateEndpoint(e) => InvalidateEndpoints(c, e.partner)
    case UpdateEndpoint(i, _, _, _) => InvalidateEndpoints(c, db.endpoints[i].partner)
    case CreateSchema(s) => InvalidateSchema(c, s.eventType)
  }

  /** A write drops no more than it must: rotating a secret drops nothing, a partner write that partner's entries, an
      endpoint write that partner's endpoint entries, a schema write that event type's entry. */
  lemma WriteDropsOnly(c: Cache, db: Admin, w: Write, v: Uuid, p: int, s: string)
    requires CanWrite(db, w)
    ensures var c' := Invalidated(c, db, w);
      && (PartnerKey(v) in c' <==> PartnerKey(v) in c && !(w.PutPartner? && w.partner.publicId == v))
      && (SchemaKey(s) in c' <==> SchemaKey(s) in c && !(w.CreateSchema? && w.schema.eventType == s))
      && (EndpointsKey(p, s) in c' <==>
            && EndpointsKey(p, s) in c
            && !(w.CreateEndpoint? && w.endpoint.partner == p)
            && !(w.UpdateEndpoint? && db.endpoints[w.index].partner == p)
            && !(w.PutPartner? && PartnerKey(w.partner.publicId) in c
                 && c[PartnerKey(w.partner.publicId)].value.PartnerValue?
                 && c[PartnerKey(w.partner.publicId)].value.partner.id == p))
  {
    match w
    case PutPartner(x) => InvalidationDropsOnly(c, x.publicId, v, p, s, s);
    case RotateSecret(_, _) =>
    case CreateEndpoint(e) => InvalidationIsExact(c, e.partner, v, s, p);
    case UpdateEndpoint(i, _, _, _) => InvalidationIsExact(c, db.endpoints[i].partner, v, s, p);
    case CreateSchema(x) => InvalidationDropsOnly(c, v, v, p, s, x.eventType);
  }

  lemma {:induction false} OtherPartnersEndpoints(a: seq<Endpoint>, b: seq<Endpoint>, partner: int, eventType: string)
    requires |a| == |b|
    requires forall i :: 0 <= i < |a| ==> a[i] == b[i] || (a[i].partner != partner && b[i].partner != partner)
    ensures FetchEndpoints(a, partner, eventType) == FetchEndpoints(b, partner, eventType)
  {
    if a != [] {
      OtherPartnersEndpoints(a[..|a| - 1], b[..|b| - 1], partner, eventType);
    }
  }

  /** Every admin write keeps the mirror: what it changes it invalidates, or the cache does not hold. */
  lemma WriteKeepsMirror(c: Cache, db: Admin, w: Write)
    requires Mirrors(c, db) && CanWrite(db, w)
    ensures Mirrors(Invalidated(c, db, w), Written(db, w))
  {
    match w
    case PutPartner(p) => PutPartnerMirrors(c, db, p);
    case RotateSecret(_, _) => MirrorsAfterWrite(c, db, Written(db, w));
    case CreateEndpoint(e) => EndpointWriteMirrors(c, db, db.endpoints + [e], e.partner);
    case UpdateEndpoint(i, _, _, _) => EndpointWriteMirrors(c, db, Written(db, w).endpoints, db.endpoints[i].partner);
    case CreateSchema(s) => CreateSchemaMirrors(c, db, s);
  }

  /** The mirror carries over to changed tables if every cached lookup still has the same answer. */
  lemma MirrorsAfterWrite(c: Cache, db: Admin, db': Admin)
    requires Mirrors(c, db)
    requires forall u: Uuid :: PartnerKey(u) in c && u in db.partners ==>
      u in db'.partners && CopyPartner(db'.partners[u]) == CopyPartner(db.partners[u])
    requires forall e: string :: SchemaKey(e) in c ==> FetchSchema(db'.schemas, e) == FetchSchema(db.schemas, e)
    requires forall p: int, e: string :: EndpointsKey(p, e) in c ==>
      FetchEndpoints(db'.endpoints, p, e) == FetchEndpoints(db.endpoints, p, e)
    ensures Mirrors(c, db')
  {
    forall u: Uuid ensures PartnerMirrored(c, db', u) { assert PartnerMirrored(c, db, u); }
    forall e: string ensures SchemaMirrored(c, db', e) { assert SchemaMirrored(c, db, e); }
    forall p: int, e: string ensures EndpointsMirrored(c, db', p, e) { assert EndpointsMirrored(c, db, p, e); }
  }

  lemma PutPartnerMirrors(c: Cache, db: Admin, p: Partner)
    requires Mirrors(c, db)
    ensures Mirrors(InvalidatePartner(c, p.publicId), Written(db, PutPartner(p)))
  {
    var c' := InvalidatePartner(c, p.publicId);
    FewerEntriesMirror(c, c', db);
    assert PartnerKey(p.publicId) !in c';
    MirrorsAfterWrite(c', db, Written(db, PutPartner(p)));
  }

  lemma EndpointWriteMirrors(c: Cache, db: Admin, endpoints: seq<Endpoint>, partner: int)
    requires Mirrors(c, db)
    requires |db.endpoints| <= |endpoints| <= |db.endpoints| + 1
    requires forall i :: 0 <= i < |endpoints| ==>
      || (i < |db.endpoints| && endpoints[i] == db.endpoints[i])
      || (endpoints[i].partner == partner && (i < |db.endpoints| ==> db.endpoints[i].partner == partner))
    ensures Mirrors(InvalidateEndpoints(c, partner), db.(endpoints := endpoints))
  {
    var c' := InvalidateEndpoints(c, partner);
    FewerEntriesMirror(c, c', db);
    forall p: int, e: string | EndpointsKey(p, e) in c'
      ensures FetchEndpoints(endpoints, p, e) == FetchEndpoints(db.endpoints, p, e)
    {
      PrefixHitsOnePartner(partner, p, e);
      var front := endpoints[..|db.endpoints|];
      OtherPartnersEndpoints(db.endpoints, front, p, e);
      assert |endpoints| > |db.endpoints| ==> endpoints[..|endpoints| - 1] == front;
      assert |endpoints| == |db.endpoints| ==> endpoints == front;
    }
    MirrorsAfterWrite(c', db, db.(endpoints := endpoints));
  }

  lemma CreateSchemaMirrors(c: Cache, db: Admin, s: Schema)
    requires Mirrors(c, db)
    ensures Mirrors(InvalidateSchema(c, s.eventType), Written(db, CreateSchema(s)))
  {
    var c' := InvalidateSchema(c, s.eventType);
    FewerEntriesMirror(c, c', db);
    assert (db.schemas + [s])[..|db.schemas|] == db.schemas;
    forall e: string | SchemaKey(e) in c'
      ensures FetchSchema(db.schemas + [s], e) == FetchSchema(db.schemas, e)
    {
      assert e != s.eventType;
    }
    MirrorsAfterWrite(c', db, Written(db, CreateSchema(s)));
  }
}
