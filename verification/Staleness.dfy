/** What the cache's TTL is for: writes that this process does not see. Another process may write at any time, and a
    write may fall between a fetch and the storing of its answer. */
module Staleness {
  import opened Wrappers
  import opened Text
  import opened AcceptCache
  import opened Enqueue

  datatype Lookup =
    | PartnerOf(publicId: Uuid)
    | SchemaFor(schemaType: string)
    | EndpointsFor(partner: int, eventType: string)

  function KeyOf(l: Lookup): string {
    match l
    case PartnerOf(u) => PartnerKey(u)
    case SchemaFor(e) => SchemaKey(e)
    case EndpointsFor(p, e) => EndpointsKey(p, e)
  }

  /** What would be cached for the lookup; an unknown partner is not. */
  function AnswerOf(db: Admin, l: Lookup): Option<Value> {
    match l
    case PartnerOf(u) =>
      if FetchPartner(db, u).Some? then Some(PartnerValue(CopyPartner(FetchPartner(db, u).value))) else None
    case SchemaFor(e) => Some(CacheSchemaValue(FetchSchema(db.schemas, e)))
    case EndpointsFor(p, e) => Some(EndpointsValue(FetchEndpoints(db.endpoints, p, e)))
  }

  lemma KeysSeparate(l: Lookup, m: Lookup)
    ensures KeyOf(l) == KeyOf(m) <==> l == m
  {
    var u := "00000000-0000-0000-0000-000000000000";
    match (l, m)
    case (PartnerOf(a), PartnerOf(b)) => if PartnerKey(a) == PartnerKey(b) { PartnerKeyInjective(a, b); }
    case (SchemaFor(a), SchemaFor(b)) => if SchemaKey(a) == SchemaKey(b) { SchemaKeyInjective(a, b); }
    case (EndpointsFor(p, e), EndpointsFor(q, f)) =>
      if EndpointsKey(p, e) == EndpointsKey(q, f) { EndpointsKeyInjective(p, e, q, f); }
    case (PartnerOf(a), SchemaFor(e)) => KindsDiffer(a, e, 0, "");
    case (PartnerOf(a), EndpointsFor(p, e)) => KindsDiffer(a, "", p, e);
    case (SchemaFor(e), PartnerOf(a)) => KindsDiffer(a, e, 0, "");
    case (SchemaFor(s), EndpointsFor(p, e)) => KindsDiffer(u, s, p, e);
    case (EndpointsFor(p, e), PartnerOf(a)) => KindsDiffer(a, "", p, e);
    case (EndpointsFor(p, e), SchemaFor(s)) => KindsDiffer(u, s, p, e);
  }

  /** The tables as they were at a time. */
  datatype Moment = Moment(at: int, db: Admin)

  /** A fetch whose answer, taken from that moment, has not been stored yet. */
  datatype Fetched = Fetched(lookup: Lookup, moment: nat)

  /** One process with its cache; the last moment is the present. */
  datatype State = State(cache: Cache, past: seq<Moment>, fetched: seq<Fetched>)

  predicate IsStart(s: State) {
    s.cache == map[] && |s.past| == 1 && s.fetched == []
  }

  function Now(s: State): Moment
    requires s.past != []
  {
    s.past[|s.past| - 1]
  }

  datatype Op =
    | Fetch(lookup: Lookup)
    | Store(index: nat)
    | Drop(key: string)
    | OwnWrite(write: Write)
    | ForeignWrite(write: Write)
    | Tick(to: int)

  predicate CanDo(s: State, op: Op, latency: nat) {
    && s.past != []
    && match op
       case Fetch(_) => true
       case Store(i) =>
         && i < |s.fetched| && s.fetched[i].moment < |s.past|
         && Now(s).at - s.past[s.fetched[i].moment].at <= latency
         && AnswerOf(s.past[s.fetched[i].moment].db, s.fetched[i].lookup).Some?
       case Drop(_) => true
       case OwnWrite(w) => CanWrite(Now(s).db, w)
       case ForeignWrite(w) => CanWrite(Now(s).db, w)
       case Tick(to) => Now(s).at <= to
  }

  /** Reads expire entries (`Drop`), the process invalidates after its own writes, and nothing happens to the cache
      when others write. */
  function Done(s: State, op: Op, latency: nat): State
    requires CanDo(s, op, latency)
  {
    match op
    case Fetch(l) => s.(fetched := s.fetched + [Fetched(l, |s.past| - 1)])
    case Store(i) =>
      var f := s.fetched[i];
      s.(cache := Set(s.cache, KeyOf(f.lookup), AnswerOf(s.past[f.moment].db, f.lookup).value, Now(s).at))
    case Drop(key) => s.(cache := s.cache - {key})
    case OwnWrite(w) =>
      s.(cache := Invalidated(s.cache, Now(s).db, w), past := s.past + [Moment(Now(s).at, Written(Now(s).db, w))])
    case ForeignWrite(w) => s.(past := s.past + [Moment(Now(s).at, Written(Now(s).db, w))])
    case Tick(to) => s.(past := s.past + [Moment(to, Now(s).db)])
  }

  /** The state after the operations, if each is possible in its turn and no answer is stored more than `latency`
      after it was fetched. */
  function RunOps(s: State, ops: seq<Op>, latency: nat): Option<State> {
    if ops == [] then Some(s)
    else
      var n := |ops| - 1;
      match RunOps(s, ops[..n], latency)
      case None => None
      case Some(mid) => if CanDo(mid, ops[n], latency) then Some(Done(mid, ops[n], latency)) else None
  }

  /** Moment `i` gave the cached answer, and the entry expires at most `TTL` and the latency after it. */
  predicate GaveAnswer(s: State, l: Lookup, latency: nat, i: nat) {
    && i < |s.past| && KeyOf(l) in s.cache
    && AnswerOf(s.past[i].db, l) == Some(s.cache[KeyOf(l)].value)
    && s.cache[KeyOf(l)].expires <= s.past[i].at + latency + TTL
  }

  ghost predicate FromPast(s: State, l: Lookup, latency: nat) {
    KeyOf(l) in s.cache ==> exists i :: GaveAnswer(s, l, latency, i)
  }

  ghost predicate CacheOk(s: State, latency: nat) {
    forall l: Lookup :: FromPast(s, l, latency)
  }

  ghost predicate TimesOk(s: State) {
    s.past != [] && forall i :: 0 <= i < |s.past| ==> s.past[i].at <= Now(s).at
  }

  /** An entry that is kept keeps its moment, however many follow. */
  lemma KeptFromPast(s: State, s': State, latency: nat)
    requires CacheOk(s, latency) && s.past <= s'.past && s'.cache.Keys <= s.cache.Keys
    requires forall key :: key in s'.cache ==> s'.cache[key] == s.cache[key]
    ensures CacheOk(s', latency)
  {
    forall l: Lookup
      ensures FromPast(s', l, latency)
    {
      assert FromPast(s, l, latency);
      if KeyOf(l) in s'.cache {
        var i :| GaveAnswer(s, l, latency, i);
        assert GaveAnswer(s', l, latency, i);
      }
    }
  }

  lemma StoreFromPast(s: State, index: nat, latency: nat)
    requires CacheOk(s, latency) && CanDo(s, Store(index), latency)
    ensures CacheOk(Done(s, Store(index), latency), latency)
  {
    var s', f := Done(s, Store(index), latency), s.fetched[index];
    forall l: Lookup
      ensures FromPast(s', l, latency)
    {
      KeysSeparate(l, f.lookup);
      if l == f.lookup {
        assert GaveAnswer(s', l, latency, f.moment);
      } else {
        assert FromPast(s, l, latency);
        if KeyOf(l) in s.cache {
          var i :| GaveAnswer(s, l, latency, i);
          assert GaveAnswer(s', l, latency, i);
        }
      }
    }
  }

  lemma DoneKeepsCache(s: State, op: Op, latency: nat)
    requires CacheOk(s, latency) && TimesOk(s) && CanDo(s, op, latency)
    ensures CacheOk(Done(s, op, latency), latency) && TimesOk(Done(s, op, latency))
  {
    if op.Store? {
      StoreFromPast(s, op.index, latency);
    } else {
      KeptFromPast(s, Done(s, op, latency), latency);
    }
  }

  lemma {:induction false} RunKeepsCache(s: State, ops: seq<Op>, latency: nat, s': State)
    requires IsStart(s) && RunOps(s, ops, latency) == Some(s')
    ensures CacheOk(s', latency) && TimesOk(s')
  {
    if ops != [] {
      var n := |ops| - 1;
      var mid := RunOps(s, ops[..n], latency).value;
      RunKeepsCache(s, ops[..n], latency, mid);
      DoneKeepsCache(mid, ops[n], latency);
    }
  }

  /** Moment `i` is at most `TTL` and the latency ago. */
  predicate Recent(s: State, latency: nat, i: nat) {
    i < |s.past| && Now(s).at - TTL - latency < s.past[i].at <= Now(s).at
  }

  /** Every cached answer that is used was the database's answer less than `TTL` (and the latency of its fetch) ago,
      whatever was written meanwhile, by whomever. */
  lemma CachedAnswerIsRecent(s: State, ops: seq<Op>, latency: nat, s': State, l: Lookup)
    requires IsStart(s) && RunOps(s, ops, latency) == Some(s') && s'.past != []
    requires Get(s'.cache, KeyOf(l), Now(s').at).1.Some?
    ensures exists i: nat ::
      Recent(s', latency, i) && AnswerOf(s'.past[i].db, l) == Get(s'.cache, KeyOf(l), Now(s').at).1
  {
    RunKeepsCache(s, ops, latency, s');
    assert FromPast(s', l, latency);
    var i :| GaveAnswer(s', l, latency, i);
    assert Recent(s', latency, i);
  }

  /** So each of the enqueue's three lookups answers as the database did at some recent moment. */
  lemma LookupsAreRecent(s: State, ops: seq<Op>, latency: nat, s': State, u: Uuid, e: string, p: int)
    requires IsStart(s) && RunOps(s, ops, latency) == Some(s') && s'.past != []
    ensures exists i: nat ::
      Recent(s', latency, i)
      && LookupEndpoints(s'.cache, Now(s').db, p, e, Now(s').at).1 == FetchEndpoints(s'.past[i].db.endpoints, p, e)
    ensures exists i: nat ::
      Recent(s', latency, i)
      && LookupSchema(s'.cache, Now(s').db, e, Now(s').at).1 == FetchSchema(s'.past[i].db.schemas, e)
    ensures exists i: nat ::
      Recent(s', latency, i)
      && SamePartner(LookupPartner(s'.cache, Now(s').db, u, Now(s').at).1, FetchPartner(s'.past[i].db, u))
  {
    RunKeepsCache(s, ops, latency, s');
    assert Recent(s', latency, |s'.past| - 1);
    if Get(s'.cache, EndpointsKey(p, e), Now(s').at).1.Some? {
      CachedAnswerIsRecent(s, ops, latency, s', EndpointsFor(p, e));
    }
    if Get(s'.cache, SchemaKey(e), Now(s').at).1.Some? {
      CachedAnswerIsRecent(s, ops, latency, s', SchemaFor(e));
    }
    if Get(s'.cache, PartnerKey(u), Now(s').at).1.Some? {
      CachedAnswerIsRecent(s, ops, latency, s', PartnerOf(u));
    }
  }

  /** The same partner, but for the signing secret, which the cache does not keep. */
  predicate SamePartner(a: Option<Partner>, b: Option<Partner>) {
    (a.Some? <==> b.Some?) && (a.Some? ==> CopyPartner(a.value) == CopyPartner(b.value))
  }
}
