/** Idempotent acceptance of inbound webhooks (app/api/v1/inbound/events.py, `ingest_event`, and
    app/domain/services/idempotency.py): the unique constraint, the outbox row and the Redis cache. */
module Inbound {
  import opened Wrappers
  import opened Text

  type EventId = nat

  /** An inbound_events row, unique by partner and idempotency key. */
  datatype Event = Event(id: EventId, partner: int, key: string)

  datatype CachedId = CachedId(expires: int, id: EventId)

  /** `outbox` lists the event ids named by the envelopes of the inbound outbox rows. */
  datatype Store = Store(events: seq<Event>, outbox: seq<EventId>, redis: map<string, CachedId>)

  const EMPTY := Store([], [], map[])

  /** No client configured, or a client whose calls work, fail when read, or fail when written. */
  datatype RedisMode = NoClient | Works | GetRaises | SetRaises

  datatype Request = Request(partner: int, key: string, now: int, ttl: int, mode: RedisMode, newId: EventId)

  datatype Answer = Accepted(id: EventId) | Duplicate(id: EventId) | Conflict | ServerError

  /** `fetch_inbound_event_by_idempotency`. */
  function Find(events: seq<Event>, partner: int, key: string): Option<EventId> {
    if events == [] then None
    else
      var before, last := Find(events[..|events| - 1], partner, key), events[|events| - 1];
      if before.Some? then before
      else if last.partner == partner && last.key == key then Some(last.id) else None
  }

  predicate IdTaken(events: seq<Event>, id: EventId) {
    exists i :: 0 <= i < |events| && events[i].id == id
  }

  /** `get_cached_event_id`; an expired entry is absent. */
  function CachedEventId(s: Store, r: Request): Option<EventId> {
    var name := IdempotencyRedisKey(r.partner, r.key);
    if name in s.redis && r.now < s.redis[name].expires then Some(s.redis[name].id) else None
  }

  /** The idempotency and persistence part of `ingest_event`. */
  function Ingest(s: Store, r: Request): (Store, Answer) {
    if r.mode == GetRaises then (s, ServerError)
    else if r.mode != NoClient && CachedEventId(s, r).Some? then (s, Duplicate(CachedEventId(s, r).value))
    else
      var existing := Find(s.events, r.partner, r.key);
      if existing.Some? then (s, Duplicate(existing.value))
      else if IdTaken(s.events, r.newId) then (s, Conflict)
      else
        var s1 := s.(events := s.events + [Event(r.newId, r.partner, r.key)], outbox := s.outbox + [r.newId]);
        match r.mode
        case NoClient => (s1, Accepted(r.newId))
        case SetRaises => (s1, ServerError)
        case _ =>
          (s1.(redis := s1.redis[IdempotencyRedisKey(r.partner, r.key) := CachedId(r.now + r.ttl, r.newId)]),
           Accepted(r.newId))
  }

  class InboundEndpoint {
    var events: seq<Event>
    var outbox: seq<EventId>
    var redis: map<string, CachedId>

    function Snapshot(): Store reads this { Store(events, outbox, redis) }

    constructor ()
      ensures Snapshot() == EMPTY
    {
      events, outbox, redis := [], [], map[];
    }

    /** `session.add` and `session.flush`: false on a unique violation, which rolls back. */
    method FlushInbound(e: Event) returns (ok: bool)
      modifies this`events
      ensures ok <==> Find(old(events), e.partner, e.key).None? && !IdTaken(old(events), e.id)
      ensures events == if ok then old(events) + [e] else old(events)
    {
      ok := Find(events, e.partner, e.key).None? && !IdTaken(events, e.id);
      if ok {
        events := events + [e];
      }
    }

    method IngestEvent(r: Request) returns (a: Answer)
      modifies this
      ensures (Snapshot(), a) == Ingest(old(Snapshot()), r)
    {
      var name := IdempotencyRedisKey(r.partner, r.key);
      if r.mode == GetRaises { return ServerError; }
      if r.mode != NoClient && name in redis && r.now < redis[name].expires {
        return Duplicate(redis[name].id);
      }
      var ok := FlushInbound(Event(r.newId, r.partner, r.key));
      if !ok {
        var existing := Find(events, r.partner, r.key);
        if existing.None? { return Conflict; }
        return Duplicate(existing.value);
      }
      outbox := outbox + [r.newId];
      if r.mode == SetRaises { return ServerError; }
      if r.mode == Works {
        redis := redis[name := CachedId(r.now + r.ttl, r.newId)];
      }
      return Accepted(r.newId);
    }
  }

  // ---------------------------------------------------------------- every request trace

  /** A request, or the loss of any set of Redis entries (expiry, eviction, restart). */
  datatype Op = Serve(request: Request) | Lose(names: set<string>)

  datatype Answered = Answered(partner: int, key: string, answer: Answer)

  datatype History = History(store: Store, answers: seq<Answered>)

  function StepOp(h: History, op: Op): History {
    match op
    case Serve(r) =>
      var (s, a) := Ingest(h.store, r);
      History(s, h.answers + [Answered(r.partner, r.key, a)])
    case Lose(names) => h.(store := h.store.(redis := h.store.redis - names))
  }

  function Run(ops: seq<Op>): History {
    if ops == [] then History(EMPTY, []) else StepOp(Run(ops[..|ops| - 1]), ops[|ops| - 1])
  }

  /** Generated event ids are never repeated. */
  ghost predicate FreshIds(ops: seq<Op>) {
    forall i, j :: 0 <= i < j < |ops| && ops[i].Serve? && ops[j].Serve? ==> ops[i].request.newId != ops[j].request.newId
  }

  /** Each pair and each id is stored once, and every event has its own outbox row. */
  ghost predicate EventsOk(s: Store) {
    && s.outbox == seq(|s.events|, i requires 0 <= i < |s.events| => s.events[i].id)
    && (forall i :: 0 <= i < |s.events| ==>
          Find(s.events, s.events[i].partner, s.events[i].key) == Some(s.events[i].id))
    && (forall i, j :: 0 <= i < j < |s.events| ==>
          && s.events[i].id != s.events[j].id
          && (s.events[i].partner, s.events[i].key) != (s.events[j].partner, s.events[j].key))
  }

  /** Every cached id is the id of the database row for that pair. */
  ghost predicate RedisOk(s: Store) {
    forall p: int, k: string :: IdempotencyRedisKey(p, k) in s.redis ==>
      Find(s.events, p, k) == Some(s.redis[IdempotencyRedisKey(p, k)].id)
  }

  /** Every accepted or duplicate answer carries the id stored for its pair. */
  ghost predicate AnswersOk(h: History) {
    forall i :: 0 <= i < |h.answers| ==>
      var a := h.answers[i];
      && !a.answer.Conflict?
      && (a.answer.Accepted? || a.answer.Duplicate? ==> Find(h.store.events, a.partner, a.key) == Some(a.answer.id))
  }

  /** The stored event ids all come from requests served so far. */
  ghost predicate IdsServed(s: Store, ops: seq<Op>) {
    forall i :: 0 <= i < |s.events| ==> IdServed(ops, s.events[i].id)
  }

  ghost predicate IdServed(ops: seq<Op>, id: EventId) {
    exists j :: 0 <= j < |ops| && ops[j].Serve? && ops[j].request.newId == id
  }

  /** The pair's only event, at `n`, has this id and its own outbox row. */
  ghost predicate OnlyEvent(s: Store, n: nat, p: int, k: string, id: EventId) {
    && |s.outbox| == |s.events| && n < |s.events|
    && s.events[n] == Event(id, p, k) && s.outbox[n] == id
    && forall m :: 0 <= m < |s.events| && m != n ==> s.events[m].partner != p || s.events[m].key != k
  }

  lemma FindAppend(events: seq<Event>, e: Event, p: int, k: string)
    ensures Find(events + [e], p, k)
         == if Find(events, p, k).Some? then Find(events, p, k)
            else if e.partner == p && e.key == k then Some(e.id) else None
  {
    assert (events + [e])[..|events|] == events;
  }

  lemma {:induction false} FindNone(events: seq<Event>, p: int, k: string, i: nat)
    requires Find(events, p, k).None? && i < |events|
    ensures events[i].partner != p || events[i].key != k
  {
    if i < |events| - 1 {
      FindNone(events[..|events| - 1], p, k, i);
    }
  }

  lemma InsertKeepsEvents(s: Store, e: Event)
    requires EventsOk(s) && Find(s.events, e.partner, e.key).None? && !IdTaken(s.events, e.id)
    ensures EventsOk(s.(events := s.events + [e], outbox := s.outbox + [e.id]))
  {
    var s' := s.(events := s.events + [e], outbox := s.outbox + [e.id]);
    forall i | 0 <= i < |s'.events|
      ensures Find(s'.events, s'.events[i].partner, s'.events[i].key) == Some(s'.events[i].id)
    {
      FindAppend(s.events, e, s'.events[i].partner, s'.events[i].key);
    }
    forall i | 0 <= i < |s.events|
      ensures s.events[i].id != e.id && (s.events[i].partner, s.events[i].key) != (e.partner, e.key)
    {
      FindNone(s.events, e.partner, e.key, i);
    }
  }

  lemma InsertKeepsRedis(s: Store, e: Event)
    requires RedisOk(s)
    ensures RedisOk(s.(events := s.events + [e], outbox := s.outbox + [e.id]))
  {
    forall p: int, k: string
      ensures Find(s.events, p, k).Some? ==> Find(s.events + [e], p, k) == Find(s.events, p, k)
    {
      FindAppend(s.events, e, p, k);
    }
  }

  lemma CacheKeepsRedis(s: Store, p: int, k: string, entry: CachedId)
    requires RedisOk(s) && Find(s.events, p, k) == Some(entry.id)
    ensures RedisOk(s.(redis := s.redis[IdempotencyRedisKey(p, k) := entry]))
  {
    forall q: int, l: string
      ensures IdempotencyRedisKey(q, l) == IdempotencyRedisKey(p, k) <==> q == p && l == k
    {
      RedisKeyInjective(q, l, p, k);
    }
  }

  lemma IngestKeepsStore(s: Store, r: Request)
    requires EventsOk(s) && RedisOk(s) && !IdTaken(s.events, r.newId)
    ensures var (s', a) := Ingest(s, r);
      && EventsOk(s') && RedisOk(s') && !a.Conflict?
      && (a.Accepted? || a.Duplicate? ==> Find(s'.events, r.partner, r.key) == Some(a.id))
      && (forall p: int, k: string :: Find(s.events, p, k).Some? ==> Find(s'.events, p, k) == Find(s.events, p, k))
      && (s'.events == s.events || s'.events == s.events + [Event(r.newId, r.partner, r.key)])
      && (a.Accepted? ==> Find(s.events, r.partner, r.key).None?)
  {
    if Find(s.events, r.partner, r.key).None? {
      var e := Event(r.newId, r.partner, r.key);
      InsertKeepsEvents(s, e);
      InsertKeepsRedis(s, e);
      FindAppend(s.events, e, r.partner, r.key);
      forall p: int, k: string
        ensures Find(s.events, p, k).Some? ==> Find(s.events + [e], p, k) == Find(s.events, p, k)
      {
        FindAppend(s.events, e, p, k);
      }
      var s1 := s.(events := s.events + [e], outbox := s.outbox + [e.id]);
      CacheKeepsRedis(s1, r.partner, r.key, CachedId(r.now + r.ttl, r.newId));
    }
  }

  /** Is an event stored for the pair? */
  predicate IsKnown(events: seq<Event>, p: int, k: string) {
    exists i :: 0 <= i < |events| && events[i].partner == p && events[i].key == k
  }

  lemma KnownIffFound(events: seq<Event>, p: int, k: string)
    ensures Find(events, p, k).Some? <==> IsKnown(events, p, k)
  {
    if Find(events, p, k).Some? {
      var n := FindIndex(events, p, k);
    } else {
      forall i | 0 <= i < |events| ensures events[i].partner != p || events[i].key != k { FindNone(events, p, k, i); }
    }
  }

  /** Which answer a request gets, and what it changes. If Redis cannot be read nothing happens. A known pair is a
      duplicate and changes nothing. A new pair is stored with its outbox row; it is accepted, and cached until its
      time to live ends if there is a Redis client, but if that write raises the answer is an error after the commit. */
  lemma IngestCases(s: Store, r: Request)
    requires EventsOk(s) && RedisOk(s) && !IdTaken(s.events, r.newId)
    ensures var (s', a) := Ingest(s, r);
      if r.mode == GetRaises then s' == s && a == ServerError
      else if IsKnown(s.events, r.partner, r.key) then s' == s && a.Duplicate?
      else
        && s'.events == s.events + [Event(r.newId, r.partner, r.key)] && s'.outbox == s.outbox + [r.newId]
        && (a == Accepted(r.newId) <==> r.mode != SetRaises) && (a == ServerError <==> r.mode == SetRaises)
        && s'.redis == if r.mode != Works then s.redis
                       else s.redis["inbound:idempotency:" + Decimal(r.partner) + ":" + r.key :=
                                      CachedId(r.now + r.ttl, r.newId)]
  {
    KnownIffFound(s.events, r.partner, r.key);
  }

  /** A cached id is used exactly until its time to live ends. */
  lemma CachedUntilExpiry(s: Store, r: Request, later: Request)
    requires EventsOk(s) && RedisOk(s) && !IdTaken(s.events, r.newId)
    requires Ingest(s, r).1.Accepted? && r.mode == Works && later.partner == r.partner && later.key == r.key
    ensures CachedEventId(Ingest(s, r).0, later) == if later.now < r.now + r.ttl then Some(r.newId) else None
  {
  }

  ghost predicate HistoryOk(h: History, ops: seq<Op>) {
    EventsOk(h.store) && RedisOk(h.store) && AnswersOk(h) && IdsServed(h.store, ops)
  }

  /** A request's new id is not yet stored. */
  lemma NewIdIsFree(s: Store, front: seq<Op>, r: Request)
    requires IdsServed(s, front) && FreshIds(front + [Serve(r)])
    ensures !IdTaken(s.events, r.newId)
  {
    var ops := front + [Serve(r)];
    forall i | 0 <= i < |s.events|
      ensures s.events[i].id != r.newId
    {
      assert IdServed(front, s.events[i].id);
      var j :| 0 <= j < |front| && front[j].Serve? && front[j].request.newId == s.events[i].id;
      assert ops[j] == front[j] && ops[|front|] == Serve(r);
    }
  }

  lemma AnswersKept(h: History, r: Request)
    requires EventsOk(h.store) && RedisOk(h.store) && AnswersOk(h) && !IdTaken(h.store.events, r.newId)
    ensures AnswersOk(StepOp(h, Serve(r)))
  {
    IngestKeepsStore(h.store, r);
    var h' := StepOp(h, Serve(r));
    forall i | 0 <= i < |h'.answers|
      ensures var a := h'.answers[i];
        && !a.answer.Conflict?
        && (a.answer.Accepted? || a.answer.Duplicate? ==> Find(h'.store.events, a.partner, a.key) == Some(a.answer.id))
    {
      assert i < |h.answers| ==> h'.answers[i] == h.answers[i];
    }
  }

  lemma ServeOk(h: History, front: seq<Op>, r: Request)
    requires HistoryOk(h, front) && FreshIds(front + [Serve(r)])
    ensures HistoryOk(StepOp(h, Serve(r)), front + [Serve(r)])
  {
    NewIdIsFree(h.store, front, r);
    AnswersKept(h, r);
    IngestKeepsStore(h.store, r);
    ServedIdsKept(h.store, Ingest(h.store, r).0, front, front + [Serve(r)], r);
  }

  lemma LoseOk(h: History, front: seq<Op>, names: set<string>)
    requires HistoryOk(h, front)
    ensures HistoryOk(StepOp(h, Lose(names)), front + [Lose(names)])
  {
    var ops := front + [Lose(names)];
    forall i | 0 <= i < |h.store.events|
      ensures IdServed(ops, h.store.events[i].id)
    {
      assert IdServed(front, h.store.events[i].id);
      var j :| 0 <= j < |front| && front[j].Serve? && front[j].request.newId == h.store.events[i].id;
      assert ops[j] == front[j];
    }
  }

  lemma {:induction false} RunOk(ops: seq<Op>)
    requires FreshIds(ops)
    ensures EventsOk(Run(ops).store) && RedisOk(Run(ops).store) && AnswersOk(Run(ops)) && IdsServed(Run(ops).store, ops)
  {
    if ops != [] {
      var front := ops[..|ops| - 1];
      RunOk(front);
      assert ops == front + [ops[|ops| - 1]];
      match ops[|ops| - 1]
      case Lose(names) => LoseOk(Run(front), front, names);
      case Serve(r) => ServeOk(Run(front), front, r);
    }
  }

  lemma ServedIdsKept(s: Store, s': Store, front: seq<Op>, ops: seq<Op>, r: Request)
    requires IdsServed(s, front) && ops == front + [Serve(r)]
    requires s'.events == s.events || s'.events == s.events + [Event(r.newId, r.partner, r.key)]
    ensures IdsServed(s', ops)
  {
    forall i | 0 <= i < |s'.events|
      ensures IdServed(ops, s'.events[i].id)
    {
      if i < |s.events| {
        assert IdServed(front, s.events[i].id);
        var j :| 0 <= j < |front| && front[j].Serve? && front[j].request.newId == s.events[i].id;
        assert ops[j] == front[j];
      } else {
        assert ops[|front|] == Serve(r);
      }
    }
  }

  /** Inbound idempotency over every request trace, with Redis absent, failing or losing entries at
      will: all accepted and duplicate answers for one partner and key carry one event id, which is the
      id of the only event stored for that pair, with exactly one outbox row; 409 is never answered. */
  lemma OneEventPerKey(ops: seq<Op>, i: nat, j: nat)
    requires FreshIds(ops) && i < |Run(ops).answers| && j < |Run(ops).answers|
    requires var a, b := Run(ops).answers[i], Run(ops).answers[j];
      && a.partner == b.partner && a.key == b.key
      && (a.answer.Accepted? || a.answer.Duplicate?) && (b.answer.Accepted? || b.answer.Duplicate?)
    ensures Run(ops).answers[i].answer.id == Run(ops).answers[j].answer.id
    ensures var a := Run(ops).answers[i];
      exists n :: OnlyEvent(Run(ops).store, n, a.partner, a.key, a.answer.id)
    ensures forall k :: 0 <= k < |Run(ops).answers| ==> !Run(ops).answers[k].answer.Conflict?
  {
    RunOk(ops);
    var s, a := Run(ops).store, Run(ops).answers[i];
    var n := FindIndex(s.events, a.partner, a.key);
    assert OnlyEvent(s, n, a.partner, a.key, a.answer.id);
  }

  lemma {:induction false} FindIndex(events: seq<Event>, p: int, k: string) returns (n: nat)
    requires Find(events, p, k).Some?
    ensures n < |events| && events[n] == Event(Find(events, p, k).value, p, k)
  {
    if Find(events[..|events| - 1], p, k).Some? {
      n := FindIndex(events[..|events| - 1], p, k);
    } else {
      n := |events| - 1;
    }
  }

  /** At most one request per partner and key is answered `accepted`. */
  lemma {:induction false} AcceptedOnce(ops: seq<Op>, i: nat, j: nat)
    requires FreshIds(ops) && i < j < |Run(ops).answers|
    requires var a, b := Run(ops).answers[i], Run(ops).answers[j]; a.partner == b.partner && a.key == b.key
    requires Run(ops).answers[i].answer.Accepted?
    ensures !Run(ops).answers[j].answer.Accepted?
  {
    var front, op := ops[..|ops| - 1], ops[|ops| - 1];
    assert FreshIds(front);
    if j < |Run(front).answers| {
      AcceptedOnce(front, i, j);
    } else {
      RunOk(front);
      RunOk(ops);
      assert Find(Run(front).store.events, Run(front).answers[i].partner, Run(front).answers[i].key).Some?;
    }
  }
}
