/** The per-partner Redis circuit breaker (app/domain/services/circuit_breaker.py): its four keys, its
    calls, and what they guarantee over every trace of calls under a non-decreasing clock. */
module Breaker {
  import opened Wrappers

  datatype CircuitState = CLOSED | OPEN | HALF_OPEN

  datatype Counter = Counter(count: nat, expires: int)

  /** `failures` and `probe` carry the time their TTL ends; a key is present while `now < expires`. */
  datatype Keys = Keys(
    state: Option<CircuitState>,
    openedAt: Option<int>,
    failures: Option<Counter>,
    probe: Option<int>)

  const NO_KEYS := Keys(None, None, None, None)

  datatype RawConfig = Config(threshold: int, window: int, open: int)

  /** Redis accepts only positive TTLs. */
  type Config = c: RawConfig | c.window >= 1 && c.open >= 1 witness RawConfig.Config(10, 60, 300)

  predicate ProbeLive(k: Keys, now: int) {
    k.probe.Some? && now < k.probe.value
  }

  predicate CounterLive(k: Keys, now: int) {
    k.failures.Some? && now < k.failures.value.expires
  }

  /** `get_circuit_state`. */
  function GetState(k: Keys, cfg: Config, now: int): CircuitState {
    if k.state.None? then CLOSED
    else if k.state.value != OPEN then k.state.value
    else if k.openedAt.None? then OPEN
    else if now - k.openedAt.value >= cfg.open then HALF_OPEN
    else OPEN
  }

  /** `allow_outbound`. */
  function Allow(k: Keys, cfg: Config, now: int): (Keys, bool) {
    match GetState(k, cfg, now)
    case CLOSED => (k, true)
    case OPEN => (k, false)
    case HALF_OPEN =>
      var k1 := k.(state := Some(HALF_OPEN));
      if ProbeLive(k, now) then (k1, false) else (k1.(probe := Some(now + cfg.open)), true)
  }

  /** `record_failure`. */
  function Fail(k: Keys, cfg: Config, now: int): (Keys, CircuitState) {
    if GetState(k, cfg, now) == HALF_OPEN then
      (k.(state := Some(OPEN), openedAt := Some(now), probe := None), OPEN)
    else
      var c := if CounterLive(k, now) then Counter(k.failures.value.count + 1, k.failures.value.expires)
               else Counter(1, now + cfg.window);
      var k1 := k.(failures := Some(c));
      if c.count >= cfg.threshold then (k1.(state := Some(OPEN), openedAt := Some(now)), OPEN)
      else (k1, CLOSED)
  }

  /** `record_success`. */
  function Succeed(k: Keys): Keys {
    Keys(Some(CLOSED), None, None, None)
  }

  /** One partner's keys in Redis and the calls that read and write them. */
  class CircuitBreaker {
    var state: Option<CircuitState>
    var openedAt: Option<int>
    var failures: Option<Counter>
    var probe: Option<int>

    function Snapshot(): Keys reads this {
      Keys(state, openedAt, failures, probe)
    }

    constructor ()
      ensures Snapshot() == NO_KEYS
    {
      state, openedAt, failures, probe := None, None, None, None;
    }

    method GetCircuitState(cfg: Config, now: int) returns (r: CircuitState)
      ensures r == GetState(Snapshot(), cfg, now)
    {
      if state.None? { return CLOSED; }
      if state.value != OPEN { return state.value; }
      if openedAt.None? { return OPEN; }
      var elapsed := now - openedAt.value;
      if elapsed >= cfg.open { return HALF_OPEN; }
      return OPEN;
    }

    method AllowOutbound(cfg: Config, now: int) returns (allowed: bool)
      modifies this
      ensures (Snapshot(), allowed) == Allow(old(Snapshot()), cfg, now)
    {
      var current := GetCircuitState(cfg, now);
      if current == CLOSED { return true; }
      if current == OPEN { return false; }
      if state == Some(OPEN) {
        state := Some(HALF_OPEN);
      }
      if probe.Some? && now < probe.value { return false; }
      probe := Some(now + cfg.open);
      return true;
    }

    method RecordFailure(cfg: Config, now: int) returns (r: CircuitState)
      modifies this
      ensures (Snapshot(), r) == Fail(old(Snapshot()), cfg, now)
    {
      var current := GetCircuitState(cfg, now);
      if current == HALF_OPEN {
        state, openedAt, probe := Some(OPEN), Some(now), None;
        return OPEN;
      }
      var live := failures.Some? && now < failures.value.expires;
      var count: nat := if live then failures.value.count + 1 else 1;
      failures := Some(Counter(count, if live then failures.value.expires else now + cfg.window));
      if count >= cfg.threshold {
        state, openedAt := Some(OPEN), Some(now);
        return OPEN;
      }
      return CLOSED;
    }

    method RecordSuccess() returns (r: CircuitState)
      modifies this
      ensures Snapshot() == Succeed(old(Snapshot())) && r == CLOSED
      ensures state == Some(CLOSED) && openedAt == None && failures == None && probe == None
    {
      failures, probe, openedAt := None, None, None;
      state := Some(CLOSED);
      return CLOSED;
    }
  }

  datatype Call = AllowOutbound | RecordFailure | RecordSuccess

  datatype Event = Event(now: int, call: Call)

  function Step(k: Keys, cfg: Config, e: Event): Keys {
    match e.call
    case AllowOutbound => Allow(k, cfg, e.now).0
    case RecordFailure => Fail(k, cfg, e.now).0
    case RecordSuccess => Succeed(k)
  }

  /** The keys before event `i` of a trace that starts with no keys. */
  function At(cfg: Config, trace: seq<Event>, i: nat): Keys
    requires i <= |trace|
  {
    if i == 0 then NO_KEYS else Step(At(cfg, trace, i - 1), cfg, trace[i - 1])
  }

  predicate Monotone(trace: seq<Event>) {
    forall i, j :: 0 <= i <= j < |trace| ==> trace[i].now <= trace[j].now
  }

  predicate Admitted(cfg: Config, trace: seq<Event>, i: nat)
    requires i < |trace|
  {
    trace[i].call == AllowOutbound && Allow(At(cfg, trace, i), cfg, trace[i].now).1
  }

  /** Event `i` is a failure that opens (or re-opens) the breaker. */
  predicate Opens(cfg: Config, trace: seq<Event>, i: nat)
    requires i < |trace|
  {
    trace[i].call == RecordFailure && Fail(At(cfg, trace, i), cfg, trace[i].now).1 == OPEN
  }

  predicate NoSuccess(trace: seq<Event>, from: nat, to: nat)
    requires to <= |trace|
  {
    forall i :: from <= i < to ==> trace[i].call != RecordSuccess
  }

  // ---------------------------------------------------------------- admissions are spaced

  /** No call is admitted before `last + open`. */
  predicate Quiet(k: Keys, cfg: Config, last: int, now: int) {
    match k.state
    case Some(OPEN) => k.openedAt.Some? && k.openedAt.value >= last
    case Some(HALF_OPEN) => now >= last + cfg.open || (k.probe.Some? && k.probe.value >= last + cfg.open)
    case _ => false
  }

  /** While no success is recorded, quiet is kept, and an admitted call starts a new quiet period. */
  lemma QuietStep(k: Keys, cfg: Config, last: int, before: int, e: Event)
    requires Quiet(k, cfg, last, before) && last <= before <= e.now && e.call != RecordSuccess
    ensures e.call == AllowOutbound && Allow(k, cfg, e.now).1 ==>
      e.now >= last + cfg.open && Quiet(Step(k, cfg, e), cfg, e.now, e.now)
    ensures Quiet(Step(k, cfg, e), cfg, last, e.now)
  {
  }

  /** From an opening or admission at `m` on, up to the next success, the breaker stays quiet. */
  lemma {:induction false} QuietSince(cfg: Config, trace: seq<Event>, m: nat, k: nat)
    requires Monotone(trace) && m < k <= |trace| && NoSuccess(trace, m, k)
    requires Quiet(At(cfg, trace, m + 1), cfg, trace[m].now, trace[m].now)
    ensures Quiet(At(cfg, trace, k), cfg, trace[m].now, trace[k - 1].now)
  {
    if k > m + 1 {
      QuietSince(cfg, trace, m, k - 1);
      QuietStep(At(cfg, trace, k - 1), cfg, trace[m].now, trace[k - 2].now, trace[k - 1]);
    }
  }

  lemma OpeningIsQuiet(cfg: Config, trace: seq<Event>, i: nat)
    requires i < |trace| && Opens(cfg, trace, i)
    ensures Quiet(At(cfg, trace, i + 1), cfg, trace[i].now, trace[i].now)
  {
  }

  /** The first call admitted after an opening comes at least `open` later, unless a success was
      recorded in between. */
  lemma FirstAdmissionAfterOpening(cfg: Config, trace: seq<Event>, i: nat, j: nat)
    requires Monotone(trace) && i < j < |trace| && Opens(cfg, trace, i)
    requires NoSuccess(trace, i, j) && Admitted(cfg, trace, j)
    ensures trace[j].now >= trace[i].now + cfg.open
    ensures Quiet(At(cfg, trace, j + 1), cfg, trace[j].now, trace[j].now)
  {
    OpeningIsQuiet(cfg, trace, i);
    QuietSince(cfg, trace, i, j);
    QuietStep(At(cfg, trace, j), cfg, trace[i].now, trace[j - 1].now, trace[j]);
  }

  /** Any two calls admitted between an opening and the next success are at least `open` apart. */
  lemma AdmissionsAreSpaced(cfg: Config, trace: seq<Event>, i: nat, j: nat, k: nat)
    requires Monotone(trace) && i < j < k < |trace| && Opens(cfg, trace, i)
    requires NoSuccess(trace, i, k) && Admitted(cfg, trace, j) && Admitted(cfg, trace, k)
    ensures trace[j].now >= trace[i].now + cfg.open && trace[k].now >= trace[j].now + cfg.open
  {
    FirstAdmissionAfterOpening(cfg, trace, i, j);
    QuietSince(cfg, trace, j, k);
    QuietStep(At(cfg, trace, k), cfg, trace[j].now, trace[k - 1].now, trace[k]);
  }

  // ---------------------------------------------------------------- the breaker never sticks

  /** A stored OPEN has its opening time, a live probe exists only in HALF_OPEN, and no probe outlives
      `open` from now. */
  predicate Sane(k: Keys, cfg: Config, now: int) {
    && (k.state == Some(OPEN) ==> k.openedAt.Some? && k.openedAt.value <= now)
    && (ProbeLive(k, now) ==> k.state == Some(HALF_OPEN))
    && (k.probe.Some? ==> k.probe.value <= now + cfg.open)
  }

  lemma {:induction false} AlwaysSane(cfg: Config, trace: seq<Event>, i: nat, now: int)
    requires Monotone(trace) && i <= |trace| && (i > 0 ==> trace[i - 1].now <= now)
    ensures Sane(At(cfg, trace, i), cfg, now)
  {
    if i > 0 {
      AlwaysSane(cfg, trace, i - 1, trace[i - 1].now);
    }
  }

  /** In a sane state a refused call changes nothing. */
  lemma RefusalChangesNothing(k: Keys, cfg: Config, now: int)
    requires Sane(k, cfg, now) && !Allow(k, cfg, now).1
    ensures Allow(k, cfg, now).0 == k
  {
  }

  predicate Refused(cfg: Config, trace: seq<Event>, i: nat)
    requires i < |trace|
  {
    trace[i].call == AllowOutbound && !Admitted(cfg, trace, i)
  }

  lemma RefusedEvent(cfg: Config, trace: seq<Event>, i: nat)
    requires Monotone(trace) && i < |trace| && Refused(cfg, trace, i)
    ensures At(cfg, trace, i + 1) == At(cfg, trace, i)
  {
    AlwaysSane(cfg, trace, i, trace[i].now);
    RefusalChangesNothing(At(cfg, trace, i), cfg, trace[i].now);
  }

  lemma {:induction false} RefusalsChangeNothing(cfg: Config, trace: seq<Event>, a: nat, b: nat)
    requires Monotone(trace) && a <= b <= |trace|
    requires forall i {:trigger Refused(cfg, trace, i)} :: a <= i < b ==> Refused(cfg, trace, i)
    ensures At(cfg, trace, b) == At(cfg, trace, a)
  {
    if a < b {
      RefusalsChangeNothing(cfg, trace, a, b - 1);
      RefusedEvent(cfg, trace, b - 1);
    }
  }

  /** From every reachable state, at time `since`: if nothing is recorded for `open` and
      `allow_outbound` is called at or after the end of that time, some call since then was admitted. */
  lemma NeverSticks(cfg: Config, trace: seq<Event>, a: nat, b: nat, since: int)
    requires Monotone(trace) && a <= b < |trace|
    requires (a > 0 ==> trace[a - 1].now <= since) && since + cfg.open <= trace[b].now
    requires forall i :: a <= i <= b ==> trace[i].call == AllowOutbound
    ensures exists i :: a <= i <= b && Admitted(cfg, trace, i)
  {
    if forall i :: a <= i <= b ==> !Admitted(cfg, trace, i) {
      assert forall i {:trigger Refused(cfg, trace, i)} :: a <= i < b ==> Refused(cfg, trace, i);
      RefusalsChangeNothing(cfg, trace, a, b);
      AlwaysSane(cfg, trace, a, since);
      AlwaysSane(cfg, trace, b, trace[b].now);
      assert Admitted(cfg, trace, b);
    }
  }

  // ---------------------------------------------------------------- every opening is justified

  /** Failures that reach the counter: those recorded while the breaker is not half-open. */
  predicate Counted(cfg: Config, trace: seq<Event>, i: nat)
    requires i < |trace|
  {
    trace[i].call == RecordFailure && GetState(At(cfg, trace, i), cfg, trace[i].now) != HALF_OPEN
  }

  function CountedIn(cfg: Config, trace: seq<Event>, from: nat, to: nat): nat
    requires to <= |trace|
  {
    if to <= from then 0
    else CountedIn(cfg, trace, from, to - 1) + (if Counted(cfg, trace, to - 1) then 1 else 0)
  }

  /** `f` began the counter's window: the counter holds the counted failures since `f`, no success came
      since, and the window ends `window` after `f`. */
  predicate WindowBegan(cfg: Config, trace: seq<Event>, f: nat, i: nat, c: Counter)
    requires i <= |trace|
  {
    && f < i && Counted(cfg, trace, f) && NoSuccess(trace, f, i)
    && c.expires == trace[f].now + cfg.window
    && c.count == CountedIn(cfg, trace, f, i)
  }

  lemma {:induction false} CounterMeaning(cfg: Config, trace: seq<Event>, i: nat) returns (f: nat)
    requires Monotone(trace) && i <= |trace| && At(cfg, trace, i).failures.Some?
    ensures WindowBegan(cfg, trace, f, i, At(cfg, trace, i).failures.value)
  {
    var k, e := At(cfg, trace, i - 1), trace[i - 1];
    if Counted(cfg, trace, i - 1) && !CounterLive(k, e.now) {
      f := i - 1;
      assert CountedIn(cfg, trace, f, f) == 0;
    } else {
      f := CounterMeaning(cfg, trace, i - 1);
    }
  }

  /** Every change from CLOSED to OPEN is justified: at least `threshold` failures were recorded within
      the last `window`, with no success among them. */
  lemma OpeningIsJustified(cfg: Config, trace: seq<Event>, i: nat) returns (f: nat)
    requires Monotone(trace) && i < |trace| && Opens(cfg, trace, i)
    requires GetState(At(cfg, trace, i), cfg, trace[i].now) == CLOSED
    ensures f <= i && trace[i].now - trace[f].now < cfg.window
    ensures NoSuccess(trace, f, i + 1) && CountedIn(cfg, trace, f, i + 1) >= cfg.threshold
  {
    f := CounterMeaning(cfg, trace, i + 1);
    if CounterLive(At(cfg, trace, i), trace[i].now) {
      assert At(cfg, trace, i + 1).failures.value.expires == At(cfg, trace, i).failures.value.expires;
    }
  }

  // ---------------------------------------------------------------- the breaker does open, and only then refuses

  /** The failures recorded by events `from` to `to - 1`. */
  function FailuresIn(trace: seq<Event>, from: nat, to: nat): nat
    requires to <= |trace|
  {
    if to <= from then 0
    else FailuresIn(trace, from, to - 1) + (if trace[to - 1].call == RecordFailure then 1 else 0)
  }

  /** The breaker is stored as closed, or not at all. */
  predicate StoredClosed(k: Keys) {
    k.state == None || k.state == Some(CLOSED)
  }

  ghost predicate NoneOpens(cfg: Config, trace: seq<Event>, from: nat, to: nat)
    requires to <= |trace|
  {
    forall i {:trigger Opens(cfg, trace, i)} :: from <= i < to ==> !Opens(cfg, trace, i)
  }

  /** As long as nothing opens it, a closed breaker stays closed. */
  lemma {:induction false} StaysClosed(cfg: Config, trace: seq<Event>, f: nat, i: nat)
    requires f <= i <= |trace| && StoredClosed(At(cfg, trace, f)) && NoneOpens(cfg, trace, f, i)
    ensures StoredClosed(At(cfg, trace, i))
  {
    if f < i {
      StaysClosed(cfg, trace, f, i - 1);
      assert !Opens(cfg, trace, i - 1);
    }
  }

  /** From a failure at `f` that starts a new window, a closed breaker counts every failure in that window. */
  lemma {:induction false} CountsFailures(cfg: Config, trace: seq<Event>, f: nat, i: nat)
    requires Monotone(trace) && f < i <= |trace| && trace[f].call == RecordFailure
    requires StoredClosed(At(cfg, trace, f)) && !CounterLive(At(cfg, trace, f), trace[f].now)
    requires NoSuccess(trace, f, i) && trace[i - 1].now < trace[f].now + cfg.window && NoneOpens(cfg, trace, f, i)
    ensures At(cfg, trace, i).failures == Some(Counter(FailuresIn(trace, f, i), trace[f].now + cfg.window))
  {
    StaysClosed(cfg, trace, f, i - 1);
    assert !Opens(cfg, trace, i - 1);
    if i > f + 1 {
      CountsFailures(cfg, trace, f, i - 1);
    } else {
      assert FailuresIn(trace, f, f) == 0;
    }
  }

  /** The breaker opens: if at least `threshold` failures (and at least one) are recorded within one window that a
      closed breaker begins at `f`, with no success among them, then one of them opens it. */
  lemma {:induction false} ThresholdOpens(cfg: Config, trace: seq<Event>, f: nat, i: nat) returns (j: nat)
    requires Monotone(trace) && f <= i < |trace| && trace[f].call == RecordFailure
    requires StoredClosed(At(cfg, trace, f)) && !CounterLive(At(cfg, trace, f), trace[f].now)
    requires NoSuccess(trace, f, i + 1) && trace[i].now < trace[f].now + cfg.window
    requires FailuresIn(trace, f, i + 1) >= cfg.threshold
    ensures f <= j <= i && Opens(cfg, trace, j)
  {
    if j0 :| f <= j0 <= i && Opens(cfg, trace, j0) {
      j := j0;
    } else {
      LastFailureOpens(cfg, trace, f, i);
      assert false;
    }
  }

  lemma {:induction false} LastFailureOpens(cfg: Config, trace: seq<Event>, f: nat, i: nat)
    requires Monotone(trace) && f <= i < |trace| && trace[f].call == RecordFailure
    requires StoredClosed(At(cfg, trace, f)) && !CounterLive(At(cfg, trace, f), trace[f].now)
    requires NoSuccess(trace, f, i + 1) && trace[i].now < trace[f].now + cfg.window
    requires FailuresIn(trace, f, i + 1) >= cfg.threshold && NoneOpens(cfg, trace, f, i)
    ensures !NoneOpens(cfg, trace, f, i + 1)
  {
    if trace[i].call == RecordFailure {
      StaysClosed(cfg, trace, f, i);
      if f < i {
        CountsFailures(cfg, trace, f, i);
      } else {
        assert FailuresIn(trace, f, f) == 0;
      }
      assert Opens(cfg, trace, i);
    } else {
      assert NoneOpens(cfg, trace, f, i - 1);
      LastFailureOpens(cfg, trace, f, i - 1);
    }
  }

  /** In whatever state short of half-open: a failure that brings the counter of a live window to the threshold opens
      the breaker, or, if it is open already, opens it anew. */
  lemma CounterOpens(cfg: Config, trace: seq<Event>, i: nat) returns (f: nat)
    requires Monotone(trace) && i < |trace| && Counted(cfg, trace, i) && CounterLive(At(cfg, trace, i), trace[i].now)
    ensures WindowBegan(cfg, trace, f, i, At(cfg, trace, i).failures.value)
    ensures Opens(cfg, trace, i) <==> CountedIn(cfg, trace, f, i + 1) >= cfg.threshold
    ensures Opens(cfg, trace, i) ==> Quiet(At(cfg, trace, i + 1), cfg, trace[i].now, trace[i].now)
  {
    f := CounterMeaning(cfg, trace, i);
  }

  /** A failure recorded while half-open always opens the breaker again. */
  lemma HalfOpenFailureReopens(cfg: Config, trace: seq<Event>, i: nat)
    requires i < |trace| && trace[i].call == RecordFailure
    requires GetState(At(cfg, trace, i), cfg, trace[i].now) == HALF_OPEN
    ensures Opens(cfg, trace, i)
  {
  }

  /** Once open, it refuses every call until `open` has passed or a success is recorded. */
  lemma RefusesWhileOpen(cfg: Config, trace: seq<Event>, i: nat, j: nat)
    requires Monotone(trace) && i < j < |trace| && Opens(cfg, trace, i) && NoSuccess(trace, i, j)
    requires trace[j].now < trace[i].now + cfg.open
    ensures !Admitted(cfg, trace, j)
  {
    if Admitted(cfg, trace, j) {
      FirstAdmissionAfterOpening(cfg, trace, i, j);
    }
  }

  /** Together: enough failures in one window, and every call of the next `open` is refused unless a success is
      recorded. */
  lemma FailuresStopCalls(cfg: Config, trace: seq<Event>, f: nat, i: nat, k: nat)
    requires Monotone(trace) && f <= i < k < |trace| && trace[f].call == RecordFailure
    requires StoredClosed(At(cfg, trace, f)) && !CounterLive(At(cfg, trace, f), trace[f].now)
    requires NoSuccess(trace, f, k) && trace[i].now < trace[f].now + cfg.window
    requires FailuresIn(trace, f, i + 1) >= cfg.threshold && trace[k].now < trace[f].now + cfg.open
    ensures !Admitted(cfg, trace, k)
  {
    var j := ThresholdOpens(cfg, trace, f, i);
    RefusesWhileOpen(cfg, trace, j, k);
  }

  /** A call is admitted whenever no failure has opened the breaker since the last success, or since the start. */
  lemma AdmitsWhileClosed(cfg: Config, trace: seq<Event>, s: nat, i: nat)
    requires s <= i < |trace| && trace[i].call == AllowOutbound
    requires s == 0 || trace[s - 1].call == RecordSuccess
    requires NoneOpens(cfg, trace, s, i)
    ensures Admitted(cfg, trace, i)
  {
    StaysClosed(cfg, trace, s, i);
  }
}
