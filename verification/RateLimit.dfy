/** The per-partner Redis token bucket (app/domain/services/rate_limit.py), over real-valued time. */
module RateLimit {
  import opened Wrappers

  /** The two keys; the call treats the bucket as new unless both are present. */
  datatype Keys = Keys(tokens: Option<real>, ts: Option<real>)

  const NO_KEYS := Keys(None, None)

  function Min(a: real, b: real): real { if a <= b then a else b }

  /** The tokens that flow in during `elapsed`. */
  function Inflow(elapsed: real, rps: int): real { elapsed * rps as real }

  /** The level the stored keys stand for at time `now`, before a call takes its token. */
  function Level(k: Keys, rps: int, now: real): real {
    if k.tokens.None? || k.ts.None? then rps as real
    else
      var elapsed := now - k.ts.value;
      if elapsed > 0.0 then Min(rps as real, k.tokens.value + Inflow(elapsed, rps)) else k.tokens.value
  }

  /** `allow_request` with Redis up. */
  function Allow(k: Keys, rps: int, now: real): (Keys, bool) {
    if rps <= 0 then (k, false)
    else
      var level := Level(k, rps, now);
      if level < 1.0 then (Keys(Some(level), Some(now)), false)
      else (Keys(Some(level - 1.0), Some(now)), true)
  }

  class TokenBucket {
    var tokens: Option<real>
    var ts: Option<real>

    function Snapshot(): Keys reads this { Keys(tokens, ts) }

    constructor ()
      ensures Snapshot() == NO_KEYS
    {
      tokens, ts := None, None;
    }

    method AllowRequest(rps: int, now: real) returns (allowed: bool)
      modifies this
      ensures (Snapshot(), allowed) == Allow(old(Snapshot()), rps, now)
    {
      if rps <= 0 { return false; }
      var burst := rps as real;
      if tokens.None? || ts.None? {
        tokens, ts := Some(burst - 1.0), Some(now);
        return true;
      }
      var level := tokens.value;
      var elapsed := now - ts.value;
      if elapsed > 0.0 {
        level := Min(burst, level + Inflow(elapsed, rps));
      }
      if level < 1.0 {
        tokens, ts := Some(level), Some(now);
        return false;
      }
      tokens, ts := Some(level - 1.0), Some(now);
      return true;
    }
  }

  /** A trace is the sequence of call times; `At` gives the keys before call `i`. */
  function At(rps: int, trace: seq<real>, i: nat): Keys
    requires i <= |trace|
  {
    if i == 0 then NO_KEYS else Allow(At(rps, trace, i - 1), rps, trace[i - 1]).0
  }

  predicate Monotone(trace: seq<real>) {
    forall i, j :: 0 <= i <= j < |trace| ==> trace[i] <= trace[j]
  }

  predicate Allowed(rps: int, trace: seq<real>, i: nat)
    requires i < |trace|
  {
    Allow(At(rps, trace, i), rps, trace[i]).1
  }

  function AllowedIn(rps: int, trace: seq<real>, from: nat, to: nat): nat
    requires to <= |trace|
  {
    if to <= from then 0
    else AllowedIn(rps, trace, from, to - 1) + (if Allowed(rps, trace, to - 1) then 1 else 0)
  }

  /** The bucket stays between empty and full ... */
  predicate TokensOk(k: Keys, rps: int) {
    && (k.tokens.Some? <==> k.ts.Some?)
    && (k.tokens.Some? ==> 0.0 <= k.tokens.value <= rps as real)
  }

  /** ... and its time stamp is not ahead of the clock. */
  predicate BucketOk(k: Keys, rps: int, now: real) {
    TokensOk(k, rps) && (k.ts.Some? ==> k.ts.value <= now)
  }

  lemma InflowNonNegative(elapsed: real, rps: int)
    requires elapsed >= 0.0 && rps >= 0
    ensures Inflow(elapsed, rps) >= 0.0
  {
  }

  lemma InflowAdds(a: real, b: real, rps: int)
    ensures Inflow(a + b, rps) == Inflow(a, rps) + Inflow(b, rps)
  {
  }

  lemma LevelInBounds(k: Keys, rps: int, now: real)
    requires rps >= 1 && TokensOk(k, rps)
    ensures 0.0 <= Level(k, rps, now) <= rps as real
  {
    if k.ts.Some? && now > k.ts.value {
      InflowNonNegative(now - k.ts.value, rps);
    }
  }

  /** 0 <= tokens <= rps holds throughout every trace, even if the clock runs backwards; if it does not,
      the time stamp stays behind the clock. */
  lemma {:induction false} AlwaysInBounds(rps: int, trace: seq<real>, i: nat, now: real)
    requires rps >= 1 && i <= |trace|
    ensures TokensOk(At(rps, trace, i), rps)
    ensures Monotone(trace) && (i > 0 ==> trace[i - 1] <= now) ==> BucketOk(At(rps, trace, i), rps, now)
  {
    if i > 0 {
      AlwaysInBounds(rps, trace, i - 1, trace[i - 1]);
      LevelInBounds(At(rps, trace, i - 1), rps, trace[i - 1]);
    }
  }

  // ---------------------------------------------------------------- how much can be spent

  function Forward(from: real, to: real): real {
    if from < to then to - from else 0.0
  }

  /** How far the clock moved forwards, in all, between calls `i` and `j`. */
  function ForwardMoves(trace: seq<real>, i: nat, j: nat): real
    requires i <= j < |trace|
  {
    if i == j then 0.0 else ForwardMoves(trace, i, j - 1) + Forward(trace[j - 1], trace[j])
  }

  /** What one call and the wait until the next leave in the bucket. */
  lemma LevelStep(rps: int, trace: seq<real>, i: nat)
    requires rps >= 1 && i + 1 < |trace|
    ensures Level(At(rps, trace, i + 1), rps, trace[i + 1])
         <= Level(At(rps, trace, i), rps, trace[i]) - (if Allowed(rps, trace, i) then 1.0 else 0.0)
            + Inflow(Forward(trace[i], trace[i + 1]), rps)
  {
    var k := At(rps, trace, i + 1);
    assert k == Allow(At(rps, trace, i), rps, trace[i]).0;
    InflowNonNegative(Forward(trace[i], trace[i + 1]), rps);
  }

  /** Calls `i..j` can spend only what the bucket holds at call `i` and what flows in until call `j`. */
  lemma {:induction false} SpendingBound(rps: int, trace: seq<real>, i: nat, j: nat, level: real)
    requires rps >= 1 && i <= j < |trace|
    requires level == Level(At(rps, trace, j), rps, trace[j])
    ensures AllowedIn(rps, trace, i, j) as real + level <= rps as real + Inflow(ForwardMoves(trace, i, j), rps)
  {
    if i < j {
      var before := Level(At(rps, trace, j - 1), rps, trace[j - 1]);
      var move := Forward(trace[j - 1], trace[j]);
      SpendingBound(rps, trace, i, j - 1, before);
      LevelStep(rps, trace, j - 1);
      InflowAdds(ForwardMoves(trace, i, j - 1), move, rps);
      Chain(AllowedIn(rps, trace, i, j - 1) as real, if Allowed(rps, trace, j - 1) then 1.0 else 0.0, before, level,
            rps as real, Inflow(ForwardMoves(trace, i, j - 1), rps), Inflow(move, rps));
    } else {
      AlwaysInBounds(rps, trace, j, trace[j]);
      LevelInBounds(At(rps, trace, j), rps, trace[j]);
    }
  }

  lemma Chain(n: real, took: real, before: real, after: real, r: real, f: real, g: real)
    requires n + before <= r + f && after <= before - took + g
    ensures n + took + after <= r + (f + g)
  {
  }

  /** The bound for any clock, forwards or backwards: calls `i` to `j` allow at most rps + rps * (the sum of
      the clock's forward moves between them), for every rate (a rate below one allows none). */
  lemma ForwardBound(rps: int, trace: seq<real>, i: nat, j: nat)
    requires i <= j < |trace|
    ensures rps <= 0 ==> AllowedIn(rps, trace, i, j + 1) == 0
    ensures rps >= 1 ==> AllowedIn(rps, trace, i, j + 1) as real <= rps as real + Inflow(ForwardMoves(trace, i, j), rps)
  {
    if rps <= 0 {
      NoneAllowed(rps, trace, i, j + 1);
    } else {
      var level := Level(At(rps, trace, j), rps, trace[j]);
      SpendingBound(rps, trace, i, j, level);
      AlwaysInBounds(rps, trace, j, trace[j]);
      LevelInBounds(At(rps, trace, j), rps, trace[j]);
    }
  }

  lemma {:induction false} MonotoneMoves(trace: seq<real>, i: nat, j: nat)
    requires Monotone(trace) && i <= j < |trace|
    ensures ForwardMoves(trace, i, j) == trace[j] - trace[i]
  {
    if i < j {
      MonotoneMoves(trace, i, j - 1);
    }
  }

  /** The rate bound: with a clock that never runs backwards, the calls made within [s, t], of which the
      first is call `i` and the last is call `j`, allow at most rps + rps * (t - s) (`Inflow`). */
  lemma IntervalBound(rps: int, trace: seq<real>, i: nat, j: nat, s: real, t: real)
    requires Monotone(trace) && i <= j < |trace| && s <= trace[i] && trace[j] <= t
    ensures rps <= 0 ==> AllowedIn(rps, trace, i, j + 1) == 0
    ensures rps >= 1 ==> AllowedIn(rps, trace, i, j + 1) as real <= rps as real + Inflow(t - s, rps)
  {
    ForwardBound(rps, trace, i, j);
    MonotoneMoves(trace, i, j);
    if rps >= 1 {
      WiderInterval(rps, trace[j] - trace[i], t - s);
    }
  }

  lemma WiderInterval(rps: int, a: real, b: real)
    requires rps >= 1 && a <= b
    ensures Inflow(a, rps) <= Inflow(b, rps)
  {
    InflowNonNegative(b - a, rps);
    InflowAdds(a, b - a, rps);
    assert a + (b - a) == b;
  }

  lemma {:induction false} NoneAllowed(rps: int, trace: seq<real>, i: nat, j: nat)
    requires rps <= 0 && j <= |trace|
    ensures AllowedIn(rps, trace, i, j) == 0
  {
    if i < j {
      NoneAllowed(rps, trace, i, j - 1);
    }
  }

  /** With a clock that runs backwards the interval bound fails: a rewound clock refills the bucket, and at
      rate 1 a second call is allowed at the same instant. */
  lemma BackwardClockBreaksBound()
    ensures var trace := [10.0, 0.0, 10.0];
      AllowedIn(1, trace, 0, 1) + AllowedIn(1, trace, 2, 3) == 2
  {
    var trace := [10.0, 0.0, 10.0];
    assert At(1, trace, 1) == Keys(Some(0.0), Some(10.0));
    assert At(1, trace, 2) == Keys(Some(0.0), Some(0.0));
    assert AllowedIn(1, trace, 0, 0) == 0 && AllowedIn(1, trace, 2, 2) == 0;
  }

  // ---------------------------------------------------------------- exactly when a call is denied

  /** What the calls from `i` to `j - 1` have spent beyond what flowed in since call `i`. */
  function Spent(rps: int, trace: seq<real>, i: nat, j: nat): real
    requires i <= j < |trace|
  {
    AllowedIn(rps, trace, i, j) as real - Inflow(trace[j] - trace[i], rps)
  }

  /** The level at call `j` is what has been spent since the bucket was last full. */
  lemma {:induction false} LevelSinceFull(rps: int, trace: seq<real>, j: nat) returns (i: nat)
    requires rps >= 1 && Monotone(trace) && j < |trace|
    ensures i <= j && Level(At(rps, trace, j), rps, trace[j]) == rps as real - Spent(rps, trace, i, j)
  {
    if j == 0 || Level(At(rps, trace, j), rps, trace[j]) == rps as real {
      i := j;
      assert Inflow(trace[j] - trace[j], rps) == 0.0;
    } else {
      i := LevelSinceFull(rps, trace, j - 1);
      NotFullStep(rps, trace, j);
      InflowAdds(trace[j - 1] - trace[i], trace[j] - trace[j - 1], rps);
      assert (trace[j - 1] - trace[i]) + (trace[j] - trace[j - 1]) == trace[j] - trace[i];
    }
  }

  /** Between two calls a bucket that does not fill up gains exactly what flows in. */
  lemma NotFullStep(rps: int, trace: seq<real>, j: nat)
    requires rps >= 1 && Monotone(trace) && 0 < j < |trace|
    requires Level(At(rps, trace, j), rps, trace[j]) != rps as real
    ensures Level(At(rps, trace, j), rps, trace[j])
         == Level(At(rps, trace, j - 1), rps, trace[j - 1]) - (if Allowed(rps, trace, j - 1) then 1.0 else 0.0)
            + Inflow(trace[j] - trace[j - 1], rps)
  {
    assert At(rps, trace, j) == Allow(At(rps, trace, j - 1), rps, trace[j - 1]).0;
    assert trace[j] == trace[j - 1] ==> Inflow(trace[j] - trace[j - 1], rps) == 0.0;
  }

  /** A call is denied if and only if, since some call `i`, so many calls were allowed that less than one token is left
      of a full bucket and all that flowed in since. */
  lemma DeniedIff(rps: int, trace: seq<real>, j: nat)
    requires rps >= 1 && Monotone(trace) && j < |trace|
    ensures !Allowed(rps, trace, j) <==> exists i: nat :: i <= j && Spent(rps, trace, i, j) > rps as real - 1.0
  {
    var i := LevelSinceFull(rps, trace, j);
    forall k: nat | k <= j
      ensures Spent(rps, trace, k, j) <= rps as real - Level(At(rps, trace, j), rps, trace[j])
    {
      SpendingBound(rps, trace, k, j, Level(At(rps, trace, j), rps, trace[j]));
      MonotoneMoves(trace, k, j);
    }
  }

  lemma {:induction false} AllowedAtMost(rps: int, trace: seq<real>, i: nat, j: nat)
    requires i <= j <= |trace|
    ensures AllowedIn(rps, trace, i, j) <= j - i
  {
    if i < j {
      AllowedAtMost(rps, trace, i, j - 1);
    }
  }

  /** A new bucket allows its first `rps` calls, however fast they come. */
  lemma FirstCallsAllowed(rps: int, trace: seq<real>, j: nat)
    requires rps >= 1 && Monotone(trace) && j < |trace| && j < rps
    ensures Allowed(rps, trace, j)
  {
    DeniedIff(rps, trace, j);
    forall i: nat | i <= j
      ensures Spent(rps, trace, i, j) <= rps as real - 1.0
    {
      AllowedAtMost(rps, trace, i, j);
      InflowNonNegative(trace[j] - trace[i], rps);
    }
  }

  // ---------------------------------------------------------------- denied calls are invisible

  /** Two key states that answer alike from `now` on. */
  ghost predicate SameFrom(a: Keys, b: Keys, rps: int, now: real) {
    forall t :: t >= now ==> Level(a, rps, t) == Level(b, rps, t)
  }

  /** Clamped refills compose: storing the level of a denied call changes no later level. */
  lemma DeniedIsInvisible(k: Keys, rps: int, now: real)
    requires rps >= 1 && BucketOk(k, rps, now) && !Allow(k, rps, now).1
    ensures SameFrom(Allow(k, rps, now).0, k, rps, now)
  {
    var k' := Allow(k, rps, now).0;
    forall t | t >= now
      ensures Level(k', rps, t) == Level(k, rps, t)
    {
      RefillsCompose(k, rps, now, t);
    }
  }

  lemma RefillsCompose(k: Keys, rps: int, now: real, t: real)
    requires rps >= 1 && BucketOk(k, rps, now) && now <= t
    ensures Level(Keys(Some(Level(k, rps, now)), Some(now)), rps, t) == Level(k, rps, t)
  {
    InflowNonNegative(t - now, rps);
    if k.ts.Some? {
      InflowAdds(now - k.ts.value, t - now, rps);
      assert (now - k.ts.value) + (t - now) == t - k.ts.value;
      InflowNonNegative(now - k.ts.value, rps);
    }
  }

  /** Equivalent states stay equivalent, and answer alike, through one common call. */
  lemma SameStep(a: Keys, b: Keys, rps: int, before: real, now: real)
    requires SameFrom(a, b, rps, before) && before <= now
    ensures Allow(a, rps, now).1 == Allow(b, rps, now).1
    ensures SameFrom(Allow(a, rps, now).0, Allow(b, rps, now).0, rps, now)
  {
    assert Level(a, rps, now) == Level(b, rps, now);
  }

  lemma SameTransitive(a: Keys, b: Keys, c: Keys, rps: int, before: real, now: real)
    requires SameFrom(a, b, rps, before) && SameFrom(b, c, rps, before) && before <= now
    ensures SameFrom(a, c, rps, now)
  {
  }

  /** The trace without the calls that `keep` drops, and where a kept call ends up. */
  function Kept(trace: seq<real>, keep: seq<bool>): seq<real>
    requires |trace| == |keep|
  {
    if trace == [] then []
    else Kept(trace[..|trace| - 1], keep[..|keep| - 1])
         + (if keep[|keep| - 1] then [trace[|trace| - 1]] else [])
  }

  /** `At` looks only at the calls before `i`. */
  lemma {:induction false} AtPrefix(rps: int, a: seq<real>, b: seq<real>, i: nat)
    requires i <= |a| && i <= |b| && a[..i] == b[..i]
    ensures At(rps, a, i) == At(rps, b, i)
  {
    if i > 0 {
      assert a[..i - 1] == a[..i][..i - 1] && b[..i - 1] == b[..i][..i - 1];
      AtPrefix(rps, a, b, i - 1);
      assert a[i - 1] == a[..i][i - 1] && b[i - 1] == b[..i][i - 1];
    }
  }

  /** Only denied calls are dropped. */
  predicate DropsDenied(rps: int, trace: seq<real>, keep: seq<bool>)
    requires |trace| == |keep|
  {
    forall i :: 0 <= i < |trace| && !keep[i] ==> !Allowed(rps, trace, i)
  }

  /** Dropping any set of denied calls from the first `i` calls leaves the bucket's level the same at
      every later time ... */
  lemma {:induction false} DroppingKeepsLevel(rps: int, trace: seq<real>, keep: seq<bool>, i: nat, now: real)
    requires rps >= 1 && |trace| == |keep| && Monotone(trace) && DropsDenied(rps, trace, keep)
    requires i <= |trace| && (i > 0 ==> trace[i - 1] <= now)
    ensures var kept := Kept(trace[..i], keep[..i]);
      SameFrom(At(rps, kept, |kept|), At(rps, trace, i), rps, now)
  {
    var kept := Kept(trace[..i], keep[..i]);
    if i > 0 {
      var t := trace[i - 1];
      assert trace[..i][..i - 1] == trace[..i - 1] && keep[..i][..i - 1] == keep[..i - 1];
      var before := Kept(trace[..i - 1], keep[..i - 1]);
      DroppingKeepsLevel(rps, trace, keep, i - 1, t);
      AlwaysInBounds(rps, trace, i - 1, t);
      if keep[i - 1] {
        AtPrefix(rps, kept, before, |before|);
        SameStep(At(rps, before, |before|), At(rps, trace, i - 1), rps, t, t);
      } else {
        assert kept == before;
        DeniedIsInvisible(At(rps, trace, i - 1), rps, t);
        SameTransitive(At(rps, before, |before|), At(rps, trace, i - 1), At(rps, trace, i), rps, t, now);
      }
    }
  }

  /** ... so every call that is kept is decided as before, whatever denied calls went missing. */
  lemma DroppingKeepsDecisions(rps: int, trace: seq<real>, keep: seq<bool>, i: nat)
    requires |trace| == |keep| && Monotone(trace) && DropsDenied(rps, trace, keep)
    requires i < |trace| && keep[i]
    ensures var kept := Kept(trace[..i + 1], keep[..i + 1]);
      |kept| > 0 && kept[|kept| - 1] == trace[i]
      && (Allowed(rps, kept, |kept| - 1) <==> Allowed(rps, trace, i))
  {
    var kept := Kept(trace[..i + 1], keep[..i + 1]);
    assert trace[..i + 1][..i] == trace[..i] && keep[..i + 1][..i] == keep[..i];
    if rps >= 1 {
      var before := Kept(trace[..i], keep[..i]);
      DroppingKeepsLevel(rps, trace, keep, i, trace[i]);
      AtPrefix(rps, kept, before, |before|);
    }
  }
}
