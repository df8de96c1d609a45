/** The small pure policies the processor applies to one POST:
    app/domain/services/delivery_attempt.py, backoff.py, retry_topics.py and sla_service.py. */
module Outcomes {
  import opened Wrappers

  datatype HttpError = TimeoutException | ConnectError | NetworkError | OtherError

  datatype Classification = SUCCESS | RETRYABLE | POISON

  const DEFAULT_RETRYABLE_CODES: set<int> := {408, 429}

  /** `classify_http_outcome`. */
  function Classify(status: Option<int>, retryOn: seq<int>, error: Option<HttpError>): Classification {
    if error.Some? then
      if error.value != OtherError then RETRYABLE else POISON
    else if status.None? then RETRYABLE
    else
      var code := status.value;
      if 200 <= code < 300 then SUCCESS
      else if code >= 500 then RETRYABLE
      else if retryOn != [] then
        if code in retryOn then RETRYABLE else POISON
      else if code in DEFAULT_RETRYABLE_CODES then RETRYABLE
      else POISON
  }

  /** `_network_error_from_result`: every transport error maps to a retryable exception. */
  function ErrorFromResult(errorType: Option<string>): Option<HttpError> {
    match errorType
    case None => None
    case Some(e) =>
      if e == "timeout" then Some(TimeoutException)
      else if e == "connect_error" then Some(ConnectError)
      else Some(NetworkError)
  }

  function Power(b: int, e: nat): int {
    if e == 0 then 1 else b * Power(b, e - 1)
  }

  datatype Settings = Settings(backoffBase: int, backoffMultiplier: int, backoffMax: int)

  /** The exponential delay before jitter. */
  function CappedDelay(attempt: int, cfg: Settings): int
    requires attempt >= 1
  {
    var raw := cfg.backoffBase * Power(cfg.backoffMultiplier, attempt - 1);
    if raw <= cfg.backoffMax then raw else cfg.backoffMax
  }

  /** `compute_delay_seconds`; `uniform` is the random number drawn. */
  function ComputeDelay(attempt: int, cfg: Settings, uniform: real): real
    requires attempt >= 1
  {
    Jittered(CappedDelay(attempt, cfg) as real, uniform)
  }

  function Jittered(delay: real, uniform: real): real {
    delay + delay * (uniform * 2.0 - 1.0) * 0.1
  }

  /** The processor's delays: it passes a random source that always returns 0.0. */
  function DelaySeconds(attempt: int, cfg: Settings): real
    requires attempt >= 1
  {
    ComputeDelay(attempt, cfg, 0.0)
  }

  datatype Topic = OutboundPending | Retry30s | Retry1m | Retry5m | Retry15m | Retry1h

  /** `retry_topic_for`. */
  function RetryTopicFor(attempt: int, delay: real): Topic {
    if attempt <= 2 then Retry30s
    else if attempt == 3 && 45.0 < delay <= 90.0 then Retry1m
    else if attempt <= 4 then Retry5m
    else if attempt <= 6 then Retry15m
    else Retry1h
  }

  /** `apply_first_success`. */
  function ApplyFirstSuccess(now: real, deadline: real, firstSuccess: Option<real>, breached: bool): (real, bool) {
    if firstSuccess.Some? then (firstSuccess.value, breached)
    else (now, breached || now > deadline)
  }

  /** Settings under which the delays make sense. */
  predicate SaneSettings(cfg: Settings) {
    cfg.backoffBase >= 0 && cfg.backoffMultiplier >= 1 && cfg.backoffMax >= 0
  }

  lemma ScaleUp(b: int, x: int)
    requires b >= 1 && x >= 1
    ensures b * x >= x
  {
    assert b * x - x == (b - 1) * x;
  }

  lemma {:induction false} PowerGrows(b: int, m: nat, n: nat)
    requires b >= 1 && m <= n
    ensures 1 <= Power(b, m) <= Power(b, n)
  {
    if n > 0 {
      PowerGrows(b, if m == n then m - 1 else m, n - 1);
      ScaleUp(b, Power(b, n - 1));
    }
  }

  lemma CappedDelayGrows(a: int, b: int, cfg: Settings)
    requires 1 <= a <= b && SaneSettings(cfg)
    ensures 0 <= CappedDelay(a, cfg) <= CappedDelay(b, cfg) <= cfg.backoffMax
  {
    PowerGrows(cfg.backoffMultiplier, a - 1, b - 1);
    var x, y := Power(cfg.backoffMultiplier, a - 1), Power(cfg.backoffMultiplier, b - 1);
    assert 0 <= cfg.backoffBase * x <= cfg.backoffBase * y;
  }

  lemma NonNegative(a: real, b: real)
    requires a >= 0.0 && b >= 0.0
    ensures a * b >= 0.0
  {
  }

  lemma Jitter(delay: real, uniform: real)
    requires delay >= 0.0 && 0.0 <= uniform < 1.0
    ensures 0.9 * delay <= Jittered(delay, uniform) <= 1.1 * delay
    ensures Jittered(delay, 0.0) == 0.9 * delay
  {
    var x := delay * uniform;
    NonNegative(delay, uniform);
    NonNegative(delay, 1.0 - uniform);
    assert delay * (1.0 - uniform) == delay - x;
    assert delay * (uniform * 2.0 - 1.0) == 2.0 * x - delay;
  }

  /** Jitter moves a delay by at most a tenth. The processor's constant random source always takes the
      whole tenth off, so its delays never shrink from one attempt to the next, and never come within a
      tenth of the configured maximum. */
  lemma DelayBounds(a: int, b: int, cfg: Settings, uniform: real)
    requires 1 <= a <= b && SaneSettings(cfg) && 0.0 <= uniform < 1.0
    ensures 0.9 * CappedDelay(a, cfg) as real <= ComputeDelay(a, cfg, uniform) <= 1.1 * CappedDelay(a, cfg) as real
    ensures 0.0 <= DelaySeconds(a, cfg) <= DelaySeconds(b, cfg) <= 0.9 * cfg.backoffMax as real
    ensures DelaySeconds(a, cfg) <= ComputeDelay(a, cfg, uniform)
  {
    CappedDelayGrows(a, b, cfg);
    Jitter(CappedDelay(a, cfg) as real, uniform);
    Jitter(CappedDelay(a, cfg) as real, 0.0);
    Jitter(CappedDelay(b, cfg) as real, 0.0);
  }

  /** The waiting tiers in order. */
  function Tier(t: Topic): nat {
    match t
    case OutboundPending => 0
    case Retry30s => 1
    case Retry1m => 2
    case Retry5m => 3
    case Retry15m => 4
    case Retry1h => 5
  }

  /** A retry never goes back to the pending topic, and later attempts never to an earlier tier. */
  lemma TiersGrow(a: int, b: int, delayA: real, delayB: real)
    requires a < b
    ensures 1 <= Tier(RetryTopicFor(a, delayA)) <= Tier(RetryTopicFor(b, delayB))
  {
  }

  /** The backoff law: the delay starts at the base, is multiplied after every attempt, and is cut off at the
      maximum. */
  lemma DelayLaw(a: int, cfg: Settings)
    requires a >= 1 && SaneSettings(cfg)
    ensures CappedDelay(1, cfg) == if cfg.backoffBase <= cfg.backoffMax then cfg.backoffBase else cfg.backoffMax
    ensures var next := cfg.backoffMultiplier * CappedDelay(a, cfg);
      CappedDelay(a + 1, cfg) == if next <= cfg.backoffMax then next else cfg.backoffMax
  {
    var b, m, x := cfg.backoffBase, cfg.backoffMultiplier, Power(cfg.backoffMultiplier, a - 1);
    PowerGrows(m, a - 1, a);
    assert Power(m, 0) == 1 && Power(m, a) == m * x;
    assert b * (m * x) == m * (b * x);
    Multiply(m, b * x, cfg.backoffMax);
    Multiply(m, cfg.backoffMax, cfg.backoffMax);
    assert b * x >= 0;
  }

  lemma Multiply(m: int, x: int, limit: int)
    requires m >= 1 && limit >= 0
    ensures x >= 0 ==> m * x >= x
    ensures x > limit ==> m * x > limit
  {
    if x >= 1 {
      ScaleUp(m, x);
    }
  }

  /** The processor waits nine tenths of that delay. */
  lemma ProcessorDelay(a: int, cfg: Settings)
    requires a >= 1
    ensures DelaySeconds(a, cfg) == 0.9 * CappedDelay(a, cfg) as real
  {
  }

  /** The tier of every attempt. */
  lemma TierOf(a: int, delay: real)
    ensures Tier(RetryTopicFor(a, delay)) ==
      if a <= 2 then 1
      else if a == 3 then (if delay > 45.0 && delay <= 90.0 then 2 else 3)
      else if a == 4 then 3
      else if a == 5 || a == 6 then 4
      else 5
  {
  }

  /** Which answers are a success, and which are final: the transport errors of the HTTP client are never final, any
      other error is; without an error, a missing status or one of 500 and above is not, and below that the
      endpoint's own codes, or else 408 and 429, are not. */
  lemma ClassifyCases(status: Option<int>, retryOn: seq<int>, error: Option<HttpError>)
    ensures Classify(status, retryOn, error) == SUCCESS <==> error == None && status.Some? && status.value / 100 == 2
    ensures Classify(status, retryOn, error) == POISON <==>
      || error == Some(OtherError)
      || (error == None && status.Some? && status.value < 500 && status.value / 100 != 2
          && (if |retryOn| > 0 then status.value !in retryOn else status.value != 408 && status.value != 429))
  {
  }

  /** The first success stands; a breach, once noted, too. */
  lemma FirstSuccessStands(now: real, deadline: real, first: Option<real>, breached: bool)
    ensures var (at, late) := ApplyFirstSuccess(now, deadline, first, breached);
      && at == (match first case Some(f) => f case None => now)
      && (late <==> breached || (first == None && now > deadline))
  {
  }
}
