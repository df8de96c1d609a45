/** What a partner's answer does to a delivery, and what the published retry promises. */
module Answers {
  import opened Wrappers
  import opened Status
  import opened Outcomes
  import opened Tables
  import opened Processor
  import opened Lifecycle

  /** The partner answered, and accepted. */
  predicate Accepted(w: Environment) {
    w.post.errorType.None? && w.post.httpStatus.Some? && 200 <= w.post.httpStatus.value < 300
  }

  /** The partner answered with a refusal that no retry will change: below 500, not 2xx, and not one of
      the endpoint's retry codes, which replace the default 408 and 429. */
  predicate Refused(w: Environment) {
    && w.post.errorType.None? && w.post.httpStatus.Some?
    && var code := w.post.httpStatus.value;
       && code < 500 && !(200 <= code < 300)
       && code !in (if w.retryOn == [] then [408, 429] else w.retryOn)
  }

  /** The status a committed transaction leaves behind, from what the outside world did. */
  predicate StatusBy(d: Delivery, w: Environment, status: DeliveryStatus) {
    if !w.hasSecret then status == FAILED
    else if !w.admitted then status == RETRYING
    else
      && (status == DELIVERED <==> Accepted(w))
      && (status == RETRYING <==> !Accepted(w) && !Refused(w) && d.attemptCount + 1 < d.maxAttempts)
      && (status == FAILED <==> Refused(w) || (!Accepted(w) && d.attemptCount + 1 >= d.maxAttempts))
  }

  /** What the other columns become: only a success sets the success time, which is now, and it is a breach exactly if
      that is late; only a retryable answer counts an attempt; only a waiting delivery gets a new retry time. */
  predicate ColumnsBy(d: Delivery, w: Environment, d': Delivery) {
    var posted := w.hasSecret && w.admitted;
    && d'.partner == d.partner && d'.endpoint == d.endpoint && d'.idempotencyKey == d.idempotencyKey
    && d'.sourceEventId == d.sourceEventId && d'.maxAttempts == d.maxAttempts && d'.slaDeadlineAt == d.slaDeadlineAt
    && d'.firstSuccessAt == (if posted && Accepted(w) then Some(w.now) else None)
    && (d'.slaBreached <==> posted && Accepted(w) && w.now > d.slaDeadlineAt)
    && d'.attemptCount == d.attemptCount + (if posted && !Accepted(w) && !Refused(w) then 1 else 0)
    && (d'.status != RETRYING ==> d'.nextRetryAt == d.nextRetryAt)
  }

  /** For every open delivery, replayed or not: the processor POSTs exactly if the secret loads and the breaker admits;
      if its transaction is committed, the outside world decides status, columns and reported outcome as above, a
      retry is published exactly for a delivery left waiting, and an attempt row is stored exactly for a POST. Before
      the first dead letter it is always committed. A delivery that is not open is left alone. */
  lemma AnswerDecides(t: Tables, id: DeliveryId, cfg: Settings, w: Environment)
    requires TablesOk(t)
    ensures var v := Process(t, id, cfg, w);
      && (v.Skipped? <==> !(id in t.deliveries && IsOpen(t.deliveries[id].status)))
      && (!v.Skipped? ==> (v.posted <==> w.hasSecret && w.admitted))
      && (!v.Skipped? && id !in t.deadLetters ==> v.Committed?)
      && (v.Committed? ==>
            var d, d' := t.deliveries[id], v.tables.deliveries[id];
            && StatusBy(d, w, d'.status) && ColumnsBy(d, w, d')
            && (v.outcome == ProcessOutcome.Delivered <==> d'.status == DELIVERED)
            && (v.outcome == Dlq <==> d'.status == FAILED)
            && (v.outcome == RetryScheduled <==> d'.status == RETRYING)
            && (v.retry.Some? <==> d'.status == RETRYING)
            && v.tables.attempts[id] == t.attempts[id] + (if v.posted then {d.attemptCount + 1} else {}))
  {
    if id in t.deliveries && IsOpen(t.deliveries[id].status) {
      assert DeliveryOk(t, id);
      DecisionBy(id, t.deliveries[id], cfg, w);
      CommitStores(t, id, Decide(id, t.deliveries[id], cfg, w).0);
      if id !in t.deadLetters {
        FirstLifeNeverAborts(t, id, cfg, w);
      }
    }
  }

  lemma CommitStores(t: Tables, id: DeliveryId, u: Unit)
    requires id in t.deliveries && id in t.attempts
    ensures Commit(t, id, u).Some? ==>
      var t' := Commit(t, id, u).value;
      && id in t'.deliveries && t'.deliveries[id] == u.delivery && id in t'.attempts
      && t'.attempts[id] == t.attempts[id] + if u.attempt.Some? then {u.attempt.value} else {}
  {
  }

  lemma AnswerClasses(w: Environment)
    ensures ClassifyPost(w) == SUCCESS <==> Accepted(w)
    ensures ClassifyPost(w) == POISON <==> Refused(w)
  {
  }

  lemma DecisionBy(id: DeliveryId, d: Delivery, cfg: Settings, w: Environment)
    requires d.firstSuccessAt == None && !d.slaBreached
    ensures var (u, outcome, retry) := Decide(id, d, cfg, w);
      && StatusBy(d, w, u.delivery.status) && ColumnsBy(d, w, u.delivery)
      && (outcome == ProcessOutcome.Delivered <==> u.delivery.status == DELIVERED)
      && (outcome == Dlq <==> u.delivery.status == FAILED)
      && (outcome == RetryScheduled <==> u.delivery.status == RETRYING)
      && (retry.Some? <==> u.delivery.status == RETRYING)
      && u.attempt == (if w.hasSecret && w.admitted then Some(d.attemptCount + 1) else None)
  {
    AnswerClasses(w);
  }

  /** A published retry agrees with the committed row: it names the row's own next time and attempt, and goes to the
      tier of that attempt, whose records wait for that time. After a POST the wait is nine tenths of the nominal
      delay of the attempts made; so is a deferral's, but before the first attempt that is the base delay itself.
      With sane settings it is never scheduled into the past. */
  lemma RetryAgreesWithRow(t: Tables, id: DeliveryId, cfg: Settings, w: Environment)
    requires t.deliveries.Keys <= t.attempts.Keys
    requires Process(t, id, cfg, w).Committed? && Process(t, id, cfg, w).retry.Some?
    ensures var v := Process(t, id, cfg, w); var r, d' := v.retry.value, v.tables.deliveries[id];
      && r.delivery == id && d'.status == RETRYING
      && d'.nextRetryAt == Some(r.scheduledAt) && r.attempt == d'.attemptCount + 1
      && r.topic == RetryTopicFor(r.attempt, r.scheduledAt - w.now) && r.topic != OutboundPending
      && r.scheduledAt - w.now ==
           (if d'.attemptCount == 0 then cfg.backoffBase as real else 0.9 * CappedDelay(d'.attemptCount, cfg) as real)
      && (SaneSettings(cfg) ==> w.now <= r.scheduledAt)
  {
    var d := t.deliveries[id];
    ProcessorDelay(d.attemptCount + 1, cfg);
    if d.attemptCount >= 1 {
      ProcessorDelay(d.attemptCount, cfg);
    }
    if SaneSettings(cfg) {
      DelayBounds(d.attemptCount + 1, d.attemptCount + 1, cfg, 0.0);
      if d.attemptCount >= 1 {
        DelayBounds(d.attemptCount, d.attemptCount, cfg, 0.0);
      }
    }
    TierOf(Process(t, id, cfg, w).retry.value.attempt, Process(t, id, cfg, w).retry.value.scheduledAt - w.now);
  }
}
