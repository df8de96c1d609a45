/** One processor transaction (app/workers/outbound_processor.py). */
module Processor {
  import opened Wrappers
  import opened Status
  import opened Outcomes
  import opened Tables

  datatype PostResult = PostResult(httpStatus: Option<int>, errorType: Option<string>)

  /** What the outside world answers while one record is processed: the clock, whether the partner's
      signing secret loads, the breaker's verdict, the endpoint's retry codes and the POST's result. */
  datatype Environment = Environment(now: real, hasSecret: bool, admitted: bool, retryOn: seq<int>, post: PostResult)

  datatype Retry = Retry(topic: Topic, delivery: DeliveryId, scheduledAt: real, attempt: int)

  datatype ProcessOutcome = Skip | Delivered | RetryScheduled | Dlq

  /** How the call ends. Only `Committed` changes the tables; `Aborted` is the exception that leaves
      the session after a unique violation. `posted` says whether the partner received a POST. */
  datatype Verdict =
    | Skipped
    | Aborted(posted: bool)
    | Committed(tables: Tables, outcome: ProcessOutcome, posted: bool, retry: Option<Retry>)

  function ClassifyPost(w: Environment): Classification {
    Classify(w.post.httpStatus, w.retryOn, ErrorFromResult(w.post.errorType))
  }

  predicate Retries(d: Delivery) {
    d.attemptCount + 1 < d.maxAttempts
  }

  function FailedUnit(d: Delivery, attempt: Option<int>): Unit {
    Unit(d.(status := FAILED), attempt, true)
  }

  function DeferDelay(d: Delivery, cfg: Settings): real {
    if d.attemptCount < 1 then cfg.backoffBase as real else DelaySeconds(d.attemptCount, cfg)
  }

  function RetryDelay(d: Delivery, cfg: Settings): real {
    DelaySeconds(d.attemptCount + 1, cfg)
  }

  /** The rows written for an open delivery `d`, the reported outcome and the retry record to publish. */
  function Decide(id: DeliveryId, d: Delivery, cfg: Settings, w: Environment): (Unit, ProcessOutcome, Option<Retry>) {
    if !w.hasSecret then
      (FailedUnit(d, None), Dlq, None)
    else if !w.admitted then
      var at := w.now + DeferDelay(d, cfg);
      (Unit(d.(status := RETRYING, nextRetryAt := Some(at)), None, false),
       RetryScheduled,
       Some(Retry(RetryTopicFor(d.attemptCount + 1, DeferDelay(d, cfg)), id, at, d.attemptCount + 1)))
    else
      var n := d.attemptCount + 1;
      match ClassifyPost(w)
      case SUCCESS =>
        var (first, breached) := ApplyFirstSuccess(w.now, d.slaDeadlineAt, d.firstSuccessAt, d.slaBreached);
        (Unit(d.(status := DELIVERED, firstSuccessAt := Some(first), slaBreached := breached), Some(n), false),
         Delivered, None)
      case POISON =>
        (FailedUnit(d, Some(n)), Dlq, None)
      case RETRYABLE =>
        var d' := d.(attemptCount := n);
        if Retries(d) then
          var at := w.now + RetryDelay(d, cfg);
          (Unit(d'.(status := RETRYING, nextRetryAt := Some(at)), Some(n), false),
           RetryScheduled,
           Some(Retry(RetryTopicFor(n + 1, RetryDelay(d, cfg)), id, at, n + 1)))
        else
          (FailedUnit(d', Some(n)), Dlq, None)
  }

  function Process(t: Tables, id: DeliveryId, cfg: Settings, w: Environment): Verdict
    requires t.deliveries.Keys <= t.attempts.Keys
  {
    if id !in t.deliveries || !IsOpen(t.deliveries[id].status) then Skipped
    else
      var (u, outcome, retry) := Decide(id, t.deliveries[id], cfg, w);
      var posted := w.hasSecret && w.admitted;
      match Commit(t, id, u)
      case None => Aborted(posted)
      case Some(t') => Committed(t', outcome, posted, retry)
  }

  /** The worker's session, HTTP client and producer. `tables` is what is committed, `posts` the
      POSTs made and `producer` the retry records handed to Kafka, in order. */
  class OutboundProcessor {
    var tables: Tables
    var posts: seq<DeliveryId>
    var producer: seq<Retry>

    constructor (tables: Tables)
      ensures this.tables == tables && posts == [] && producer == []
    {
      this.tables, posts, producer := tables, [], [];
    }

    /** `session.commit()`: all pending rows or, on a unique violation, none. */
    method CommitSession(id: DeliveryId, delivery: Delivery, attempt: Option<int>, deadLetter: bool) returns (ok: bool)
      requires id in tables.attempts
      modifies this`tables
      ensures ok == Commit(old(tables), id, Unit(delivery, attempt, deadLetter)).Some?
      ensures tables == if ok then Commit(old(tables), id, Unit(delivery, attempt, deadLetter)).value else old(tables)
    {
      var t := tables;
      if attempt.Some? {
        if attempt.value in t.attempts[id] { return false; }
        t := t.(attempts := t.attempts[id := t.attempts[id] + {attempt.value}]);
      }
      if deadLetter {
        if id in t.deadLetters { return false; }
        t := t.(deadLetters := t.deadLetters + {id});
      }
      tables := t.(deliveries := t.deliveries[id := delivery]);
      return true;
    }

    /** `_mark_failed_dlq`. */
    method MarkFailedDlq(id: DeliveryId, delivery: Delivery, attempt: Option<int>) returns (ok: bool)
      requires id in tables.attempts && delivery.status == DELIVERING
      modifies this`tables
      ensures ok == Commit(old(tables), id, FailedUnit(delivery, attempt)).Some?
      ensures tables == if ok then Commit(old(tables), id, FailedUnit(delivery, attempt)).value else old(tables)
    {
      assert CanTransition(delivery.status, FAILED);
      var failed := delivery.(status := FAILED);
      ok := CommitSession(id, failed, attempt, true);
    }

    /** `process_outbound_message`; `raised` is the exception of an aborted commit. */
    method ProcessOutboundMessage(id: DeliveryId, cfg: Settings, w: Environment)
        returns (raised: bool, outcome: ProcessOutcome)
      requires tables.deliveries.Keys <= tables.attempts.Keys
      modifies this
      ensures match Process(old(tables), id, cfg, w)
              case Skipped =>
                !raised && outcome == Skip && tables == old(tables) && posts == old(posts) && producer == old(producer)
              case Aborted(posted) =>
                raised && tables == old(tables) && producer == old(producer)
                && posts == old(posts) + (if posted then [id] else [])
              case Committed(t, o, posted, retry) =>
                !raised && outcome == o && tables == t
                && posts == old(posts) + (if posted then [id] else [])
                && producer == old(producer) + (if retry.Some? then [retry.value] else [])
    {
      outcome := Skip;
      if id !in tables.deliveries { return false, Skip; }
      var delivery := tables.deliveries[id];
      ghost var d0 := delivery;
      if !IsOpen(delivery.status) { return false, Skip; }
      assert CanTransition(delivery.status, DELIVERING);
      delivery := delivery.(status := DELIVERING);

      if !w.hasSecret {
        assert FailedUnit(delivery, None) == FailedUnit(d0, None);
        var ok := MarkFailedDlq(id, delivery, None);
        return !ok, Dlq;
      }

      if !w.admitted {
        var delay := if delivery.attemptCount < 1 then cfg.backoffBase as real
                     else DelaySeconds(delivery.attemptCount, cfg);
        var topic := RetryTopicFor(delivery.attemptCount + 1, delay);
        var at := w.now + delay;
        delivery := delivery.(nextRetryAt := Some(at), status := RETRYING);
        var ok := CommitSession(id, delivery, None, false);
        producer := producer + [Retry(topic, id, at, delivery.attemptCount + 1)];
        return false, RetryScheduled;
      }

      var number := delivery.attemptCount + 1;
      posts := posts + [id];
      var classification := ClassifyPost(w);

      if classification == SUCCESS {
        var (first, breached) :=
          ApplyFirstSuccess(w.now, delivery.slaDeadlineAt, delivery.firstSuccessAt, delivery.slaBreached);
        delivery := delivery.(status := DELIVERED, firstSuccessAt := Some(first), slaBreached := breached);
        var ok := CommitSession(id, delivery, Some(number), false);
        return !ok, Delivered;
      }

      if classification == POISON {
        assert FailedUnit(delivery, Some(number)) == FailedUnit(d0, Some(number));
        var ok := MarkFailedDlq(id, delivery, Some(number));
        return !ok, Dlq;
      }

      delivery := delivery.(attemptCount := delivery.attemptCount + 1);
      if delivery.attemptCount < delivery.maxAttempts {
        var delay := DelaySeconds(delivery.attemptCount, cfg);
        var topic := RetryTopicFor(delivery.attemptCount + 1, delay);
        var at := w.now + delay;
        delivery := delivery.(nextRetryAt := Some(at), status := RETRYING);
        var ok := CommitSession(id, delivery, Some(number), false);
        if !ok { return true, RetryScheduled; }
        producer := producer + [Retry(topic, id, at, delivery.attemptCount + 1)];
        return false, RetryScheduled;
      }
      assert FailedUnit(delivery, Some(number)) == FailedUnit(d0.(attemptCount := number), Some(number));
      var ok := MarkFailedDlq(id, delivery, Some(number));
      return !ok, Dlq;
    }
  }
}
