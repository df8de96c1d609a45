/** The breaker in the worker's hands (app/workers/outbound_processor.py): what its admissions mean for the POSTs a
    partner receives, and for the attempts its deliveries spend, on every run of the protocol. */
module BreakerUse {
  import opened Wrappers
  import opened Status
  import opened Outcomes
  import opened Tables
  import opened Processor
  import opened Lifecycle
  import opened Protocol
  import opened ProtocolSafety
  import opened History
  import opened Breaker
  import opened Answers

  /** When a step began and ended. For a worker that dies before its commit, `recorded` says whether it had recorded
      the POST's outcome with the breaker by then. */
  datatype Clock = Clock(start: int, end: int, recorded: bool)

  /** The delivery in the worker's hand. */
  function InHand(h: Hub, env: Environment): DeliveryId
    requires CanProcess(h, env)
  {
    h.logs[h.worker.task.part][h.worker.task.offset].delivery
  }

  /** The step is the worker's transaction, committed or not, on an open delivery of the partner whose signing secret
      loaded: the processor asks the breaker. */
  predicate Asks(h: Hub, s: Protocol.Step, partner: int) {
    && (s.WorkerProcess? || s.WorkerCrashBeforeCommit?) && CanProcess(h, s.env)
    && InHand(h, s.env) in h.tables.deliveries
    && var d := h.tables.deliveries[InHand(h, s.env)];
       d.partner == partner && IsOpen(d.status) && s.env.hasSecret
  }

  /** The POST was made, answered so, and recorded. */
  predicate Records(h: Hub, s: Protocol.Step, c: Clock, partner: int, answer: Classification) {
    Asks(h, s, partner) && s.env.admitted && ClassifyPost(s.env) == answer && (s.WorkerProcess? || c.recorded)
  }

  function Admission(k: Keys, cfg: Config, h: Hub, s: Protocol.Step, c: Clock, partner: int): Keys {
    if Asks(h, s, partner) then Allow(k, cfg, c.start).0 else k
  }

  /** The step's breaker calls in order: `allow_outbound`, then what the POST's outcome records. A POISON answer
      records nothing. */
  function Visited(k: Keys, cfg: Config, h: Hub, s: Protocol.Step, c: Clock, partner: int): Keys {
    var k1 := Admission(k, cfg, h, s, c, partner);
    if Records(h, s, c, partner, SUCCESS) then Succeed(k1)
    else if Records(h, s, c, partner, RETRYABLE) then Fail(k1, cfg, c.end).0
    else k1
  }

  /** A run, the times of its steps, and the breaker's settings. */
  datatype Timed = Timed(run: seq<Hub>, steps: seq<Protocol.Step>, clocks: seq<Clock>, cfg: Config, partner: int)

  predicate Shaped(w: Timed) {
    |w.run| == |w.steps| + 1 && |w.clocks| == |w.steps|
  }

  /** The partner's breaker keys before step `i`. */
  function KeysBefore(w: Timed, i: nat): Keys
    requires Shaped(w) && i <= |w.steps|
  {
    if i == 0 then NO_KEYS
    else Visited(KeysBefore(w, i - 1), w.cfg, w.run[i - 1], w.steps[i - 1], w.clocks[i - 1], w.partner)
  }

  /** Step `i` follows the one before it in time, and the breaker's verdict is the one it acts on. */
  predicate StepOk(w: Timed, i: nat)
    requires Shaped(w) && i < |w.steps|
  {
    var c := w.clocks[i];
    && c.start <= c.end && (i > 0 ==> w.clocks[i - 1].end <= c.start)
    && (Asks(w.run[i], w.steps[i], w.partner) ==>
          w.steps[i].env.admitted == Allow(KeysBefore(w, i), w.cfg, c.start).1)
  }

  ghost predicate Obeys(w: Timed) {
    Shaped(w) && forall i {:trigger StepOk(w, i)} :: 0 <= i < |w.steps| ==> StepOk(w, i)
  }

  /** Any run of the protocol whose transactions obey the partner's breaker. */
  ghost predicate IsWork(w: Timed) {
    IsRun(w.run, w.steps) && Obeys(w)
  }

  /** Step `i`'s failure opened the breaker. */
  predicate OpenedBy(w: Timed, i: nat)
    requires Shaped(w) && i < |w.steps|
  {
    var h, s, c := w.run[i], w.steps[i], w.clocks[i];
    && Records(h, s, c, w.partner, RETRYABLE)
    && Fail(Admission(KeysBefore(w, i), w.cfg, h, s, c, w.partner), w.cfg, c.end).1 == OPEN
  }

  predicate SucceededAt(w: Timed, i: nat)
    requires Shaped(w) && i < |w.steps|
  {
    Records(w.run[i], w.steps[i], w.clocks[i], w.partner, SUCCESS)
  }

  /** No success is recorded in steps `i` to `j - 1`. */
  ghost predicate Failing(w: Timed, i: nat, j: nat)
    requires Shaped(w) && j <= |w.steps|
  {
    forall l {:trigger SucceededAt(w, l)} :: i <= l < j ==> !SucceededAt(w, l)
  }

  /** The state after has one more POST, for a delivery of the partner. */
  predicate PostsTo(h: Hub, h': Hub, partner: int) {
    && |h'.posts| > |h.posts|
    && var x := h'.posts[|h'.posts| - 1];
       x in h.tables.deliveries && h.tables.deliveries[x].partner == partner
  }

  /** The partner is POSTed to exactly by a transaction on one of its open deliveries whose secret loaded and which the
      breaker admitted. */
  lemma PostIsAdmitted(h: Hub, s: Protocol.Step, partner: int)
    requires HubOk(h) && Enabled(h, s)
    ensures PostsTo(h, Apply(h, s), partner) <==> Asks(h, s, partner) && s.env.admitted
  {
  }

  // ---------------------------------------------------------------- quiet periods

  /** A whole step without a recorded success keeps the breaker quiet; if it is admitted, the quiet period was over
      and a new one begins with it. */
  lemma QuietVisit(k: Keys, cfg: Config, last: int, before: int, h: Hub, s: Protocol.Step, c: Clock, partner: int)
    requires Quiet(k, cfg, last, before) && last <= before <= c.start <= c.end
    requires !Records(h, s, c, partner, SUCCESS)
    requires Asks(h, s, partner) ==> s.env.admitted == Allow(k, cfg, c.start).1
    ensures Asks(h, s, partner) && s.env.admitted ==>
      c.start >= last + cfg.open && Quiet(Visited(k, cfg, h, s, c, partner), cfg, c.start, c.end)
    ensures Quiet(Visited(k, cfg, h, s, c, partner), cfg, last, c.end)
  {
    if Asks(h, s, partner) {
      var k1 := Allow(k, cfg, c.start).0;
      QuietStep(k, cfg, last, before, Event(c.start, Call.AllowOutbound));
      QuietStep(k1, cfg, last, c.start, Event(c.end, Call.RecordFailure));
      if s.env.admitted {
        QuietStep(k1, cfg, c.start, c.start, Event(c.end, Call.RecordFailure));
      }
    }
  }

  lemma {:induction false} QuietSteps(w: Timed, i: nat, k: nat, last: int)
    requires Obeys(w) && i < k <= |w.steps| && last <= w.clocks[i].end && Failing(w, i + 1, k)
    requires Quiet(KeysBefore(w, i + 1), w.cfg, last, w.clocks[i].end)
    ensures last <= w.clocks[k - 1].end && Quiet(KeysBefore(w, k), w.cfg, last, w.clocks[k - 1].end)
  {
    if k > i + 1 {
      QuietSteps(w, i, k - 1, last);
      assert StepOk(w, k - 1) && !SucceededAt(w, k - 1);
      QuietVisit(KeysBefore(w, k - 1), w.cfg, last, w.clocks[k - 2].end, w.run[k - 1], w.steps[k - 1], w.clocks[k - 1],
                 w.partner);
    }
  }

  /** In a quiet period an admitted transaction starts at least `open` after its beginning. */
  lemma AdmittedLate(w: Timed, i: nat, j: nat, last: int)
    requires Obeys(w) && i < j < |w.steps| && last <= w.clocks[i].end && Failing(w, i + 1, j)
    requires Quiet(KeysBefore(w, i + 1), w.cfg, last, w.clocks[i].end)
    requires Asks(w.run[j], w.steps[j], w.partner) && w.steps[j].env.admitted
    ensures w.clocks[j].start >= last + w.cfg.open
    ensures !SucceededAt(w, j) ==> Quiet(KeysBefore(w, j + 1), w.cfg, w.clocks[j].start, w.clocks[j].end)
  {
    QuietSteps(w, i, j, last);
    assert StepOk(w, j);
    var k := KeysBefore(w, j);
    QuietStep(k, w.cfg, last, w.clocks[j - 1].end, Event(w.clocks[j].start, Call.AllowOutbound));
    if !SucceededAt(w, j) {
      QuietVisit(k, w.cfg, last, w.clocks[j - 1].end, w.run[j], w.steps[j], w.clocks[j], w.partner);
    }
  }

  lemma OpeningIsQuietHere(w: Timed, i: nat)
    requires Shaped(w) && i < |w.steps| && OpenedBy(w, i)
    ensures Quiet(KeysBefore(w, i + 1), w.cfg, w.clocks[i].end, w.clocks[i].end)
  {
  }

  // ---------------------------------------------------------------- what a partner sees

  lemma PostAt(w: Timed, j: nat)
    requires IsWork(w) && j < |w.steps|
    ensures PostsTo(w.run[j], w.run[j + 1], w.partner)
      <==> Asks(w.run[j], w.steps[j], w.partner) && w.steps[j].env.admitted
  {
    RunStep(w.run, w.steps, j);
    PostIsAdmitted(w.run[j], w.steps[j], w.partner);
  }

  /** From a failure that opens the breaker, as long as no success is recorded, the partner's first POST starts at
      least `open` later. */
  lemma FirstPostAfterOpening(w: Timed, i: nat, j: nat)
    requires IsWork(w) && i < j < |w.steps| && OpenedBy(w, i) && Failing(w, i + 1, j)
    requires PostsTo(w.run[j], w.run[j + 1], w.partner)
    ensures w.clocks[j].start >= w.clocks[i].end + w.cfg.open
  {
    OpeningIsQuietHere(w, i);
    PostAt(w, j);
    AdmittedLate(w, i, j, w.clocks[i].end);
  }

  /** While the breaker has been opened and no success has been recorded, any two POSTs to the partner start at least
      `open` apart, whatever deliveries, retries, deferrals, replays and crashes (also between a POST and its record)
      lie in between. The last of them may itself be the success that ends the outage. */
  lemma PostsAreSpaced(w: Timed, i: nat, j: nat, k: nat)
    requires IsWork(w) && i < j < k < |w.steps| && OpenedBy(w, i) && Failing(w, i + 1, k)
    requires PostsTo(w.run[j], w.run[j + 1], w.partner) && PostsTo(w.run[k], w.run[k + 1], w.partner)
    ensures w.clocks[j].start >= w.clocks[i].end + w.cfg.open
    ensures w.clocks[k].start >= w.clocks[j].start + w.cfg.open
  {
    OpeningIsQuietHere(w, i);
    PostAt(w, j);
    PostAt(w, k);
    assert !SucceededAt(w, j);
    AdmittedLate(w, i, j, w.clocks[i].end);
    assert StepOk(w, j);
    AdmittedLate(w, j, k, w.clocks[j].start);
  }

  /** Step `i` opened the breaker, and step `j` asks it again before `open` has passed or a success was recorded. */
  ghost predicate AsksInOutage(w: Timed, i: nat, j: nat) {
    && Shaped(w) && i < j < |w.steps| && OpenedBy(w, i) && Failing(w, i + 1, j)
    && Asks(w.run[j], w.steps[j], w.partner) && w.clocks[j].start < w.clocks[i].end + w.cfg.open
  }

  /** During the quiet period every transaction on an open delivery of the partner, if committed, is a deferral: it
      makes no POST, spends no attempt and leaves the delivery waiting for its next turn. */
  lemma DeferralSpendsNothing(w: Timed, i: nat, j: nat)
    requires IsWork(w) && AsksInOutage(w, i, j)
    ensures KeysBefore(w, j + 1).failures == KeysBefore(w, j).failures
    ensures w.run[j + 1].posts == w.run[j].posts && w.run[j + 1].tables.attempts == w.run[j].tables.attempts
    ensures var x := InHand(w.run[j], w.steps[j].env);
      && x in w.run[j + 1].tables.deliveries
      && var d, d' := w.run[j].tables.deliveries[x], w.run[j + 1].tables.deliveries[x];
         d'.attemptCount == d.attemptCount && (w.steps[j].WorkerProcess? ==> d'.status == RETRYING)
  {
    OpeningIsQuietHere(w, i);
    if w.steps[j].env.admitted {
      AdmittedLate(w, i, j, w.clocks[i].end);
    }
    RefusedStep(w, j);
    assert StepOk(w, j);
    QuietSteps(w, i, j, w.clocks[i].end);
    RefusedKeys(KeysBefore(w, j), w.cfg, w.clocks[j].start);
  }

  lemma RefusedKeys(k: Keys, cfg: Config, now: int)
    ensures Allow(k, cfg, now).0.failures == k.failures
  {
  }

  lemma RefusedStep(w: Timed, j: nat)
    requires IsWork(w) && j < |w.steps| && Asks(w.run[j], w.steps[j], w.partner) && !w.steps[j].env.admitted
    ensures w.run[j + 1].posts == w.run[j].posts && w.run[j + 1].tables.attempts == w.run[j].tables.attempts
    ensures var x := InHand(w.run[j], w.steps[j].env);
      && x in w.run[j + 1].tables.deliveries
      && var d, d' := w.run[j].tables.deliveries[x], w.run[j + 1].tables.deliveries[x];
         d'.attemptCount == d.attemptCount && (w.steps[j].WorkerProcess? ==> d'.status == RETRYING)
  {
    RunStep(w.run, w.steps, j);
    var h, s := w.run[j], w.steps[j];
    DeferralCommits(h.tables, InHand(h, s.env), h.settings, s.env);
    assert h.posts + [] == h.posts;
  }

  // ---------------------------------------------------------------- outages stop the POSTs

  /** Step `i` POSTs to the partner, the answer is neither accepted nor final, and the worker lives to record that. */
  predicate FailsAt(w: Timed, i: nat)
    requires Shaped(w) && i < |w.steps|
  {
    && PostsTo(w.run[i], w.run[i + 1], w.partner) && (w.steps[i].WorkerProcess? || w.clocks[i].recorded)
    && (w.steps[i].WorkerProcess? || w.steps[i].WorkerCrashBeforeCommit?)
    && !Accepted(w.steps[i].env) && !Answers.Refused(w.steps[i].env)
  }

  function FailedIn(w: Timed, from: nat, to: nat): nat
    requires Shaped(w) && to <= |w.steps|
  {
    if to <= from then 0 else FailedIn(w, from, to - 1) + if FailsAt(w, to - 1) then 1 else 0
  }

  /** Step `i` records a failure. */
  predicate RecordedAt(w: Timed, i: nat)
    requires Shaped(w) && i < |w.steps|
  {
    Records(w.run[i], w.steps[i], w.clocks[i], w.partner, RETRYABLE)
  }

  function RecordedIn(w: Timed, from: nat, to: nat): nat
    requires Shaped(w) && to <= |w.steps|
  {
    if to <= from then 0 else RecordedIn(w, from, to - 1) + if RecordedAt(w, to - 1) then 1 else 0
  }

  /** Such a failed POST, and nothing else, records a failure. */
  lemma FailureIsRecorded(w: Timed, i: nat)
    requires IsWork(w) && i < |w.steps|
    ensures FailsAt(w, i) <==> RecordedAt(w, i)
  {
    PostAt(w, i);
    if w.steps[i].WorkerProcess? || w.steps[i].WorkerCrashBeforeCommit? {
      AnswerClasses(w.steps[i].env);
    }
  }

  ghost predicate FailuresMatch(w: Timed) {
    Shaped(w) && forall i {:trigger FailsAt(w, i)} :: 0 <= i < |w.steps| ==> (FailsAt(w, i) <==> RecordedAt(w, i))
  }

  lemma WorkMatches(w: Timed)
    requires IsWork(w)
    ensures FailuresMatch(w)
  {
    forall i | 0 <= i < |w.steps|
      ensures FailsAt(w, i) <==> RecordedAt(w, i)
    {
      FailureIsRecorded(w, i);
    }
  }

  lemma {:induction false} FailedAreRecorded(w: Timed, from: nat, to: nat)
    requires FailuresMatch(w) && to <= |w.steps|
    ensures FailedIn(w, from, to) == RecordedIn(w, from, to)
  {
    if from < to {
      FailedAreRecorded(w, from, to - 1);
      assert FailsAt(w, to - 1) <==> RecordedAt(w, to - 1);
    }
  }

  ghost predicate NoneOpened(w: Timed, from: nat, to: nat)
    requires Shaped(w) && to <= |w.steps|
  {
    forall i {:trigger OpenedBy(w, i)} :: from <= i < to ==> !OpenedBy(w, i)
  }

  /** What a step without success does to a closed breaker that it does not open. */
  lemma ClosedVisit(w: Timed, i: nat)
    requires Shaped(w) && i < |w.steps| && StoredClosed(KeysBefore(w, i)) && !OpenedBy(w, i)
    ensures StoredClosed(KeysBefore(w, i + 1))
    ensures var k, now := KeysBefore(w, i), w.clocks[i].end;
      !SucceededAt(w, i) ==>
        KeysBefore(w, i + 1).failures ==
          if !RecordedAt(w, i) then k.failures
          else if CounterLive(k, now) then Some(Counter(k.failures.value.count + 1, k.failures.value.expires))
          else Some(Counter(1, now + w.cfg.window))
  {
  }

  lemma {:induction false} WorkStaysClosed(w: Timed, f: nat, i: nat)
    requires Shaped(w) && f <= i <= |w.steps| && StoredClosed(KeysBefore(w, f)) && NoneOpened(w, f, i)
    ensures StoredClosed(KeysBefore(w, i))
  {
    if f < i {
      WorkStaysClosed(w, f, i - 1);
      assert !OpenedBy(w, i - 1);
      ClosedVisit(w, i - 1);
    }
  }

  /** Step `f` records a failure that starts a new window of a closed breaker. */
  ghost predicate StartsWindow(w: Timed, f: nat)
    requires Shaped(w) && f < |w.steps|
  {
    RecordedAt(w, f) && StoredClosed(KeysBefore(w, f)) && !CounterLive(KeysBefore(w, f), w.clocks[f].end)
  }

  /** A closed breaker counts every failure in the window that step `f` begins. */
  lemma {:induction false} WorkCounts(w: Timed, f: nat, i: nat)
    requires Obeys(w) && f < i <= |w.steps| && StartsWindow(w, f) && Failing(w, f, i) && NoneOpened(w, f, i)
    requires w.clocks[i - 1].end < w.clocks[f].end + w.cfg.window
    ensures KeysBefore(w, i).failures == Some(Counter(RecordedIn(w, f, i), w.clocks[f].end + w.cfg.window))
  {
    WorkStaysClosed(w, f, i - 1);
    assert !OpenedBy(w, i - 1) && !SucceededAt(w, i - 1);
    ClosedVisit(w, i - 1);
    if i > f + 1 {
      assert StepOk(w, i - 1);
      WorkCounts(w, f, i - 1);
    } else {
      assert RecordedIn(w, f, f) == 0;
    }
  }

  lemma ReachesThreshold(w: Timed, f: nat, i: nat)
    requires Obeys(w) && f <= i < |w.steps| && StartsWindow(w, f) && Failing(w, f, i) && NoneOpened(w, f, i)
    requires w.clocks[i].end < w.clocks[f].end + w.cfg.window
    requires RecordedAt(w, i) && RecordedIn(w, f, i) + 1 >= w.cfg.threshold
    ensures OpenedBy(w, i)
  {
    WorkStaysClosed(w, f, i);
    if f < i {
      assert StepOk(w, i);
      WorkCounts(w, f, i);
    } else {
      assert RecordedIn(w, f, f) == 0;
    }
  }

  /** If so many failures fall into one window that they reach the threshold, one of them opens the breaker. */
  lemma {:induction false} FailuresOpen(w: Timed, f: nat, i: nat)
    requires Obeys(w) && f <= i < |w.steps| && StartsWindow(w, f) && Failing(w, f, i + 1)
    requires w.clocks[i].end < w.clocks[f].end + w.cfg.window && RecordedIn(w, f, i + 1) >= w.cfg.threshold
    ensures !NoneOpened(w, f, i + 1)
  {
    if NoneOpened(w, f, i) {
      if RecordedAt(w, i) {
        ReachesThreshold(w, f, i);
        assert OpenedBy(w, i);
      } else {
        assert StepOk(w, i);
        FailuresOpen(w, f, i - 1);
      }
    }
  }

  /** `threshold` failed POSTs of steps `f` to `i` fall into one window that the first of them begins. */
  ghost predicate Outage(w: Timed, f: nat, i: nat) {
    && Shaped(w) && f <= i < |w.steps| && FailsAt(w, f)
    && StoredClosed(KeysBefore(w, f)) && !CounterLive(KeysBefore(w, f), w.clocks[f].end)
    && w.clocks[i].end < w.clocks[f].end + w.cfg.window && FailedIn(w, f, i + 1) >= w.cfg.threshold
  }

  lemma OutageOpens(w: Timed, f: nat, i: nat) returns (j: nat)
    requires Obeys(w) && FailuresMatch(w) && Outage(w, f, i) && Failing(w, f, i + 1)
    ensures f <= j <= i && OpenedBy(w, j) && w.clocks[f].end <= w.clocks[j].end
  {
    FailedAreRecorded(w, f, i + 1);
    FailuresOpen(w, f, i);
    j :| f <= j < i + 1 && OpenedBy(w, j);
    EndsInOrder(w, f, j);
  }

  /** An outage stops the POSTs, on every run: once `threshold` POSTs to the partner in one window have failed with
      none succeeding, no POST to it starts within `open` of the first of them, unless a success is recorded. */
  lemma OutageStopsPosts(w: Timed, f: nat, i: nat, k: nat)
    requires IsWork(w) && Outage(w, f, i) && i < k < |w.steps| && Failing(w, f, k)
    requires w.clocks[k].start < w.clocks[f].end + w.cfg.open
    ensures !PostsTo(w.run[k], w.run[k + 1], w.partner)
  {
    WorkMatches(w);
    var j := OutageOpens(w, f, i);
    if PostsTo(w.run[k], w.run[k + 1], w.partner) {
      FirstPostAfterOpening(w, j, k);
    }
  }

  lemma {:induction false} EndsInOrder(w: Timed, i: nat, j: nat)
    requires Obeys(w) && i <= j < |w.steps|
    ensures w.clocks[i].end <= w.clocks[j].end
  {
    if i < j {
      EndsInOrder(w, i, j - 1);
      assert StepOk(w, j);
    }
  }

  /** The breaker does not get in the way: as long as no failure has opened it since a success, or since the start,
      every transaction on an open delivery of the partner whose secret loads makes its POST. */
  lemma ClosedLetsPost(w: Timed, s: nat, i: nat)
    requires IsWork(w) && s <= i < |w.steps| && Asks(w.run[i], w.steps[i], w.partner)
    requires (s == 0 || SucceededAt(w, s - 1)) && NoneOpened(w, s, i)
    ensures PostsTo(w.run[i], w.run[i + 1], w.partner)
  {
    WorkStaysClosed(w, s, i);
    assert StepOk(w, i);
    PostAt(w, i);
  }
}
