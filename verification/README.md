# Webhook delivery hub: a verified model

The hub accepts events, stores one delivery per matching partner endpoint together with an outbox row, relays the
row to Kafka, and lets a sequential worker POST the delivery until it is delivered or dead-lettered. Failed
deliveries can be replayed. This project models that path and the stateful services around it, and proves what they
keep over every input, every call trace and every run, with crashes possible between any two steps.

`dafny verify dfyconfig.toml` checks everything.

## How it is organised

| module | part of the hub |
|---|---|
| `Status`, `Outcomes`, `Tables`, `Text` | status machine, answer classification, backoff and topics, rows with unique constraints, key strings |
| `Outbox`, `Replays`, `Processor`, `Lifecycle`, `Answers` | one transaction at a time: fan-out insert, replay, the processor's six exits, and the table invariant |
| `Protocol`, `ProtocolSafety`, `NoLoss`, `History`, `Accounting` | the whole protocol as a transition system, and its runs |
| `Continuations`, `OffsetReset`, `StuckReplays`, `Finish`, `Repeats` | what the consumer's missing offset-reset policy costs, which replays are stuck, which deliveries can still be delivered, and repeated requests, over all continuations |
| `WorkerTraces`, `Consumer`, `Relay` | the two worker loops as imperative code, tied to the protocol's steps |
| `Breaker`, `BreakerUse`, `RateLimit`, `Signing` | circuit breaker (alone and in the processor's hands), token bucket, secret rotation |
| `AcceptCache`, `Enqueue`, `Staleness`, `Inbound`, `BulkReplay`, `Approvals` | accept-path cache, outbound acceptance, inbound idempotency, bulk replay and approvals |

Code that updates state step by step is a class whose methods are proved against specification functions; the
properties are then proved about those functions, over whole traces.

## Results about the code that a maintainer should know

- **A delivery is replayed at most once.** Replay keeps the dead-letter row, which is unique per delivery, so a
  replayed delivery can never be committed FAILED again (`ConservationOk` in `ProtocolSafety.CommittedStatesOk`).
- **Some replays can never finish.** A POISON failure stores attempt row `attempt_count + 1` without counting it, and a
  counter reset goes back below existing rows. The next POST's commit then meets the unique constraint.
  `Finish.ReplayCanFinishIff` gives the exact condition (the counter replayed with equals the number of stored rows), and
  `StuckReplays` gives runs that get there.
- **Replays can hold up a partition.** An aborted commit ends the worker, which meets the same record again after its
  restart, so every later record of the partition waits. `Lifecycle.AbortsIff` says exactly when a commit aborts and
  `StuckReplays.HeadHeldIff` that a record holds its partition exactly as long as each transaction on it does. This is
  not only for deliveries that can never finish: after the ordinary replay of a delivery whose attempts ran out, every
  answer but a 2xx aborts (`StuckReplays.ExhaustedReplayBlocks`), and after any replay a final refusal or a missing
  secret does.
- **No delivery is lost, if offsets are provisioned.** The consumer passes no reset policy. If the client library starts
  at the end of partitions without a committed offset, deliveries can be lost for good, on the pending topic and on
  every retry tier that the settings use. `OffsetReset.NeverLosesIffProvisioned` is the exact condition. Deliveries may
  carry any attempt limit (the admin API takes 1 to 255); the losing runs need no more than the default of 8.
- **The backoff jitter is constant.** The processor passes a random source that always returns 0.0, so each delay is
  nine tenths of the nominal one (`Outcomes.DelayBounds`); a first deferral uses the base delay unchanged.
- **A partner without secret rows has no overlap** at its first rotation (`Signing.LegacyPartnerHasNoOverlap`).
- **The 409 answers of both accept paths are unreachable** with fresh ids (`Enqueue.ConflictAnswerUnreachable`,
  `Inbound.OneEventPerKey`).

## What is taken from the outside world

Clock readings, POST results, the breaker's verdict inside a single transaction, whether a secret decrypts, freshly
generated ids, Kafka's choice of partition and its acknowledgements, Redis losing entries, and the shutdown signal are
parameters, quantified over in every statement. Fernet and the MAC (HMAC, section 2 of RFC 2104) are function
parameters; only "decryption undoes encryption" is assumed of them. JSON Schema validation is a function parameter.

Assumed, and written into the model or as preconditions: one worker process, one value of the backoff settings per
run, each Redis-backed call and each transaction atomic, a non-decreasing clock for the breaker and for the bucket's
interval bound, one fixed rate per bucket trace, one process per cache where it is invisible, positive Redis TTLs, fresh public ids where
idempotency is stated, and endpoint rows with distinct primary keys.

## Model

| member | source | states |
|---|---|---|
| `NoLoss.NoDeliveryLost` | app/workers/outbound_consumer.py:140-174 | In every state of every run from a provisioned start, crashes included, each open delivery has an unpublished outbox row or a Kafka record that a restarted worker would read |
| `NoLoss.StepKeepsCover` | app/workers/outbound_processor.py:277-313 | Every single step (enqueue, replay, relay send/commit/crash, worker start/take/process/publish/ack/crash, crash between POST and commit) keeps the cover: publish follows commit, offset commit follows publish, mark follows send |
| `OffsetReset.NeverLosesIffProvisioned` | app/workers/outbound_consumer.py:82-88 | From any initial state, under the deployment's one backoff setting: no run ever loses a delivery, and no run ever strands one for good, if and only if every partition that records can reach has a committed offset or unread partitions are read from the start. Reachable are the pending topic and the 30s, 5m, 15m and 1h tiers always, the 1m tier iff 45 < 0.9*min(base*multiplier, max) <= 90 |
| `OffsetReset.LatestLoses` | app/workers/outbound_consumer.py:82-88 | For every start with an uncommitted pending partition under `latest` there is a run that leaves a delivery open with nothing that will ever process it |
| `OffsetReset.LatestLosesRetries` | app/workers/outbound_processor.py:285-313 | The same for every uncommitted partition of a retry tier that the settings use: publish, offset commit, crash and restart leave the retry behind for good, within the default limit of eight attempts |
| `OffsetReset.EveryUsedTopicIsReached` | app/domain/services/retry_topics.py:20-29 | For all settings, every tier they use is reached by some failure before the default attempt limit |
| `NoLoss.RetryTopicIsUsed` | app/workers/outbound_processor.py:162-194 | For all settings, every retry published after a POST or a deferral goes to a tier they use |
| `Continuations.GoneIsForever` | app/workers/outbound_consumer.py:110-125 | Once all records of an open delivery lie below the resume offsets and the live positions and its outbox rows are published, no sequence of steps ever processes, changes or POSTs it again |
| `ProtocolSafety.RunKeepsHub` | app/workers/outbound_processor.py:98-366 | Tables, logs, offsets and worker position keep their joint invariant in every state of every run |
| `ProtocolSafety.CommittedStatesOk` | app/workers/outbound_processor.py:196-220 | In every committed state of every run: attempt rows are exactly 1..n with the counter at most n, an open delivery without dead letter has counter = n below its limit, DELIVERING is never stored, SLA fields are exact, outbox rows = 1 + replay audits, at most one replay |
| `Lifecycle.ProcessKeepsTables` | app/workers/outbound_processor.py:98-325 | Every committed processor transaction keeps that table invariant for all deliveries |
| `Lifecycle.CommitKeepsOwn` | app/domain/models/attempt.py:28 | A commit that passes the unique constraints keeps the processed delivery's invariant and adds exactly one attempt row per POST |
| `Lifecycle.ReplayKeepsTables` | app/domain/services/replay_service.py:81-126 | A replay, with or without counter reset, keeps the table invariant |
| `Replays.ReplayChanges` | app/domain/services/replay_service.py:59-126 | A replay takes exactly FAILED deliveries; it changes status and, if asked, counter of that row, adds one outbox row and one audit, and nothing else |
| `Lifecycle.PersistKeepsTables` | app/domain/services/outbox.py:47-98 | A persisted fan-out keeps the table invariant |
| `Lifecycle.FirstLifeNeverAborts` | app/workers/outbound_processor.py:277-325 | Before its first dead letter an open delivery's commit never meets a unique constraint, whatever the answer |
| `Lifecycle.CommitMakesProgress` | app/workers/outbound_processor.py:162-325 | A commit after a POST ends the delivery or strictly reduces max_attempts - attempt_count and stays above 0; a commit without a POST spends no attempt |
| `Lifecycle.CommitFollowsEdges` | app/domain/services/status_machine.py:5-35 | Every commit's status change is a path of allowed edges |
| `Finish.ReplayCanFinishIff` | app/domain/services/replay_service.py:87-88 | In every state of a provisioned run with a partition per used tier: a replayed delivery has a continuation that ends DELIVERED if and only if the counter it is replayed with equals its number of attempt rows |
| `Finish.OpenCanFinishIff` | app/workers/outbound_processor.py:196-220 | The same for any open delivery: earlier records of its partition can be passed by deferral, however many there are, and the delivery then delivered; otherwise no continuation delivers it |
| `Lifecycle.SuccessCommitsIff` | app/workers/outbound_processor.py:229-243 | A successful POST is committed as DELIVERED iff the counter equals the number of attempt rows |
| `Answers.AnswerDecides` | app/workers/outbound_processor.py:98-325 | For every open delivery, replayed or not: POSTed iff the secret loads and the breaker admits; if committed, FAILED without secret, RETRYING on a refusal by the breaker, DELIVERED iff a 2xx answer, FAILED iff a final refusal or the last attempt, RETRYING otherwise; success time, breach, counter, attempt row, outcome and all other columns exactly; skipped iff not open |
| `Answers.RetryAgreesWithRow` | app/workers/outbound_processor.py:162-313 | A published retry names the committed row's own time, attempt and delivery, goes to the tier of that attempt, and waits exactly nine tenths of the nominal delay (before the first attempt the base delay) |
| `Outcomes.DelayBounds` | app/domain/services/backoff.py:10-26 | Jitter stays within a tenth; the processor's delays never shrink and stay below nine tenths of the maximum |
| `Outcomes.TiersGrow` | app/domain/services/retry_topics.py:20-29 | Later attempts never go to an earlier tier, and never to the pending topic |
| `Outcomes.TierOf` | app/domain/services/retry_topics.py:20-29 | The exact tier of every attempt and delay |
| `Outcomes.DelayLaw` | app/domain/services/backoff.py:10-26 | The nominal delay starts at the base, is multiplied after every attempt and is cut off at the maximum |
| `Outcomes.ClassifyCases` | app/domain/services/delivery_attempt.py:27-64 | Exactly which statuses and errors are a success and which are final, for every endpoint's retry codes |
| `Outcomes.FirstSuccessStands` | app/domain/services/sla_service.py:4-14 | The first success time and a noted breach stand; otherwise the breach is exactly lateness |
| `History.DeliveredIsFinal` | app/workers/outbound_processor.py:119-133 | After DELIVERED no step of any run changes the row, its attempts or dead letter, and no further POST is made, not even by a crash before a commit |
| `History.StepTouches` | app/workers/outbound_processor.py:98-366 | Only the worker's commit of an open delivery, or the replay of a failed one, ever changes a delivery |
| `History.StepPosts` | app/workers/outbound_processor.py:119-124 | A step POSTs for a delivery only while it is open |
| `Accounting.PostsAccounted` | app/workers/outbound_processor.py:199-220 | On every run a delivery's POSTs are its attempt rows plus the steps that POSTed and stored none (abort, or death before the commit) |
| `Accounting.PostsBounded` | app/workers/outbound_processor.py:285-325 | So a partner sees a delivery at most as often as its attempt limit, once more if a replay delivered it, and once per such abort or death |
| `History.StatusFollowsEdges` | app/domain/services/status_machine.py:5-35 | Between any two committed states of a run the status moved along allowed edges only |
| `History.IdentityNeverChanges` | app/domain/models/delivery.py:28-60 | Deliveries are never removed and their partner, endpoint and keys never change |
| `History.DeadLetterIffEverFailed` | app/workers/outbound_processor.py:339-350 | A delivery has its dead-letter row if and only if some state so far had it FAILED |
| `History.BehindIsStuck` | app/workers/outbound_processor.py:261-275 | An open delivery whose counter is behind its attempt rows stays open, with the same counter and rows, in every continuation of every run |
| `StuckReplays.PoisonThenReplayIsStuck` | app/workers/outbound_processor.py:261-275 | From every start at which a worker reads some pending partition there is a run, one 404 answer and a replay, after which no continuation ever ends the delivery |
| `StuckReplays.ResetThenReplayIsStuck` | app/domain/services/replay_service.py:87-88 | The same for eight failed attempts and a replay that resets the counter |
| `Lifecycle.AbortsIff` | app/workers/outbound_processor.py:196-350 | The processor's commit aborts if and only if the delivery is open and its POST is made while the counter is behind the attempt rows, or it has a dead letter and the transaction ends FAILED (no secret, POISON, or RETRYABLE at the last attempt) |
| `Lifecycle.CollisionCases` | app/domain/models/dead_letter.py:18-23 | Which answers abort: none before the first dead letter; after a replay those that end FAILED; with no attempt left everything but a success or a deferral; behind the attempt rows everything but a deferral |
| `StuckReplays.HeadHeldIff` | app/workers/outbound_consumer.py:98-125 | Head-of-line blocking, exactly: on every run the record at the head of a partition stays there if and only if each transaction on it aborts so |
| `StuckReplays.StuckRecordBlocks` | app/workers/outbound_consumer.py:98-125 | The record of a delivery behind its attempt rows is held on every run in which the breaker never refuses it |
| `StuckReplays.BlockedIsReachable` | app/workers/outbox_relay.py:85-105 | From every such start there is a run, one 404 answer and a replay, to a partition head on which everything but a deferral aborts |
| `StuckReplays.ExhaustedReplayBlocks` | app/domain/services/replay_service.py:194-200 | From every such start there is a run, eight failed attempts and an ordinary replay, to a head that is not behind but on which everything but a success or a deferral aborts |
| `Status.DeliveredIsTerminal` | app/domain/services/status_machine.py:5-35 | The only path from DELIVERED is the empty one |
| `Status.EdgesAre` | app/domain/services/status_machine.py:5-35 | The allowed edges, all of them, by meaning; open statuses are exactly those that may be picked up |
| `Processor.OutboundProcessor.ProcessOutboundMessage` | app/workers/outbound_processor.py:98-325 | Commits, aborts, POSTs and publishes exactly as the specification `Process`; publishing only after a successful commit |
| `Processor.OutboundProcessor.MarkFailedDlq` | app/workers/outbound_processor.py:328-350 | FAILED and the dead letter are committed together or not at all |
| `Processor.OutboundProcessor.CommitSession` | app/domain/models/dead_letter.py:18-23 | A commit applies all rows or, on a unique violation, none |
| `Consumer.OutboundConsumer.Run` | app/workers/outbound_consumer.py:98-125 | However far the loop gets and however it ends, its own actions and those of the rest of the hub meanwhile are one trace of enabled protocol steps; no committed offset passed a record whose processing, publication of the retry included, did not return; only the signal shuts it down, and if nothing else goes wrong only an aborted transaction ends it by an exception; otherwise every poll is made and all it fetched is committed; a covered hub has lost nothing |
| `Consumer.OutboundConsumer.HandleMessage` | app/workers/outbound_consumer.py:140-174 | Commits exactly the record's own offset or leaves offsets alone, the latter only after an exception or shutdown; never starts a retry record before its time |
| `Consumer.OutboundConsumer.ProcessAndCommit` | app/workers/outbound_consumer.py:158-174 | If the transaction, the retry's publication and the offset commit all return, the offset is committed; otherwise the exception leaves it alone, unless it came after the offset commit took effect |
| `Consumer.OutboundConsumer.ProcessRecord` | app/workers/outbound_processor.py:98-366 | The transaction is the protocol's process step at the clock's time, or its crash before the commit; it raises iff the commit aborts, something breaks before it, or a notification after a commit without retry raises; offsets and logs are untouched |
| `Consumer.OutboundConsumer.PublishRetry` | app/workers/outbound_processor.py:299-313 | The retry is published as the protocol's step; the producer may raise before or after the record is stored; offsets are untouched |
| `Consumer.OutboundConsumer.CommitOffset` | app/workers/outbound_consumer.py:171-174 | Commits exactly the offset behind the record in hand, or raises, before or after that took effect |
| `Consumer.OutboundConsumer.WaitUntilScheduled` | app/workers/outbound_consumer.py:40-62 | Terminates, and returns only when the time has come or shutdown was requested |
| `Consumer.OutboundConsumer.HandleSlice` | app/workers/outbound_consumer.py:111-125 | Commits one partition's fetched records in order, none past the first failure |
| `Consumer.OutboundConsumer.HandleBatch` | app/workers/outbound_consumer.py:110-125 | Commits a whole batch in order unless an exception or shutdown ends it |
| `Consumer.OutboundConsumer.GetMany` | app/workers/outbound_consumer.py:98-105 | Fetched slices continue each partition's position without gap or overlap |
| `Consumer.FetchedIsChained` | app/workers/outbound_consumer.py:98-105 | For every poll the slices chain from position to position inside the logs |
| `Consumer.FetchedTakesAll` | app/workers/outbound_consumer.py:98-105 | A poll that asks for enough of a partition takes all that is left of it |
| `WorkerTraces.OffsetsNeverPass` | app/workers/outbound_consumer.py:149-174 | On every trace of one worker process, among any steps of the rest of the hub, each record between start and committed offset had a transaction that found nothing to do or was committed, and the retry that transaction called for is in its log |
| `WorkerTraces.NeverEarly` | app/workers/outbound_consumer.py:149-156 | On every such trace no retry-topic record is processed before its scheduled time; the guard of the protocol's step, which `HandleMessage` and `WaitUntilScheduled` discharge for the loop |
| `Relay.OutboxRelay.PublishUnpublishedBatch` | app/workers/outbox_relay.py:75-109 | Sends the selected rows in order up to the end or the process's death, stores their records, marks acknowledged rows, counts raised sends (also those whose record was stored), and reports the number acknowledged |
| `Relay.OutboxRelay.SendRow` | app/workers/outbox_relay.py:86-105 | One send's effect on the log and on its row |
| `Relay.OutboxRelay.Turn` | app/workers/outbox_relay.py:130-133 | A turn that dies anywhere before its commit leaves the rows unmarked and the records sent so far in the logs |
| `Relay.OldestFirst` | app/workers/outbox_relay.py:32-39 | An unpublished row is left out of a batch only if the batch is full of older ones |
| `Relay.UnpublishedInRange` | app/workers/outbox_relay.py:32-39 | The batch holds at most `limit` rows, all unpublished, oldest first, none twice |
| `Relay.MarkedRow` | app/workers/outbox_relay.py:85-105 | After a batch each row is published, counted or untouched according to its own send |
| `Relay.MarkedRowsWereSent` | app/workers/outbox_relay.py:86-102 | Every row a batch marks has its delivery's record in the log |
| `Relay.TurnIsProtocolSteps` | app/workers/outbox_relay.py:129-133 | Every turn, whichever sends raise and wherever it dies, is a sequence of enabled protocol steps with the same logs and the same outbox but for the send counters, and nothing else changed |
| `Breaker.CircuitBreaker.GetCircuitState` | app/domain/services/circuit_breaker.py:72-97 | Reads the state as the specification does, an OPEN that has lasted `open` counting as HALF_OPEN |
| `Breaker.CircuitBreaker.AllowOutbound` | app/domain/services/circuit_breaker.py:143-174 | New keys and verdict are those of the specification `Allow` |
| `Breaker.CircuitBreaker.RecordFailure` | app/domain/services/circuit_breaker.py:184-217 | New keys and state are those of `Fail` |
| `Breaker.CircuitBreaker.RecordSuccess` | app/domain/services/circuit_breaker.py:227-243 | Clears the counter, probe and opening time and stores CLOSED |
| `Breaker.FirstAdmissionAfterOpening` | app/domain/services/circuit_breaker.py:143-174 | The first call admitted after an opening, with no success between, is at least `open` later |
| `Breaker.AdmissionsAreSpaced` | app/domain/services/circuit_breaker.py:143-204 | Between an opening and the next success any two admitted calls are at least `open` apart |
| `Breaker.AlwaysSane` | app/domain/services/circuit_breaker.py:198-215 | On every trace a stored OPEN has its opening time and a live probe exists only in HALF_OPEN |
| `Breaker.NeverSticks` | app/domain/services/circuit_breaker.py:162-174 | From every reachable state, if nothing is recorded for `open` and a call comes at its end, some call was admitted |
| `Breaker.CounterMeaning` | app/domain/services/circuit_breaker.py:206-208 | The stored counter is the number of counted failures since its window began, with no success since |
| `Breaker.OpeningIsJustified` | app/domain/services/circuit_breaker.py:206-217 | A change from CLOSED to OPEN has at least `threshold` failures within the last `window` and no success among them |
| `Breaker.ThresholdOpens` | app/domain/services/circuit_breaker.py:206-217 | The converse: `threshold` failures within a window that a closed breaker begins, with no success among them, open it |
| `Breaker.CounterOpens` | app/domain/services/circuit_breaker.py:206-217 | In any state short of half-open, a failure in a live window opens the breaker, anew if it is open already, if and only if the failures counted since the window began reach the threshold |
| `Breaker.HalfOpenFailureReopens` | app/domain/services/circuit_breaker.py:198-204 | A failure recorded while half-open always opens it again |
| `Breaker.FailuresStopCalls` | app/domain/services/circuit_breaker.py:143-217 | So after such failures every call of the next `open` is refused unless a success is recorded |
| `Breaker.AdmitsWhileClosed` | app/domain/services/circuit_breaker.py:143-160 | A call is admitted whenever no failure has opened the breaker since the last success or the start |
| `BreakerUse.FirstPostAfterOpening` | app/workers/outbound_processor.py:162-194 | On every protocol run, after a failure that opens the breaker, the partner's next POST starts at least `open` later |
| `BreakerUse.PostsAreSpaced` | app/workers/outbound_processor.py:162-277 | On every protocol run, while the breaker has been opened and no success has been recorded, any two POSTs to the partner start at least `open` apart, across all its deliveries and across workers that die before recording or committing |
| `BreakerUse.PostIsAdmitted` | app/workers/outbound_processor.py:162-206 | A step POSTs to the partner iff it is a transaction on one of its open deliveries whose secret loaded and which the breaker admitted |
| `BreakerUse.OutageStopsPosts` | app/workers/outbound_processor.py:162-277 | On every protocol run, once `threshold` POSTs to the partner in one window failed with none succeeding, no POST to it starts within `open` of the first, unless a success is recorded |
| `BreakerUse.ClosedLetsPost` | app/workers/outbound_processor.py:162-206 | As long as no failure has opened the breaker since a success or the start, every such transaction makes its POST |
| `BreakerUse.DeferralSpendsNothing` | app/workers/outbound_processor.py:162-194 | During that time every transaction on the partner's open deliveries makes no POST, spends no attempt, leaves the failure counter untouched and, if committed, leaves the delivery RETRYING |
| `RateLimit.TokenBucket.AllowRequest` | app/domain/services/rate_limit.py:27-72 | New keys and verdict are those of the specification `Allow` |
| `RateLimit.AlwaysInBounds` | app/domain/services/rate_limit.py:43-72 | 0 <= tokens <= rps on every trace, with any clock |
| `RateLimit.ForwardBound` | app/domain/services/rate_limit.py:43-72 | On every trace, with any clock, the calls from i to j allow at most rps + rps * (sum of the clock's forward moves between them); none for a rate below one |
| `RateLimit.IntervalBound` | app/domain/services/rate_limit.py:43-72 | If the clock never runs backwards, in every interval [s, t] at most rps + rps*(t-s) calls are allowed |
| `RateLimit.DeniedIff` | app/domain/services/rate_limit.py:60-72 | A call is denied if and only if since some earlier call so many were allowed that less than one token is left of a full bucket and the inflow since |
| `RateLimit.FirstCallsAllowed` | app/domain/services/rate_limit.py:52-55 | A new bucket allows its first rps calls, however fast they come |
| `RateLimit.BackwardClockBreaksBound` | app/domain/services/rate_limit.py:60-66 | A concrete trace whose clock runs back, with two calls allowed at one instant at rate 1 |
| `RateLimit.DeniedIsInvisible` | app/domain/services/rate_limit.py:60-67 | A denied call changes no later level |
| `RateLimit.DroppingKeepsLevel` | app/domain/services/rate_limit.py:60-72 | Deleting any set of denied calls leaves every later level the same |
| `RateLimit.DroppingKeepsDecisions` | app/domain/services/rate_limit.py:60-72 | ... and every remaining decision the same |
| `Signing.SigningSecretStore.RotatePartnerSigningSecret` | app/domain/services/signing_secrets.py:135-165 | Rows and column after the in-place rotation are those of `Rotate` |
| `Signing.SigningSecretStore.LoadInboundSigningSecrets` | app/domain/services/signing_secrets.py:82-113 | The loop returns the primary and the first valid previous secret that decrypts |
| `Signing.RowsClosedForm` | app/domain/services/signing_secrets.py:143-165 | After any k rotations the rows are exactly versions 1..k+1: one primary, one previous valid until r_k + overlap, the rest revoked; the column holds secret k |
| `Signing.RotationChanges` | app/domain/services/signing_secrets.py:143-165 | What a rotation does to any rows: which row becomes previous and until when, which are revoked, which stay, and the new row's version |
| `Signing.OfferedSecrets` | app/domain/services/signing_secrets.py:82-132 | Inbound verification is offered secret k, plus secret k-1 iff t < r_k + overlap; outbound uses secret k |
| `Signing.LegacyPartnerHasNoOverlap` | app/domain/services/signing_secrets.py:91-98 | A partner with only the column accepts its old secret until its first rotation and not after |
| `Signing.AcceptedSignatures` | app/domain/services/hmac_service.py:38-59 | After any k rotations a header is accepted iff the timestamp is in tolerance and the header is "sha256=" and the MAC of timestamp, dot and body by secret k, or by secret k-1 during the overlap |
| `Signing.SignatureBinds` | app/domain/services/hmac_service.py:9-10 | With a collision-free MAC a header signed for one timestamp and body is accepted, by the same secret, for no other |
| `Signing.SignedIsAccepted` | app/domain/services/hmac_service.py:23-24 | What is signed is accepted within the tolerance |
| `Signing.LoadCases` | app/domain/services/signing_secrets.py:82-132 | For any rows, column and key: which secrets are loaded, also when decryption fails or there is no primary row |
| `Signing.FirstPreviousIs` | app/domain/services/signing_secrets.py:105-113 | The previous secret is that of the first row in its overlap that decrypts, none iff there is no such row |
| `Text.PrefixHitsOnePartner` | app/domain/services/accept_path_cache.py:127-131 | The invalidation prefix of partner p starts an endpoint key of partner q iff p = q |
| `Text.EndpointsKeyInjective` | app/domain/services/accept_path_cache.py:63-64 | Endpoint keys separate every (partner, event type) |
| `Text.KindsDiffer` | app/domain/services/accept_path_cache.py:59-68 | Keys of different kinds never coincide, nor do other kinds match an endpoint prefix |
| `Text.RedisKeyInjective` | app/domain/services/idempotency.py:13-17 | Redis keys separate every (partner, idempotency key), whatever characters the key holds |
| `Text.DerivedKeyInjective` | app/domain/services/delivery_service.py:20-21 | Derived keys separate every (client key, endpoint), even for client keys with "::" |
| `Text.DecimalReadsBack` | app/domain/services/accept_path_cache.py:63-64 | The decimal text in the keys spells its number, with sign and without leading zeros |
| `AcceptCache.AcceptPathCache.CacheGet` | app/domain/services/accept_path_cache.py:19-27 | Returns a live value, and removes an expired entry |
| `AcceptCache.AcceptPathCache.CacheSet` | app/domain/services/accept_path_cache.py:30-31 | Replaces exactly this key's entry |
| `AcceptCache.AcceptPathCache.InvalidateEndpointsForPartner` | app/domain/services/accept_path_cache.py:127-131 | The deletion loop removes exactly the keys with the partner's prefix |
| `AcceptCache.AcceptPathCache.InvalidateByPublicId` | app/domain/services/accept_path_cache.py:34-44 | Drops the partner entry and, if it was cached, that partner's endpoint keys |
| `AcceptCache.InvalidationIsExact` | app/domain/services/accept_path_cache.py:127-131 | Prefix invalidation drops one partner's endpoint keys and no other key |
| `AcceptCache.InvalidationDropsOnly` | app/domain/services/accept_path_cache.py:34-52 | Invalidating a partner or a schema drops exactly the entries it is about |
| `AcceptCache.SetThenGet` | app/domain/services/accept_path_cache.py:12-31 | What is set is answered for 30 seconds and no longer, and no other key's answer changes |
| `AcceptCache.WriteChanges` | app/api/v1/admin/endpoints.py:126-136 | Each admin write changes the one row it is about |
| `AcceptCache.WriteDropsOnly` | app/domain/services/accept_path_cache.py:34-52 | An admin write drops exactly the entries it is about; rotating a secret drops none |
| `AcceptCache.SetKeepsMirror` | app/domain/services/accept_path_cache.py:30-31 | Storing a database answer under its key keeps every cached lookup equal to the database |
| `AcceptCache.WriteKeepsMirror` | app/api/v1/admin/endpoints.py:88-90 | Every admin write followed by its invalidation keeps every cached lookup equal to the database |
| `Enqueue.OutboundEnqueue.EnqueueOutboundForEvent` | app/domain/services/outbound_enqueue.py:68-189 | Cache, tables and response are those of the specification `CachedEnqueue` |
| `Enqueue.OutboundEnqueue.PersistFanOut` | app/domain/services/outbound_enqueue.py:118-189 | The loop builds one delivery per endpoint; persisted or rolled back as `FanOut` says |
| `Enqueue.CachedEqualsDirect` | app/domain/services/outbound_enqueue.py:79-116 | One enqueue through a mirroring cache answers and writes what an uncached one does |
| `Enqueue.CacheIsInvisible` | app/domain/services/outbound_enqueue.py:79-116 | Over every sequence of enqueues, admin writes and clock changes the cached process gives the same responses and rows as one that always reads the database |
| `Enqueue.AnswerCases` | app/domain/services/outbound_enqueue.py:79-116 | Which answer a request gets, from the rows alone: no partner, partner not active, rejected by the newest active schema, no live outbound endpoint for the event type, or the fan-out's answer |
| `Enqueue.LookupsAreCached` | app/domain/services/outbound_enqueue.py:79-114 | What a lookup has fetched it answers from the cache for the next 30 seconds |
| `Staleness.CachedAnswerIsRecent` | app/domain/services/accept_path_cache.py:19-31 | With writes this process does not see, by others or between a fetch and its storing, every cached answer used was the database's answer less than TTL plus the fetch's latency ago |
| `Staleness.LookupsAreRecent` | app/domain/services/outbound_enqueue.py:79-114 | So each of the three lookups answers as the database did at such a moment |
| `Enqueue.ConflictIffAlreadySent` | app/domain/models/delivery.py:33 | The insert conflicts iff some endpoint was already served for the same client key |
| `Enqueue.FanOutIsIdempotent` | app/domain/services/outbound_enqueue.py:152-189 | Either one new delivery and one outbox row naming it per endpoint, or nothing and exactly the deliveries with that source key |
| `Repeats.RepeatIsDuplicate` | app/domain/services/outbound_enqueue.py:160-168 | A request accepted at any state of a run and repeated with its client key at any later state, with endpoints that meet the earlier ones, adds nothing and answers exactly the deliveries with that source key, among them all of the first request |
| `Repeats.RunKeepsKeys` | app/domain/services/delivery_service.py:20-21 | In every state of every run whose enqueues carry derived keys, every stored key is derived from its delivery's own source and endpoint |
| `Repeats.AcceptIsStep` | app/domain/services/outbound_enqueue.py:152-189 | An accepted fan-out is one enabled enqueue step of the protocol with derived keys |
| `Enqueue.FetchedEndpoints` | app/domain/services/delivery_service.py:47-61 | The query returns exactly the serving endpoints, each once |
| `Enqueue.AcceptedRow` | app/domain/services/delivery_service.py:94-119 | Each endpoint of an accepted request gets a fresh PENDING delivery under the derived key, due by the endpoint's own SLA or else the partner's, and an unpublished outbox row naming it |
| `Enqueue.FetchedSchema` | app/domain/services/schema_registry.py:47-61 | The schema lookup returns the highest active version for the event type, and nothing only if there is none |
| `Enqueue.ConflictAnswerUnreachable` | app/domain/services/outbound_enqueue.py:169-175 | With fresh ids the 409 fallback is never reached |
| `Outbox.PersistAddsExactly` | app/domain/services/outbox.py:47-98 | A persisted batch adds exactly its deliveries and, for each, one outbox row carrying its own envelope |
| `Outbox.JoinPairs` | app/domain/services/outbox.py:67-97 | With distinct public ids the join is the pairing, in order |
| `Outbox.RefusedIff` | app/domain/services/outbox.py:55-58 | Exactly when the insert is refused, and how |
| `Inbound.InboundEndpoint.IngestEvent` | app/api/v1/inbound/events.py:388-462 | Rows, Redis and answer are those of the specification `Ingest` |
| `Inbound.InboundEndpoint.FlushInbound` | app/domain/models/inbound_event.py:26 | The flush succeeds iff the pair and the id are new |
| `Inbound.RunOk` | app/api/v1/inbound/events.py:388-462 | On every trace, with Redis absent, failing or losing entries: one event and one outbox row per pair, every cached id equals the row's id, every answer carries the stored id |
| `Inbound.IngestCases` | app/api/v1/inbound/events.py:388-462 | Which answer a request gets and what it changes: accepted and stored iff the pair is new and Redis does not fail, an error after the commit if the Redis write raises, duplicate iff known |
| `Inbound.CachedUntilExpiry` | app/domain/services/idempotency.py:34-48 | A cached id is used exactly until its time to live ends |
| `Inbound.OneEventPerKey` | app/api/v1/inbound/events.py:388-462 | All accepted and duplicate answers for one pair carry one id, that of its only event; 409 is never answered |
| `Inbound.AcceptedOnce` | app/domain/services/idempotency.py:20-48 | At most one request per pair is answered accepted |
| `BulkReplay.ReplayService.ReplayDelivery` | app/domain/services/replay_service.py:59-126 | Status, counter, audit and outbox row change together, for a FAILED delivery only |
| `BulkReplay.ReplayService.BulkReplayDeliveries` | app/domain/services/replay_service.py:158-203 | The five lists hold each requested position in the list of its kind, in order |
| `BulkReplay.ListsPartitionRequest` | app/domain/services/replay_service.py:170-201 | The five lists together are exactly the request, as a multiset |
| `BulkReplay.PositionCases` | app/domain/services/replay_service.py:170-201 | Each position's list, from its row and the partner's breaker and limiter: replayed iff FAILED, circuit not open and allowed |
| `BulkReplay.BulkReplaysExactly` | app/domain/services/replay_service.py:158-203 | The replayed ids are distinct and exactly the deliveries moved FAILED to REPLAYING, one outbox row and audit each; nothing else changes |
| `BulkReplay.RepeatedIdReplayedOnce` | app/domain/services/replay_service.py:176-180 | A repeated id is skipped as invalid status after its first replay |
| `Approvals.ReplayApprovalService.CreateReplayApproval` | app/domain/services/replay_approval_service.py:42-68 | An approval is created iff the delivery exists and is FAILED |
| `Approvals.ReplayApprovalService.ApproveReplayApproval` | app/domain/services/replay_approval_service.py:71-107 | Approving replays exactly once and marks the approval, the mark alone being lost by a crash between the commits |
| `Approvals.ReplayApprovalService.RejectReplayApproval` | app/domain/services/replay_approval_service.py:110-139 | Only a pending approval is rejected; no delivery changes |
| `Approvals.ReplayedApprovalIsSpent` | app/domain/services/replay_approval_service.py:82-93 | In every invariant-keeping state an approval whose delivery was ever replayed cannot be carried out, even if its mark was lost |

## Left out

- Redis unavailable for the breaker and the limiter: both then fail open, and the bounds do not apply.
- Several workers on one delivery, and interleavings inside one breaker or limiter call.
- Kafka DLQ and SLA-breach notifications: published after the commit and not repeated, so only the rows carry a promise.
- Error codes, error messages, response headers and bodies, payloads, correlation ids and trace headers of rows and records.
- `publish_attempts` inside the transition system: counted in `Relay`, and read by nothing in the protocol.
- The relay's mark on inbound events, and consumers of the inbound topics.
- Acknowledging and purging dead letters, and the scheduled replay task, which calls the same replay transaction.
- Partner and endpoint columns that the accept path does not read.
- Parsing of timestamps and of stored Redis text; constant-time comparison; the integer widths of the columns.
- HTTP routing, authentication, request validation, metrics, logging and the analytics queries: no state the protocol depends on.
- Consumer.OutboundConsumer.Run: the loop is followed over any finite number of polls, not as an endless process.
- Relay.OutboxRelay.Turn: one turn is modelled; the polling loop around it only repeats turns and sleeps.
- Relay.OldestFirst: row order stands for `created_at` order, so rows with equal time stamps are ordered by position.
- Enqueue.FanOutIsIdempotent: the duplicate answer is a set of deliveries, since the query behind it has no order.
- Breaker.NeverSticks: times are whole ticks of any size; the sub-second difference between Redis TTLs and the process clock is not modelled.
- RateLimit.IntervalBound: over exact real numbers, not floating point.
