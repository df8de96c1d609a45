/** Replaying one failed delivery (app/domain/services/replay_service.py). */
module Replays {
  import opened Wrappers
  import opened Status
  import opened Tables

  predicate Replayable(t: Tables, id: DeliveryId) {
    id in t.deliveries && t.deliveries[id].status == FAILED
  }

  /** `replay_delivery`'s transaction: status, counter, audit entry and outbox row together.
      None is the refusal of a missing or not-failed delivery. */
  function Replay(t: Tables, id: DeliveryId, reset: bool): Option<Tables> {
    if !Replayable(t, id) then None
    else
      var d := t.deliveries[id];
      Some(t.(
        deliveries := t.deliveries[id := d.(status := REPLAYING, attemptCount := if reset then 0 else d.attemptCount)],
        outbox := t.outbox + [OutboxRow(id, id, false, 0)],
        audits := t.audits + [id]))
  }

  /** A replay takes exactly the deliveries that are FAILED. It changes status and, if asked, counter of that one row,
      adds one unpublished outbox row naming it and one audit entry, and touches nothing else. */
  lemma ReplayChanges(t: Tables, id: DeliveryId, reset: bool)
    ensures Replay(t, id, reset).Some? <==> id in t.deliveries && t.deliveries[id].status == FAILED
    ensures Replay(t, id, reset).Some? ==>
      var t', d := Replay(t, id, reset).value, t.deliveries[id];
      && t'.deliveries.Keys == t.deliveries.Keys
      && t'.deliveries[id] == Delivery(d.partner, d.endpoint, d.idempotencyKey, d.sourceEventId, REPLAYING,
                                       if reset then 0 else d.attemptCount, d.maxAttempts, d.nextRetryAt,
                                       d.firstSuccessAt, d.slaDeadlineAt, d.slaBreached)
      && (forall x :: x in t.deliveries && x != id ==> t'.deliveries[x] == t.deliveries[x])
      && |t'.outbox| == |t.outbox| + 1 && t'.outbox[..|t.outbox|] == t.outbox
      && t'.outbox[|t.outbox|] == OutboxRow(id, id, false, 0)
      && |t'.audits| == |t.audits| + 1 && t'.audits[..|t.audits|] == t.audits && t'.audits[|t.audits|] == id
      && t'.attempts == t.attempts && t'.deadLetters == t.deadLetters
  {
  }
}
