/** Replay approvals (app/domain/services/replay_approval_service.py). Approving commits twice: first the
    replay, then the approval itself. */
module Approvals {
  import opened Wrappers
  import opened Status
  import opened Tables
  import opened Replays
  import opened BulkReplay
  import opened Lifecycle

  datatype ApprovalStatus = PENDING_APPROVAL | APPROVED | REJECTED

  datatype Approval = Approval(delivery: DeliveryId, status: ApprovalStatus)

  type Approvals = map<nat, Approval>

  datatype Refusal = DeliveryNotFound | DeliveryNotReplayable | ApprovalNotFound | ApprovalNotPending

  class ReplayApprovalService {
    const replays: ReplayService
    var approvals: Approvals

    constructor (replays: ReplayService)
      ensures this.replays == replays && approvals == map[]
    {
      this.replays, approvals := replays, map[];
    }

    method CreateReplayApproval(a: nat, id: DeliveryId) returns (refusal: Option<Refusal>)
      requires a !in approvals
      modifies this`approvals
      ensures refusal.None? <==> id in replays.tables.deliveries && replays.tables.deliveries[id].status == FAILED
      ensures refusal == Some(DeliveryNotFound) <==> id !in replays.tables.deliveries
      ensures refusal.Some? ==> refusal.value == DeliveryNotFound || refusal.value == DeliveryNotReplayable
      ensures approvals == if refusal.None? then old(approvals)[a := Approval(id, PENDING_APPROVAL)] else old(approvals)
    {
      if id !in replays.tables.deliveries { return Some(DeliveryNotFound); }
      if replays.tables.deliveries[id].status != FAILED { return Some(DeliveryNotReplayable); }
      approvals := approvals[a := Approval(id, PENDING_APPROVAL)];
      return None;
    }

    /** `stops` is a process that dies between the two commits. */
    method ApproveReplayApproval(a: nat, stops: bool) returns (refusal: Option<Refusal>)
      modifies this`approvals, replays
      ensures refusal == Some(ApprovalNotFound) <==> a !in old(approvals)
      ensures refusal == Some(ApprovalNotPending) <==>
        a in old(approvals) && old(approvals)[a].status != PENDING_APPROVAL
      ensures refusal == Some(DeliveryNotFound) <==>
        && a in old(approvals) && old(approvals)[a].status == PENDING_APPROVAL
        && old(approvals)[a].delivery !in old(replays.tables).deliveries
      ensures refusal == Some(DeliveryNotReplayable) <==>
        && a in old(approvals) && old(approvals)[a].status == PENDING_APPROVAL
        && old(approvals)[a].delivery in old(replays.tables).deliveries
        && old(replays.tables).deliveries[old(approvals)[a].delivery].status != FAILED
      ensures refusal.Some? ==> replays.tables == old(replays.tables) && approvals == old(approvals)
      ensures refusal.None? ==>
        && Replay(old(replays.tables), old(approvals)[a].delivery, false) == Some(replays.tables)
        && approvals == if stops then old(approvals) else old(approvals)[a := old(approvals)[a].(status := APPROVED)]
    {
      if a !in approvals { return Some(ApprovalNotFound); }
      if approvals[a].status != PENDING_APPROVAL { return Some(ApprovalNotPending); }
      if approvals[a].delivery !in replays.tables.deliveries { return Some(DeliveryNotFound); }
      var ok := replays.ReplayDelivery(approvals[a].delivery, false);
      if !ok { return Some(DeliveryNotReplayable); }
      if !stops {
        approvals := approvals[a := approvals[a].(status := APPROVED)];
      }
      return None;
    }

    method RejectReplayApproval(a: nat) returns (refusal: Option<Refusal>)
      modifies this`approvals
      ensures refusal.None? <==> a in old(approvals) && old(approvals)[a].status == PENDING_APPROVAL
      ensures refusal == Some(ApprovalNotFound) <==> a !in old(approvals)
      ensures refusal.Some? ==> refusal.value == ApprovalNotFound || refusal.value == ApprovalNotPending
      ensures approvals ==
        if refusal.None? then old(approvals)[a := old(approvals)[a].(status := REJECTED)] else old(approvals)
    {
      if a !in approvals { return Some(ApprovalNotFound); }
      if approvals[a].status != PENDING_APPROVAL { return Some(ApprovalNotPending); }
      approvals := approvals[a := approvals[a].(status := REJECTED)];
      return None;
    }
  }

  /** An approval that was replayed, even one whose second commit was lost, is never carried out again:
      in every table state that keeps the invariant, a delivery with a replay audit cannot be replayed. */
  lemma ReplayedApprovalIsSpent(t: Tables, approvals: Approvals, a: nat)
    requires TablesOk(t) && a in approvals && approvals[a].delivery in t.audits
    ensures approvals[a].delivery in t.deliveries && t.deliveries[approvals[a].delivery].status != FAILED
    ensures !Replayable(t, approvals[a].delivery)
  {
    var id := approvals[a].delivery;
    CountPresent(t.audits, id);
    if id in t.deliveries {
      assert DeliveryOk(t, id);
    }
  }

  lemma {:induction false} CountPresent(ids: seq<DeliveryId>, id: DeliveryId)
    requires id in ids
    ensures Count(ids, id) >= 1
  {
    var n := |ids| - 1;
    if ids[n] != id {
      assert id in ids[..n];
      CountPresent(ids[..n], id);
    }
  }
}
