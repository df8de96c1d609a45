/** Bulk replay (app/domain/services/replay_service.py, `bulk_replay_deliveries`). */
module BulkReplay {
  import opened Status
  import opened Tables
  import opened Replays

  /** What the partner's breaker and rate limiter answer when a position asks them. */
  datatype Gate = Gate(circuitOpen: bool, allowed: bool)

  datatype Kind = REPLAYED | OPEN_CIRCUIT | RATE_LIMITED | INVALID_STATUS | NOT_FOUND

  datatype BulkReplayResult = BulkReplayResult(
    replayed: seq<DeliveryId>,
    skippedOpenCircuit: seq<DeliveryId>,
    skippedRateLimited: seq<DeliveryId>,
    skippedInvalidStatus: seq<DeliveryId>,
    notFound: seq<DeliveryId>)

  function KindOf(t: Tables, id: DeliveryId, g: Gate): Kind {
    if id !in t.deliveries then NOT_FOUND
    else if t.deliveries[id].status != FAILED then INVALID_STATUS
    else if g.circuitOpen then OPEN_CIRCUIT
    else if !g.allowed then RATE_LIMITED
    else REPLAYED
  }

  /** The tables after the positions of `ids` have been handled in order. */
  function After(t: Tables, ids: seq<DeliveryId>, gates: seq<Gate>): Tables
    requires |ids| == |gates|
  {
    if ids == [] then t
    else
      var n := |ids| - 1;
      var before := After(t, ids[..n], gates[..n]);
      if KindOf(before, ids[n], gates[n]) == REPLAYED then Replay(before, ids[n], false).value else before
  }

  /** How each position was categorised. */
  function Kinds(t: Tables, ids: seq<DeliveryId>, gates: seq<Gate>): (ks: seq<Kind>)
    requires |ids| == |gates|
    ensures |ks| == |ids|
  {
    if ids == [] then []
    else
      var n := |ids| - 1;
      Kinds(t, ids[..n], gates[..n]) + [KindOf(After(t, ids[..n], gates[..n]), ids[n], gates[n])]
  }

  /** The ids at the positions of one kind, in request order. */
  function Select(ids: seq<DeliveryId>, kinds: seq<Kind>, k: Kind): seq<DeliveryId>
    requires |ids| == |kinds|
  {
    if ids == [] then []
    else
      Select(ids[..|ids| - 1], kinds[..|ids| - 1], k) + (if kinds[|ids| - 1] == k then [ids[|ids| - 1]] else [])
  }

  /** The five lists of a request whose positions were categorised as `kinds`. */
  function Lists(ids: seq<DeliveryId>, kinds: seq<Kind>): BulkReplayResult
    requires |ids| == |kinds|
  {
    BulkReplayResult(
      Select(ids, kinds, REPLAYED), Select(ids, kinds, OPEN_CIRCUIT), Select(ids, kinds, RATE_LIMITED),
      Select(ids, kinds, INVALID_STATUS), Select(ids, kinds, NOT_FOUND))
  }

  /** One more position adds its id at the end of the list of its kind. */
  lemma ListsExtend(ids: seq<DeliveryId>, kinds: seq<Kind>, id: DeliveryId, k: Kind)
    requires |ids| == |kinds|
    ensures var r := Lists(ids, kinds);
      Lists(ids + [id], kinds + [k]) ==
        match k
        case REPLAYED => r.(replayed := r.replayed + [id])
        case OPEN_CIRCUIT => r.(skippedOpenCircuit := r.skippedOpenCircuit + [id])
        case RATE_LIMITED => r.(skippedRateLimited := r.skippedRateLimited + [id])
        case INVALID_STATUS => r.(skippedInvalidStatus := r.skippedInvalidStatus + [id])
        case NOT_FOUND => r.(notFound := r.notFound + [id])
  {
    assert (ids + [id])[..|ids|] == ids && (kinds + [k])[..|ids|] == kinds;
  }

  /** The tables and categories after one more position. */
  lemma AfterExtend(t: Tables, ids: seq<DeliveryId>, gates: seq<Gate>, i: nat)
    requires |ids| == |gates| && i < |ids|
    ensures ids[..i + 1] == ids[..i] + [ids[i]]
    ensures var before := After(t, ids[..i], gates[..i]); var k := KindOf(before, ids[i], gates[i]);
      && Kinds(t, ids[..i + 1], gates[..i + 1]) == Kinds(t, ids[..i], gates[..i]) + [k]
      && After(t, ids[..i + 1], gates[..i + 1]) == if k == REPLAYED then Replay(before, ids[i], false).value else before
  {
    assert ids[..i + 1][..i] == ids[..i] && gates[..i + 1][..i] == gates[..i];
  }

  class ReplayService {
    var tables: Tables

    constructor (tables: Tables)
      ensures this.tables == tables
    {
      this.tables := tables;
    }

    /** `replay_delivery`: false is `DeliveryNotFoundError` or `DeliveryNotReplayableError`. */
    method ReplayDelivery(id: DeliveryId, reset: bool) returns (ok: bool)
      modifies this
      ensures ok <==> Replay(old(tables), id, reset).Some?
      ensures tables == if ok then Replay(old(tables), id, reset).value else old(tables)
    {
      if id !in tables.deliveries { return false; }
      var delivery := tables.deliveries[id];
      if delivery.status != FAILED { return false; }
      assert CanTransition(delivery.status, REPLAYING);
      delivery := delivery.(status := REPLAYING);
      if reset {
        delivery := delivery.(attemptCount := 0);
      }
      tables := tables.(
        deliveries := tables.deliveries[id := delivery],
        outbox := tables.outbox + [OutboxRow(id, id, false, 0)],
        audits := tables.audits + [id]);
      return true;
    }

    /** The five lists partition the request: each position goes, in order, to the list of its kind. */
    method BulkReplayDeliveries(ids: seq<DeliveryId>, gates: seq<Gate>) returns (result: BulkReplayResult)
      requires |ids| == |gates|
      modifies this
      ensures tables == After(old(tables), ids, gates)
      ensures result == Lists(ids, Kinds(old(tables), ids, gates))
    {
      result := BulkReplayResult([], [], [], [], []);
      for i := 0 to |ids|
        invariant tables == After(old(tables), ids[..i], gates[..i])
        invariant result == Lists(ids[..i], Kinds(old(tables), ids[..i], gates[..i]))
      {
        AfterExtend(old(tables), ids, gates, i);
        ListsExtend(ids[..i], Kinds(old(tables), ids[..i], gates[..i]), ids[i], KindOf(tables, ids[i], gates[i]));
        if ids[i] !in tables.deliveries {
          result := result.(notFound := result.notFound + [ids[i]]);
        } else if tables.deliveries[ids[i]].status != FAILED {
          result := result.(skippedInvalidStatus := result.skippedInvalidStatus + [ids[i]]);
        } else if gates[i].circuitOpen {
          result := result.(skippedOpenCircuit := result.skippedOpenCircuit + [ids[i]]);
        } else if !gates[i].allowed {
          result := result.(skippedRateLimited := result.skippedRateLimited + [ids[i]]);
        } else {
          var ok := ReplayDelivery(ids[i], false);
          result := result.(replayed := result.replayed + [ids[i]]);
        }
      }
      assert ids[..|ids|] == ids && gates[..|gates|] == gates;
    }
  }

  /** Nothing is dropped or listed twice: the five lists together hold exactly the requested ids. */
  lemma {:induction false} ListsPartitionRequest(ids: seq<DeliveryId>, kinds: seq<Kind>)
    requires |ids| == |kinds|
    ensures var r := Lists(ids, kinds);
      multiset(ids) == multiset(r.replayed) + multiset(r.skippedOpenCircuit) + multiset(r.skippedRateLimited)
                     + multiset(r.skippedInvalidStatus) + multiset(r.notFound)
  {
    if ids != [] {
      var n := |ids| - 1;
      assert ids == ids[..n] + [ids[n]] && kinds == kinds[..n] + [kinds[n]];
      ListsPartitionRequest(ids[..n], kinds[..n]);
      ListsExtend(ids[..n], kinds[..n], ids[n], kinds[n]);
    }
  }

  /** Where each position goes, from its row as the positions before it left it and from its gate: unknown, not FAILED,
      circuit open, over the rate, and only then replayed. */
  lemma PositionCases(t: Tables, ids: seq<DeliveryId>, gates: seq<Gate>, i: nat)
    requires |ids| == |gates| && i < |ids|
    ensures var before, k := After(t, ids[..i], gates[..i]), Kinds(t, ids, gates)[i];
      var known := ids[i] in before.deliveries;
      var failed := known && before.deliveries[ids[i]].status == FAILED;
      && (k == NOT_FOUND <==> !known)
      && (k == INVALID_STATUS <==> known && !failed)
      && (k == OPEN_CIRCUIT <==> failed && gates[i].circuitOpen)
      && (k == RATE_LIMITED <==> failed && !gates[i].circuitOpen && !gates[i].allowed)
      && (k == REPLAYED <==> failed && !gates[i].circuitOpen && gates[i].allowed)
  {
    KindsPrefix(t, ids, gates, i + 1);
    AfterExtend(t, ids, gates, i);
  }

  lemma {:induction false} KindsPrefix(t: Tables, ids: seq<DeliveryId>, gates: seq<Gate>, i: nat)
    requires |ids| == |gates| && i <= |ids|
    ensures Kinds(t, ids[..i], gates[..i]) == Kinds(t, ids, gates)[..i]
    decreases |ids|
  {
    if i == |ids| {
      assert ids[..i] == ids && gates[..i] == gates;
    } else {
      var n := |ids| - 1;
      KindsPrefix(t, ids[..n], gates[..n], i);
      assert ids[..n][..i] == ids[..i] && gates[..n][..i] == gates[..i];
      assert Kinds(t, ids, gates)[..i] == Kinds(t, ids[..n], gates[..n])[..i];
    }
  }

  /** The list of a kind holds the ids at its positions, in order: the next position of that kind comes after those
      before it, and positions of other kinds add nothing. */
  lemma SelectedInOrder(ids: seq<DeliveryId>, kinds: seq<Kind>, k: Kind, i: nat)
    requires |ids| == |kinds| && i < |ids|
    ensures Select(ids[..i + 1], kinds[..i + 1], k)
         == Select(ids[..i], kinds[..i], k) + if kinds[i] == k then [ids[i]] else []
  {
    assert ids[..i + 1][..i] == ids[..i] && kinds[..i + 1][..i] == kinds[..i];
  }

  /** `t'` is `t` after replaying exactly the deliveries listed in `replayed`, once each and in order. */
  ghost predicate ReplaysExactly(t: Tables, t': Tables, replayed: seq<DeliveryId>) {
    && (forall i, j :: 0 <= i < j < |replayed| ==> replayed[i] != replayed[j])
    && t'.deliveries.Keys == t.deliveries.Keys
    && (forall id :: id in t.deliveries ==>
          (if id in replayed
           then t.deliveries[id].status == FAILED && t'.deliveries[id] == t.deliveries[id].(status := REPLAYING)
           else t'.deliveries[id] == t.deliveries[id]))
    && (forall id :: id in replayed ==> id in t.deliveries)
    && t'.audits == t.audits + replayed
    && t'.outbox == t.outbox + seq(|replayed|, i requires 0 <= i < |replayed| =>
                                   OutboxRow(replayed[i], replayed[i], false, 0))
    && t'.attempts == t.attempts && t'.deadLetters == t.deadLetters
  }

  lemma ReplayOneMore(t: Tables, before: Tables, replayed: seq<DeliveryId>, id: DeliveryId)
    requires ReplaysExactly(t, before, replayed) && Replayable(before, id)
    ensures ReplaysExactly(t, Replay(before, id, false).value, replayed + [id])
  {
    var t' := Replay(before, id, false).value;
    assert id !in replayed;
    assert t'.outbox == t.outbox + seq(|replayed| + 1, i requires 0 <= i < |replayed| + 1 =>
      OutboxRow((replayed + [id])[i], (replayed + [id])[i], false, 0));
    assert t'.audits == t.audits + (replayed + [id]);
  }

  /** The replayed ids are exactly the deliveries moved from FAILED to REPLAYING, each once even if it
      was requested repeatedly, with one outbox row and one audit entry each; nothing else changes. */
  lemma {:induction false} BulkReplaysExactly(t: Tables, ids: seq<DeliveryId>, gates: seq<Gate>)
    requires |ids| == |gates|
    ensures ReplaysExactly(t, After(t, ids, gates), Select(ids, Kinds(t, ids, gates), REPLAYED))
  {
    var kinds := Kinds(t, ids, gates);
    if ids != [] {
      var n := |ids| - 1;
      BulkReplaysExactly(t, ids[..n], gates[..n]);
      assert kinds[..n] == Kinds(t, ids[..n], gates[..n]);
      var before := After(t, ids[..n], gates[..n]);
      var replayed := Select(ids[..n], kinds[..n], REPLAYED);
      if kinds[n] == REPLAYED {
        ReplayOneMore(t, before, replayed, ids[n]);
      } else {
        assert Select(ids, kinds, REPLAYED) == replayed;
      }
    }
  }

  /** A repeated id can be replayed at its first position only. */
  lemma RepeatedIdReplayedOnce(t: Tables, ids: seq<DeliveryId>, gates: seq<Gate>, i: nat)
    requires |ids| == |gates| && i < |ids|
    requires ids[i] in Select(ids[..i], Kinds(t, ids[..i], gates[..i]), REPLAYED)
    ensures KindOf(After(t, ids[..i], gates[..i]), ids[i], gates[i]) == INVALID_STATUS
  {
    BulkReplaysExactly(t, ids[..i], gates[..i]);
  }
}
