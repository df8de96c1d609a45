/** The delivery status machine (app/domain/services/status_machine.py). */
module Status {

  datatype DeliveryStatus = PENDING | DELIVERING | DELIVERED | RETRYING | FAILED | REPLAYING

  const VALID_TRANSITIONS: set<(DeliveryStatus, DeliveryStatus)> := {
    (PENDING, DELIVERING),
    (DELIVERING, DELIVERED),
    (DELIVERING, RETRYING),
    (DELIVERING, FAILED),
    (RETRYING, DELIVERING),
    (FAILED, REPLAYING),
    (REPLAYING, DELIVERING),
    (REPLAYING, DELIVERED),
    (REPLAYING, FAILED)
  }

  predicate CanTransition(src: DeliveryStatus, dst: DeliveryStatus) {
    (src, dst) in VALID_TRANSITIONS
  }

  /** The statuses the processor picks up. */
  predicate IsOpen(s: DeliveryStatus) {
    s == PENDING || s == RETRYING || s == REPLAYING
  }

  /** A (possibly empty) path of allowed edges, given by the statuses it visits. */
  ghost predicate IsPath(path: seq<DeliveryStatus>) {
    && path != []
    && forall i :: 0 <= i < |path| - 1 ==> CanTransition(path[i], path[i + 1])
  }

  ghost predicate PathBetween(src: DeliveryStatus, dst: DeliveryStatus) {
    exists path: seq<DeliveryStatus> :: IsPath(path) && path[0] == src && path[|path| - 1] == dst
  }

  /** DELIVERED has no way out: the only path that starts there is the empty one. */
  lemma DeliveredIsTerminal(path: seq<DeliveryStatus>)
    requires path != [] && path[0] == DELIVERED
    ensures IsPath(path) <==> path == [DELIVERED]
  {
    if |path| > 1 {
      assert !CanTransition(path[0], path[1]);
    }
  }

  /** The edges, by meaning: open deliveries may be picked up, what is picked up ends delivered, waiting or failed,
      what failed may be replayed, and a replay may also be closed directly. */
  lemma EdgesAre(a: DeliveryStatus, b: DeliveryStatus)
    ensures CanTransition(a, b) <==>
      || (b == DELIVERING && (a == PENDING || a == RETRYING || a == REPLAYING))
      || (a == DELIVERING && (b == DELIVERED || b == RETRYING || b == FAILED))
      || (a == FAILED && b == REPLAYING)
      || (a == REPLAYING && (b == DELIVERED || b == FAILED))
    ensures IsOpen(a) <==> CanTransition(a, DELIVERING)
  {
  }
}
