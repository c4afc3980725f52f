/** The hash workers:registry and the health and capacity tests made on a copy of it. */
module Registry {
  import opened Platform

  const STALE_AFTER_MS: nat := 10000

  /** A heartbeat; lastHeartbeatAt is stamped by the sender. */
  datatype Beat = Beat(capacity: nat, inFlight: nat, lastHeartbeatAt: nat)

  type Hash = map<WorkerId, Beat>

  predicate Fresh(b: Beat, now: int) {
    now - b.lastHeartbeatAt <= STALE_AFTER_MS
  }

  /** The healthy flag listWorkers computes; an unlisted worker is not healthy. */
  predicate Healthy(hash: Hash, w: WorkerId, now: int) {
    w in hash && Fresh(hash[w], now)
  }

  predicate Spare(b: Beat) {
    b.inFlight < b.capacity
  }

  predicate HasSpareCapacity(hash: Hash, now: int) {
    exists w | w in hash :: Healthy(hash, w, now) && Spare(hash[w])
  }
}
