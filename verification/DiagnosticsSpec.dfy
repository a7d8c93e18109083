/** Sync counters and per-peer failure tracking, as values. */
module DiagnosticsSpec {
  import opened Types

  /** Why an inbound message could not be used; stands for the formatted error text. */
  datatype Failure =
    | SnapshotVersion(version: nat)
    | SnapshotMalformed(message: string)
    | DeltaWireVersion(version: nat)
    | DeltaVersion(version: nat)
    | DeltaMalformed(message: string)

  datatype Metrics = Metrics(
    totalMutations: nat,
    deltasSent: nat,
    deltasReceived: nat,
    snapshotsSent: nat,
    snapshotsReceived: nat,
    deltasSuppressed: nat,
    deltasImmediate: nat,
    syncFailures: nat,
    ageGapsDetected: nat,
    staleDeltasDiscarded: nat)

  datatype Peer = Peer(
    consecutiveFailures: nat,
    gapCount: nat,
    lastSyncTime: Option<nat>,
    lastAttemptTime: Option<nat>,
    lastError: Option<Failure>,
    lastLatencyMs: Option<nat>)

  const NO_METRICS := Metrics(0, 0, 0, 0, 0, 0, 0, 0, 0, 0)
  const NEW_PEER := Peer(0, 0, None, None, None, None)

  datatype Diagnostics = Diagnostics(metrics: Metrics, peers: map<NodeId, Peer>) {
    function PeerOf(id: NodeId): Peer {
      if id in peers then peers[id] else NEW_PEER
    }

    function SyncSucceeded(id: NodeId, t: Time): Diagnostics {
      this.(peers := peers[id := PeerOf(id).(consecutiveFailures := 0, lastSyncTime := Some(t.unixMs),
                                             lastAttemptTime := Some(t.unixMs), lastError := None,
                                             lastLatencyMs := Some(0))])
    }

    function SyncFailed(id: NodeId, reason: Failure, t: Time): Diagnostics {
      this.(peers := peers[id := PeerOf(id).(consecutiveFailures := PeerOf(id).consecutiveFailures + 1,
                                             lastAttemptTime := Some(t.unixMs), lastError := Some(reason))],
            metrics := metrics.(syncFailures := metrics.syncFailures + 1))
    }

    function GapDetected(id: NodeId): Diagnostics {
      this.(peers := peers[id := PeerOf(id).(gapCount := PeerOf(id).gapCount + 1)],
            metrics := metrics.(ageGapsDetected := metrics.ageGapsDetected + 1))
    }

    function MutationApplied(): Diagnostics {
      this.(metrics := metrics.(totalMutations := metrics.totalMutations + 1))
    }

    function SnapshotSent(): Diagnostics {
      this.(metrics := metrics.(snapshotsSent := metrics.snapshotsSent + 1))
    }

    function DeltaSent(immediate: bool): Diagnostics {
      this.(metrics := metrics.(deltasSent := metrics.deltasSent + 1,
                                deltasImmediate := metrics.deltasImmediate + if immediate then 1 else 0))
    }

    function Suppressed(): Diagnostics {
      this.(metrics := metrics.(deltasSuppressed := metrics.deltasSuppressed + 1))
    }

    function StaleDiscarded(): Diagnostics {
      this.(metrics := metrics.(staleDeltasDiscarded := metrics.staleDeltasDiscarded + 1))
    }

    function SnapshotReceived(id: NodeId, t: Time): Diagnostics {
      var d := SyncSucceeded(id, t);
      d.(metrics := metrics.(snapshotsReceived := metrics.snapshotsReceived + 1))
    }

    function DeltaReceived(id: NodeId, t: Time): Diagnostics {
      var d := SyncSucceeded(id, t);
      d.(metrics := metrics.(deltasReceived := metrics.deltasReceived + 1))
    }

    function PeerRemoved(id: NodeId): Diagnostics {
      this.(peers := peers - {id})
    }
  }

  const NO_DIAGNOSTICS := Diagnostics(NO_METRICS, map[])
}
