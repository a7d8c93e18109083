/** Diagnostics kept in place, and the health assessment. */
module DiagnosticsLogics {
  import opened Types
  import opened ShardSpec
  import opened DiagnosticsSpec

  datatype HealthStatus = Healthy | Degraded | Unhealthy

  datatype StateHealth = StateHealth(healthyPeers: nat, stalePeers: nat, failingPeers: nat, status: HealthStatus)

  function Peers<V>(views: Views<V>, self: NodeId): set<NodeId> {
    views.Keys - {self}
  }

  /** Peers whose last sync attempts failed. */
  function FailingPeers<V>(views: Views<V>, self: NodeId, d: Diagnostics): set<NodeId> {
    set id | id in views && id != self && d.PeerOf(id).consecutiveFailures > 0
  }

  class DiagnosticsLogic {
    var metrics: Metrics
    var peers: map<NodeId, Peer>

    ghost function Value(): Diagnostics
      reads this
    {
      Diagnostics(metrics, peers)
    }

    constructor ()
      ensures Value() == NO_DIAGNOSTICS
    {
      metrics := NO_METRICS;
      peers := map[];
    }

    method RecordSyncSuccess(id: NodeId, t: Time)
      modifies this
      ensures Value() == old(Value()).SyncSucceeded(id, t)
    {
      var peer := if id in peers then peers[id] else NEW_PEER;
      peer := peer.(consecutiveFailures := 0, lastSyncTime := Some(t.unixMs), lastAttemptTime := Some(t.unixMs));
      peers := peers[id := peer.(lastError := None, lastLatencyMs := Some(0))];
    }

    method RecordSyncFailure(id: NodeId, reason: Failure, t: Time)
      modifies this
      ensures Value() == old(Value()).SyncFailed(id, reason, t)
    {
      var peer := if id in peers then peers[id] else NEW_PEER;
      peer := peer.(consecutiveFailures := peer.consecutiveFailures + 1, lastAttemptTime := Some(t.unixMs));
      peers := peers[id := peer.(lastError := Some(reason))];
      metrics := metrics.(syncFailures := metrics.syncFailures + 1);
    }

    method RecordGapDetected(id: NodeId)
      modifies this
      ensures Value() == old(Value()).GapDetected(id)
    {
      var peer := if id in peers then peers[id] else NEW_PEER;
      peers := peers[id := peer.(gapCount := peer.gapCount + 1)];
      metrics := metrics.(ageGapsDetected := metrics.ageGapsDetected + 1);
    }

    method RecordMutation()
      modifies this
      ensures Value() == old(Value()).MutationApplied()
    {
      metrics := metrics.(totalMutations := metrics.totalMutations + 1);
    }

    /** A delta leaves; an immediate one is counted as such, too. */
    method RecordDeltaSent(immediate: bool)
      modifies this
      ensures Value() == old(Value()).DeltaSent(immediate)
    {
      metrics := metrics.(deltasSent := metrics.deltasSent + 1);
      if immediate {
        metrics := metrics.(deltasImmediate := metrics.deltasImmediate + 1);
      }
    }

    method RecordDeltaReceived(id: NodeId, t: Time)
      modifies this
      ensures Value() == old(Value()).DeltaReceived(id, t)
    {
      metrics := metrics.(deltasReceived := metrics.deltasReceived + 1);
      RecordSyncSuccess(id, t);
    }

    method RecordSnapshotSent()
      modifies this
      ensures Value() == old(Value()).SnapshotSent()
    {
      metrics := metrics.(snapshotsSent := metrics.snapshotsSent + 1);
    }

    method RecordSnapshotReceived(id: NodeId, t: Time)
      modifies this
      ensures Value() == old(Value()).SnapshotReceived(id, t)
    {
      metrics := metrics.(snapshotsReceived := metrics.snapshotsReceived + 1);
      RecordSyncSuccess(id, t);
    }

    method RecordDeltaSuppressed()
      modifies this
      ensures Value() == old(Value()).Suppressed()
    {
      metrics := metrics.(deltasSuppressed := metrics.deltasSuppressed + 1);
    }

    method RecordStaleDeltaDiscarded()
      modifies this
      ensures Value() == old(Value()).StaleDiscarded()
    {
      metrics := metrics.(staleDeltasDiscarded := metrics.staleDeltasDiscarded + 1);
    }

    method RemovePeer(id: NodeId)
      modifies this
      ensures Value() == old(Value()).PeerRemoved(id)
    {
      peers := peers - {id};
    }

    method CountPeer<V>(id: NodeId, view: ViewObject<V>, maxStaleness: nat, now: nat,
                        healthySoFar: nat, staleSoFar: nat, failingSoFar: nat, totalSoFar: nat,
                        ghost seen: set<NodeId>, ghost staleSet: set<NodeId>, ghost failingSet: set<NodeId>)
        returns (healthy: nat, stale: nat, failing: nat, total: nat)
      requires id !in seen && Counted(seen, staleSet, failingSet, healthySoFar, staleSoFar, failingSoFar, totalSoFar)
      requires id in staleSet <==> view.pending.Some? || now > view.syncedAt + maxStaleness
      requires id in failingSet <==> Value().PeerOf(id).consecutiveFailures > 0
      ensures Counted(seen + {id}, staleSet, failingSet, healthy, stale, failing, total)
    {
      CountOneMore(seen, id, staleSet, failingSet, healthySoFar, staleSoFar, failingSoFar, totalSoFar);
      healthy, stale, failing, total := healthySoFar, staleSoFar, failingSoFar, totalSoFar + 1;
      var late := IsStale(view, now, maxStaleness);
      var failed := id in peers && peers[id].consecutiveFailures > 0;
      if late || failed {
        if late {
          stale := stale + 1;
        }
        if failed {
          failing := failing + 1;
        }
      } else {
        healthy := healthy + 1;
      }
    }

    /** Count the peers one by one; the ghost sets name the stale and the failing ones. */
    method CountPeers<V>(views: Views<V>, self: NodeId, maxStaleness: nat, now: nat,
                         ghost peerSet: set<NodeId>, ghost staleSet: set<NodeId>, ghost failingSet: set<NodeId>)
        returns (healthy: nat, stale: nat, failing: nat, total: nat)
      requires forall id :: id in peerSet <==> id in views && id != self
      requires forall id :: id in staleSet <==>
                 id in peerSet && (views[id].pending.Some? || now > views[id].syncedAt + maxStaleness)
      requires forall id :: id in failingSet <==> id in peerSet && Value().PeerOf(id).consecutiveFailures > 0
      ensures stale == |staleSet| && failing == |failingSet| && total == |peerSet|
      ensures healthy == |peerSet - (staleSet + failingSet)|
    {
      healthy, stale, failing, total := 0, 0, 0, 0;
      ghost var seen: set<NodeId> := {};
      var left := views.Keys;
      while left != {}
        invariant left <= views.Keys
        invariant forall p :: p in seen <==> p in peerSet && p !in left
        invariant Counted(seen, staleSet, failingSet, healthy, stale, failing, total)
        decreases left
      {
        var id :| id in left;
        left := left - {id};
        if id != self {
          assert id in peerSet && id !in seen;
          healthy, stale, failing, total :=
            CountPeer(id, views[id], maxStaleness, now, healthy, stale, failing, total, seen, staleSet, failingSet);
          seen := seen + {id};
        }
      }
      AllCounted(seen, peerSet, staleSet, failingSet, healthy, stale, failing, total);
    }

    /** The counts are those of the peers that are marked or were synced too long ago, of the
        failing peers, and of the rest; with any unhealthy peer the status is Degraded exactly
        when a strict majority of peers is healthy. */
    method Health<V>(views: Views<V>, self: NodeId, maxStaleness: nat, now: nat) returns (h: StateHealth)
      ensures
        var stale := set id | id in views && id != self
                              && (views[id].pending.Some? || now > views[id].syncedAt + maxStaleness);
        var failing := set id | id in views && id != self && id in peers && peers[id].consecutiveFailures > 0;
        && h.stalePeers == |stale| && h.failingPeers == |failing|
        && h.healthyPeers == |(views.Keys - {self}) - (stale + failing)|
        && h.healthyPeers + |stale + failing| == |views.Keys - {self}|
        && (h.status == Healthy <==> h.healthyPeers == |views.Keys - {self}|)
        && (h.status == Degraded <==> h.healthyPeers < |views.Keys - {self}| < 2 * h.healthyPeers)
    {
      ghost var staleSet := set id | id in views && id != self
                                     && (views[id].pending.Some? || now > views[id].syncedAt + maxStaleness);
      ghost var failingSet := set id | id in views && id != self && id in peers && peers[id].consecutiveFailures > 0;
      var healthy, stale, failing, total :=
          CountPeers(views, self, maxStaleness, now, Peers(views, self), staleSet, failingSet);
      Partition(Peers(views, self), staleSet, failingSet);
      var status := StatusOf(healthy, stale, failing, total);
      h := StateHealth(healthy, stale, failing, status);
    }
  }

  /** Healthy without any stale or failing peer, else Degraded with a strict majority of healthy ones. */
  method StatusOf(healthy: nat, stale: nat, failing: nat, total: nat) returns (status: HealthStatus)
    requires healthy <= total
    ensures status == Healthy <==> stale == 0 && failing == 0
    ensures status == Degraded <==> (stale > 0 || failing > 0) && total < 2 * healthy
  {
    if stale == 0 && failing == 0 {
      return Healthy;
    } else if total > 0 && healthy > total / 2 {
      return Degraded;
    } else {
      return Unhealthy;
    }
  }

  /** The counts of the peers seen so far. */
  ghost predicate Counted(seen: set<NodeId>, staleSet: set<NodeId>, failingSet: set<NodeId>,
                          healthy: nat, stale: nat, failing: nat, total: nat) {
    && total == |seen| && stale == |staleSet * seen| && failing == |failingSet * seen|
    && healthy == |seen - (staleSet + failingSet)|
  }

  lemma CountOneMore(seen: set<NodeId>, id: NodeId, staleSet: set<NodeId>, failingSet: set<NodeId>,
                     healthy: nat, stale: nat, failing: nat, total: nat)
    requires id !in seen && Counted(seen, staleSet, failingSet, healthy, stale, failing, total)
    ensures Counted(seen + {id}, staleSet, failingSet,
                    healthy + (if id in staleSet || id in failingSet then 0 else 1),
                    stale + (if id in staleSet then 1 else 0),
                    failing + (if id in failingSet then 1 else 0),
                    total + 1)
  {
    CountIn(seen, id, staleSet);
    CountIn(seen, id, failingSet);
    CountOut(seen, id, staleSet + failingSet);
  }

  lemma AllCounted(seen: set<NodeId>, peerSet: set<NodeId>, staleSet: set<NodeId>, failingSet: set<NodeId>,
                   healthy: nat, stale: nat, failing: nat, total: nat)
    requires Counted(seen, staleSet, failingSet, healthy, stale, failing, total)
    requires (forall p :: p in seen <==> p in peerSet) && staleSet <= peerSet && failingSet <= peerSet
    ensures stale == |staleSet| && failing == |failingSet| && total == |peerSet|
    ensures healthy == |peerSet - (staleSet + failingSet)|
  {
    assert seen == peerSet && staleSet * seen == staleSet && failingSet * seen == failingSet;
  }

  lemma CountIn(seen: set<NodeId>, id: NodeId, kind: set<NodeId>)
    requires id !in seen
    ensures |kind * (seen + {id})| == |kind * seen| + if id in kind then 1 else 0
  {
    assert kind * (seen + {id}) == if id in kind then kind * seen + {id} else kind * seen;
  }

  lemma CountOut(seen: set<NodeId>, id: NodeId, kind: set<NodeId>)
    requires id !in seen
    ensures |(seen + {id}) - kind| == |seen - kind| + if id in kind then 0 else 1
  {
    assert (seen + {id}) - kind == if id in kind then seen - kind else (seen - kind) + {id};
  }

  /** The unhealthy peers are the stale and the failing ones, and the rest is healthy. */
  lemma Partition(all: set<NodeId>, stale: set<NodeId>, failing: set<NodeId>)
    requires stale <= all && failing <= all
    ensures |all - (stale + failing)| + |stale + failing| == |all|
    ensures |stale + failing| == 0 <==> |stale| == 0 && |failing| == 0
  {
    assert all == (all - (stale + failing)) + (stale + failing);
    assert |stale + failing| == 0 <==> stale + failing == {};
  }
}
