/** The engine: shard, change feed, lifecycle and diagnostics, driven in place. Every method
    is verified against EngineSpec, on the value that the whole object stands for. */
module DistributedEngine {
  import opened Types
  import opened ShardSpec
  import opened DiagnosticsSpec
  import opened EngineSpec
  import opened Cluster
  import opened ViewMaps
  import opened ShardCores
  import opened LifecycleLogics
  import opened DiagnosticsLogics
  import opened ChangeFeed

  /** The host's list of actions for the at most one action an operation asks for. */
  function Listed(action: Option<Action>): seq<Action> {
    if action.Some? then [action.value] else []
  }

  class DistributedStateEngine<S, V> {
    const cfg: Config<V>
    const shard: ShardCore<S, V>
    const feed: ChangeFeedLogic
    const lifecycle: LifecycleLogic
    const diagnostics: DiagnosticsLogic

    ghost var Repr: set<object>

    ghost predicate Valid()
      reads this, Repr
      ensures Valid() ==> this in Repr
    {
      && {this, shard, feed, lifecycle, diagnostics} <= Repr && shard.Repr <= Repr
      && {this, feed, lifecycle, diagnostics} !! shard.Repr
      && shard.Valid() && shard.nodeId == cfg.id && feed.nodeId == cfg.id
    }

    /** The engine value this object stands for. */
    ghost function Value(): (e: Engine<S, V>)
      requires Valid()
      reads this, Repr
      ensures HasOwn(e)
    {
      Engine(cfg, shard.state, shard.views.model, lifecycle.departed, feed.pending, diagnostics.Value())
    }

    constructor (cfg: Config<V>, value: S, project: S -> V, t: Time)
      ensures Valid() && fresh(Repr)
      ensures Value() == NewEngine(cfg, value, project(value), t)
      ensures shard.state == StateObject(Generation(t.unixMs, 0), 0, value, t.unixMs, t.unixMs)
    {
      this.cfg := cfg;
      shard := new ShardCore(cfg.id, StateObject(Generation(t.unixMs, 0), 0, value, t.unixMs, t.unixMs), project(value),
          t);
      feed := new ChangeFeedLogic(cfg.id);
      lifecycle := new LifecycleLogic();
      diagnostics := new DiagnosticsLogic();
      new;
      Repr := {this, feed, lifecycle, diagnostics} + shard.Repr;
    }

    // ── Diagnostics, one counter at a time ───────────────────────

    method CountMutation()
      requires Valid()
      modifies diagnostics
      ensures Valid() && Repr == old(Repr) && Value() == old(Value()).(diag := old(Value()).diag.MutationApplied())
    {
      diagnostics.RecordMutation();
    }

    method CountSnapshotSent()
      requires Valid()
      modifies diagnostics
      ensures Valid() && Repr == old(Repr) && Value() == old(Value()).(diag := old(Value()).diag.SnapshotSent())
    {
      diagnostics.RecordSnapshotSent();
    }

    method CountDeltaSent(immediate: bool)
      requires Valid()
      modifies diagnostics
      ensures Valid() && Repr == old(Repr) && Value() == old(Value()).(diag := old(Value()).diag.DeltaSent(immediate))
    {
      diagnostics.RecordDeltaSent(immediate);
    }

    method CountSuppressed()
      requires Valid()
      modifies diagnostics
      ensures Valid() && Repr == old(Repr) && Value() == old(Value()).(diag := old(Value()).diag.Suppressed())
    {
      diagnostics.RecordDeltaSuppressed();
    }

    method CountDiscarded()
      requires Valid()
      modifies diagnostics
      ensures Valid() && Repr == old(Repr) && Value() == old(Value()).(diag := old(Value()).diag.StaleDiscarded())
    {
      diagnostics.RecordStaleDeltaDiscarded();
    }

    method CountGap(id: NodeId)
      requires Valid()
      modifies diagnostics
      ensures Valid() && Repr == old(Repr) && Value() == old(Value()).(diag := old(Value()).diag.GapDetected(id))
    {
      diagnostics.RecordGapDetected(id);
    }

    method CountFailure(id: NodeId, reason: Failure, t: Time)
      requires Valid()
      modifies diagnostics
      ensures Valid() && Repr == old(Repr)
              && Value() == old(Value()).(diag := old(Value()).diag.SyncFailed(id, reason, t))
    {
      diagnostics.RecordSyncFailure(id, reason, t);
    }

    method CountSnapshotReceived(id: NodeId, t: Time)
      requires Valid()
      modifies diagnostics
      ensures Valid() && Repr == old(Repr)
              && Value() == old(Value()).(diag := old(Value()).diag.SnapshotReceived(id, t))
    {
      diagnostics.RecordSnapshotReceived(id, t);
    }

    method CountDeltaReceived(id: NodeId, t: Time)
      requires Valid()
      modifies diagnostics
      ensures Valid() && Repr == old(Repr) && Value() == old(Value()).(diag := old(Value()).diag.DeltaReceived(id, t))
    {
      diagnostics.RecordDeltaReceived(id, t);
    }

    // ── Internal helpers ─────────────────────────────────────────

    method OwnViewValue() returns (view: V)
      requires Valid()
      ensures view == Value().views[cfg.id].value
    {
      var own := shard.views.Get(cfg.id);
      view := own.value.value;
    }

    method NotifyFeed()
      requires Valid()
      modifies feed
      ensures Valid() && Repr == old(Repr) && Value() == Announce(old(Value()))
    {
      feed.NotifyChange(cfg.name, cfg.id, shard.state.generation);
    }

    /** Drop a peer's view after a version mismatch, if that is the policy. */
    method OnVersionMismatch(source: NodeId)
      requires Valid()
      modifies Repr
      ensures Valid() && Repr == old(Repr)
      ensures Value() == old(Value()).(views := OnMismatch(old(Value()), source))
    {
      if cfg.policy.DropAndWait? {
        shard.OnNodeLeft(source);
      }
    }

    method OfferToShard(snap: InboundSnapshot<V>, t: Time) returns (accepted: bool)
      requires Valid()
      modifies Repr
      ensures Valid() && fresh(Repr - old(Repr))
      ensures
        var before := old(Value());
        var offered := OfferSnapshot(Lookup(before.views, snap.source), snap, t);
        && (accepted <==> offered.Some?)
        && Value() == if accepted then before.(views := before.views[snap.source := offered.value]) else before
    {
      accepted := shard.AcceptInboundSnapshot(snap, t);
      Repr := Repr + shard.Repr;
    }

    // ── Mutation ─────────────────────────────────────────────────

    /** Turn the decision about a mutation into actions that send the full view. */
    method SendSnapshotAs(choice: SyncAction, view: V) returns (actions: seq<Action>)
      requires Valid() && view == Value().views[cfg.id].value
      modifies feed, diagnostics
      ensures Valid() && Repr == old(Repr)
      ensures
        var out := SnapshotOutcome(old(Value()), choice);
        Value() == out.engine && actions == Listed(out.action)
    {
      var message := FullSnapshot(cfg.name, cfg.id, shard.state.generation, cfg.wireVersion, cfg.serialize(view));
      match choice {
        case BroadcastSnapshot =>
          CountSnapshotSent();
          actions := [BroadcastSync(message)];
        case BroadcastDelta =>
          CountSnapshotSent();
          actions := [BroadcastSync(message)];
        case NotifyChangeFeed =>
          NotifyFeed();
          actions := [];
        case ScheduleSend(d) =>
          CountSnapshotSent();
          actions := [ScheduleDelayed(d, message)];
        case SuppressSend =>
          CountSuppressed();
          actions := [];
      }
    }

    /** Turn the decision about a mutation into actions that prefer its delta. */
    method SendDeltaAs(choice: SyncAction, view: V, data: Bytes) returns (actions: seq<Action>)
      requires Valid() && view == Value().views[cfg.id].value
      modifies feed, diagnostics
      ensures Valid() && Repr == old(Repr)
      ensures
        var out := DeltaOutcome(old(Value()), choice, data);
        Value() == out.engine && actions == Listed(out.action)
    {
      var delta := DeltaUpdate(cfg.name, cfg.id, shard.state.generation, cfg.wireVersion, data);
      match choice {
        case BroadcastDelta =>
          CountDeltaSent(true);
          actions := [BroadcastSync(delta)];
        case BroadcastSnapshot =>
          CountSnapshotSent();
          actions := [BroadcastSync(FullSnapshot(cfg.name, cfg.id, shard.state.generation, cfg.wireVersion,
              cfg.serialize(view)))];
        case NotifyChangeFeed =>
          NotifyFeed();
          actions := [];
        case ScheduleSend(d) =>
          CountDeltaSent(false);
          actions := [ScheduleDelayed(d, delta)];
        case SuppressSend =>
          CountSuppressed();
          actions := [];
      }
    }

    method MutateState(mutate: S -> S, project: S -> V, urgency: Urgency, t: Time)
        returns (g: Generation, view: V, actions: seq<Action>)
      requires Valid()
      modifies Repr
      ensures Valid() && Repr == old(Repr)
      ensures
        var before := old(Value());
        var value := mutate(before.state.value);
        var out := Mutate(before, value, project(value), urgency, t);
        && Value() == out.engine && actions == Listed(out.action)
        && g == out.engine.state.generation && view == project(value)
    {
      g, view := shard.ApplyMutation(mutate, project, t);
      CountMutation();
      actions := SendSnapshotAs(ResolveAction(cfg.strategy, cfg.applier.Some?, urgency), view);
    }

    method MutateStateWithDelta<DC, VD>(
        mutate: S -> (S, DC), projectView: S -> V, projectDelta: DC -> VD, urgency: Urgency,
        serializeDelta: VD -> Bytes, t: Time)
        returns (g: Generation, view: V, delta: VD, actions: seq<Action>)
      requires Valid()
      modifies Repr
      ensures Valid() && Repr == old(Repr)
      ensures
        var before := old(Value());
        var (value, change) := mutate(before.state.value);
        var out := MutateWithDelta(before, value, projectView(value), serializeDelta(projectDelta(change)), urgency, t);
        && Value() == out.engine && actions == Listed(out.action)
        && g == out.engine.state.generation && view == projectView(value) && delta == projectDelta(change)
    {
      g, view, delta := shard.ApplyMutationWithDelta(mutate, projectView, projectDelta, t);
      CountMutation();
      actions := SendDeltaAs(ResolveAction(cfg.strategy, cfg.applier.Some?, urgency), view, serializeDelta(delta));
    }

    // ── Inbound handling ─────────────────────────────────────────

    method HandleFullSnapshot(m: SyncMessage, t: Time)
      requires Valid() && m.FullSnapshot?
      modifies Repr
      ensures Valid() && fresh(Repr - old(Repr))
      ensures Value() == HandleSnapshot(old(Value()), m, t)
    {
      if m.stateName != cfg.name {
        return;
      }
      var accept := lifecycle.ShouldAcceptFrom(m.source);
      if !accept {
        return;
      }
      match cfg.deserialize(m.data, m.wireVersion) {
        case Err(UnknownVersion(v)) =>
          CountFailure(m.source, SnapshotVersion(v), t);
          OnVersionMismatch(m.source);
        case Err(Malformed(text)) =>
          CountFailure(m.source, SnapshotMalformed(text), t);
        case Ok(view) =>
          TakeSnapshot(InboundSnapshot(m.source, m.generation, m.wireVersion, view, t.unixMs, t.unixMs), t);
      }
    }

    /** Offer a snapshot that could be read to the shard, and count what became of it. */
    method TakeSnapshot(snap: InboundSnapshot<V>, t: Time)
      requires Valid()
      modifies Repr
      ensures Valid() && fresh(Repr - old(Repr))
      ensures
        var before := old(Value());
        Value() ==
        match OfferSnapshot(Lookup(before.views, snap.source), snap, t)
        case Some(entry) =>
          before.(views := before.views[snap.source := entry], diag := before.diag.SnapshotReceived(snap.source, t))
        case None => before.(diag := before.diag.StaleDiscarded())
    {
      var accepted := OfferToShard(snap, t);
      if accepted {
        CountSnapshotReceived(snap.source, t);
      } else {
        CountDiscarded();
      }
    }

    /** Apply a delta that the engine has found to be the exact successor of the view it holds. */
    method ApplySuccessor(m: SyncMessage, current: ViewObject<V>, t: Time) returns (actions: seq<Action>)
      requires Valid() && m.DeltaUpdate? && cfg.applier.Some?
      requires m.source in Value().views && Value().views[m.source] == current
      requires m.generation.incarnation == current.generation.incarnation
               && m.generation.age == current.generation.age + 1
      requires m.stateName == cfg.name && m.wireVersion == cfg.wireVersion && m.source !in Value().departed
      modifies Repr
      ensures Valid() && Repr == old(Repr)
      ensures
        var out := HandleDelta(old(Value()), m, t);
        Value() == out.engine && actions == Listed(out.action)
    {
      match cfg.applier.value(m.data, m.wireVersion, current.value) {
        case Err(error) =>
          CountFailure(m.source, DeltaFailure(error), t);
          actions := [SendSync(m.source, RequestSnapshot(cfg.name, cfg.id))];
        case Ok(newView) =>
          StoreSuccessor(m, current, newView, t);
          actions := [];
      }
    }

    /** Hand the view that a delta has given to the shard. The shard checks the generation
        again, and always agrees: its refusals are dead ends. */
    method StoreSuccessor(m: SyncMessage, current: ViewObject<V>, newView: V, t: Time)
      requires Valid() && m.DeltaUpdate?
      requires m.source in Value().views && Value().views[m.source] == current
      requires m.generation.incarnation == current.generation.incarnation
               && m.generation.age == current.generation.age + 1
      modifies Repr
      ensures Valid() && Repr == old(Repr)
      ensures
        var before := old(Value());
        var entry := DeltaEntry(current, m.source, m.generation, m.wireVersion, newView, t);
        Value() == before.(views := before.views[m.source := entry], diag := before.diag.DeltaReceived(m.source, t))
    {
      var result := shard.AcceptInboundDelta(m.source, m.generation, m.wireVersion, _ => newView, t);
      match result {
        case DeltaApplied => CountDeltaReceived(m.source, t);
        case GapDetected(_, _) => assert false;
        case DeltaDiscarded => assert false;
        case UnknownPeer => assert false;
      }
    }

    method HandleDeltaUpdate(m: SyncMessage, t: Time) returns (actions: seq<Action>)
      requires Valid() && m.DeltaUpdate?
      modifies Repr
      ensures Valid() && Repr == old(Repr)
      ensures
        var out := HandleDelta(old(Value()), m, t);
        Value() == out.engine && actions == Listed(out.action)
    {
      actions := [];
      if m.stateName != cfg.name {
        return;
      }
      var accept := lifecycle.ShouldAcceptFrom(m.source);
      if !accept {
        return;
      }
      if m.wireVersion != cfg.wireVersion {
        OnVersionMismatch(m.source);
        CountFailure(m.source, DeltaWireVersion(m.wireVersion), t);
        return;
      }
      var request := SendSync(m.source, RequestSnapshot(cfg.name, cfg.id));
      if cfg.applier.None? {
        return [request];
      }
      var found := shard.views.Get(m.source);
      if found.None? {
        return [request];
      }
      var current := found.value;
      if m.generation.incarnation != current.generation.incarnation || m.generation.age != current.generation.age + 1 {
        if m.generation.Le(current.generation) {
          CountDiscarded();
          return;
        }
        CountGap(m.source);
        return [request];
      }
      actions := ApplySuccessor(m, current, t);
    }

    method HandleRequestSnapshot(m: SyncMessage) returns (actions: seq<Action>)
      requires Valid() && m.RequestSnapshot?
      modifies Repr
      ensures Valid() && Repr == old(Repr)
      ensures
        var out := HandleRequest(old(Value()), m);
        Value() == out.engine && actions == Listed(out.action)
    {
      actions := [];
      if m.stateName != cfg.name {
        return;
      }
      var accept := lifecycle.ShouldAcceptFrom(m.requester);
      if !accept {
        return;
      }
      var view := OwnViewValue();
      CountSnapshotSent();
      return [SendSync(m.requester,
          FullSnapshot(cfg.name, cfg.id, shard.state.generation, cfg.wireVersion, cfg.serialize(view)))];
    }

    /** One routed notice. */
    method TakeNotice(n: Notification)
      requires Valid()
      modifies Repr
      ensures Valid() && fresh(Repr - old(Repr))
      ensures Value() == old(Value()).(views := MarkOne(cfg.name, old(Value()).departed, old(Value()).views, n))
    {
      if n.stateName != cfg.name {
        return;
      }
      var accept := lifecycle.ShouldAcceptFrom(n.source);
      if !accept {
        return;
      }
      shard.MarkStaleAt(n.source, n.generation);
      Repr := Repr + shard.Repr;
    }

    method HandleInboundChangeFeed(batch: Batch)
      requires Valid()
      modifies Repr
      ensures Valid() && fresh(Repr - old(Repr))
      ensures Value() == HandleFeed(old(Value()), batch)
    {
      var entries := RouteInboundBatch(batch, cfg.id);
      for i := 0 to |entries|
        invariant Valid() && fresh(Repr - old(Repr))
        invariant Value() == old(Value()).(views := Value().views)
        invariant MarkAll(cfg.name, Value().departed, Value().views, entries[i..])
               == MarkAll(cfg.name, old(Value()).departed, old(Value()).views, entries)
      {
        assert entries[i..][1..] == entries[i + 1..];
        TakeNotice(entries[i]);
      }
    }

    method HandleWireMessage(msg: WireMessage, t: Time) returns (actions: seq<Action>)
      requires Valid()
      modifies Repr
      ensures Valid() && fresh(Repr - old(Repr))
      ensures
        var out := HandleInbound(old(Value()), msg, t);
        Value() == out.engine && actions == Listed(out.action)
    {
      actions := [];
      match msg {
        case Feed(batch) => HandleInboundChangeFeed(batch);
        case Sync(m) =>
          match m {
            case FullSnapshot(_, _, _, _, _) => HandleFullSnapshot(m, t);
            case DeltaUpdate(_, _, _, _, _) => actions := HandleDeltaUpdate(m, t);
            case RequestSnapshot(_, _) => actions := HandleRequestSnapshot(m);
          }
      }
    }

    // ── Change feed, lifecycle, periodic sync ────────────────────

    method FlushChangeFeed() returns (r: Option<Batch>)
      requires Valid()
      modifies feed
      ensures Valid() && Repr == old(Repr) && Value() == FeedFlushed(old(Value()))
      ensures r.None? <==> old(Value()).feed == map[]
      ensures r.Some? ==> r.value.source == cfg.id && Lists(r.value.notifications, old(Value()).feed)
    {
      r := feed.Flush();
    }

    /** Clear the departed mark and add a placeholder; name who is to get a snapshot. */
    method Welcome(id: NodeId, view: V, t: Time) returns (targets: seq<NodeId>)
      requires Valid()
      modifies Repr
      ensures Valid() && fresh(Repr - old(Repr))
      ensures
        var before := old(Value());
        Value() == before.(departed := before.departed - {id}, views := Join(before.views, cfg.id, id, view, t))
      ensures targets == [id]
    {
      targets := lifecycle.OnNodeJoined(shard, id, view, t);
      Repr := Repr + shard.Repr;
    }

    method OnNodeJoined(id: NodeId, view: V, t: Time) returns (actions: seq<Action>)
      requires Valid()
      modifies Repr
      ensures Valid() && fresh(Repr - old(Repr))
      ensures
        var out := NodeJoined(old(Value()), id, view, t);
        Value() == out.engine && actions == Listed(out.action)
    {
      var targets := Welcome(id, view, t);
      actions := SnapshotsFor(targets);
    }

    /** Address the own snapshot to the one node that joined. */
    method SnapshotsFor(targets: seq<NodeId>) returns (actions: seq<Action>)
      requires Valid() && |targets| == 1
      modifies Repr
      ensures Valid() && fresh(Repr - old(Repr))
      ensures Value() == old(Value()).(diag := old(Value()).diag.SnapshotSent())
      ensures actions == [SendSync(targets[0], OwnSnapshot(Value()))]
    {
      actions := [];
      for i := 0 to |targets|
        invariant Valid() && fresh(Repr - old(Repr)) && |actions| == i
        invariant i == 0 ==> Value() == old(Value())
        invariant i == 1 ==> Value() == old(Value()).(diag := old(Value()).diag.SnapshotSent())
        invariant i == 1 ==> actions == [SendSync(targets[0], OwnSnapshot(Value()))]
      {
        var greeting := SnapshotFor(targets[i]);
        actions := actions + [greeting];
      }
    }

    /** Count a snapshot as sent, and address the own snapshot to a node. */
    method SnapshotFor(target: NodeId) returns (action: Action)
      requires Valid()
      modifies Repr
      ensures Valid() && fresh(Repr - old(Repr))
      ensures Value() == old(Value()).(diag := old(Value()).diag.SnapshotSent())
      ensures action == SendSync(target, OwnSnapshot(Value()))
    {
      var own := OwnViewValue();
      CountSnapshotSent();
      action := SendSync(target,
          FullSnapshot(cfg.name, cfg.id, shard.state.generation, cfg.wireVersion, cfg.serialize(own)));
    }

    method OnNodeLeft(id: NodeId)
      requires Valid()
      modifies Repr
      ensures Valid() && fresh(Repr - old(Repr))
      ensures Value() == NodeLeft(old(Value()), id)
    {
      lifecycle.OnNodeLeft(shard, id);
      Repr := Repr + shard.Repr;
      diagnostics.RemovePeer(id);
    }

    method RunPeriodicSync() returns (actions: seq<Action>)
      requires Valid()
      modifies Repr
      ensures Valid() && Repr == old(Repr)
      ensures
        var out := PeriodicSync(old(Value()));
        Value() == out.engine && actions == Listed(out.action)
    {
      if cfg.strategy.periodicFullSync.None? {
        return [];
      }
      var view := OwnViewValue();
      CountSnapshotSent();
      return [BroadcastSync(FullSnapshot(cfg.name, cfg.id, shard.state.generation, cfg.wireVersion,
          cfg.serialize(view)))];
    }

    // ── Queries ──────────────────────────────────────────────────

    /** Query all views, and report the peers that are marked or were synced too long ago. With
        pulling enabled, every one of them that has not departed is asked for a snapshot,
        exactly once, and nobody else is. */
    method QueryViews<R>(maxStaleness: nat, project: Views<V> -> R, now: nat)
        returns (r: QueryResult<R>, actions: seq<Action>)
      requires Valid()
      ensures r.result == project(Value().views)
      ensures forall p :: p in Reported(r) <==>
                p in Value().views && p != cfg.id
                && (Value().views[p].pending.Some? || now > Value().views[p].syncedAt + maxStaleness)
      ensures r.AllFresh? <==> Reported(r) == []
      ensures forall a :: a in actions <==>
                && cfg.strategy.pullOnQuery && a.SendSync? && a.message == RequestSnapshot(cfg.name, cfg.id)
                && a.target in Reported(r) && a.target !in lifecycle.departed
      ensures forall i, j :: 0 <= i < j < |actions| ==> actions[i] != actions[j]
      ensures (set a | a in actions)
              == set p | p in PullTargets(Value(), maxStaleness, now) :: SnapshotRequest(Value(), p)
    {
      r := shard.QueryLocal(maxStaleness, project, now);
      actions := [];
      if r.StalePeersDetected? && cfg.strategy.pullOnQuery {
        actions := RequestAll(cfg.name, cfg.id, r.stalePeers, lifecycle.departed);
      }
      ghost var pulled := PullTargets(Value(), maxStaleness, now);
      assert forall p :: p in pulled <==>
               cfg.strategy.pullOnQuery && p in Reported(r) && p !in lifecycle.departed;
      RequestsAre(actions, pulled, Value());
    }
  }

  lemma RequestsAre<S, V>(actions: seq<Action>, targets: set<NodeId>, e: Engine<S, V>)
    requires forall a :: a in actions <==>
               a.SendSync? && a.message == RequestSnapshot(e.cfg.name, e.cfg.id) && a.target in targets
    ensures (set a | a in actions) == set p | p in targets :: SnapshotRequest(e, p)
  {
    var sent, meant := set a | a in actions, set p | p in targets :: SnapshotRequest(e, p);
    forall a ensures a in sent <==> a in meant {
      if a in actions {
        assert a == SnapshotRequest(e, a.target);
      }
    }
  }

  /** One snapshot request to each listed peer that has not departed. */
  method RequestAll(
      name: string, self: NodeId, peers: seq<NodeId>, departed: set<NodeId>) returns (actions: seq<Action>)
    requires forall i, j :: 0 <= i < j < |peers| ==> peers[i] != peers[j]
    ensures forall a :: a in actions <==>
              a.SendSync? && a.message == RequestSnapshot(name, self) && a.target in peers && a.target !in departed
    ensures forall i, j :: 0 <= i < j < |actions| ==> actions[i] != actions[j]
  {
    actions := [];
    for i := 0 to |peers|
      invariant forall a :: a in actions <==>
                  a.SendSync? && a.message == RequestSnapshot(name, self) && a.target !in departed
                      && a.target in peers[..i]
      invariant forall j, k :: 0 <= j < k < |actions| ==> actions[j] != actions[k]
    {
      if peers[i] !in departed {
        assert peers[i] !in peers[..i];
        actions := actions + [SendSync(peers[i], RequestSnapshot(name, self))];
      }
      assert peers[..i + 1] == peers[..i] + [peers[i]];
    }
    assert peers[..|peers|] == peers;
  }
}
