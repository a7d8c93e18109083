/** One shard on one node: the owned state and the view map, updated in place. */
module ShardCores {
  import opened Types
  import opened ShardSpec
  import opened TwoPhase
  import opened ViewMaps

  datatype DeltaAcceptResult =
    | DeltaApplied
    | DeltaDiscarded
    | GapDetected(local: Generation, incoming: Generation)
    | UnknownPeer

  datatype QueryResult<R> = AllFresh(result: R) | StalePeersDetected(stalePeers: seq<NodeId>, result: R)

  /** The peers that an answer reports as stale. */
  function Reported<R>(r: QueryResult<R>): seq<NodeId> {
    if r.AllFresh? then [] else r.stalePeers
  }

  /** A delta mutation that was applied to a copy but is not committed yet. */
  datatype PreparedDelta<S, V, VD> = PreparedDelta(prepared: Prepared<S, V>, viewDelta: VD)

  class ShardCore<S, V> {
    const nodeId: NodeId
    var state: StateObject<S>
    const views: ViewMap<V>

    ghost var Repr: set<object>

    ghost predicate Valid()
      reads this, Repr
      ensures Valid() ==> this in Repr
    {
      && this in Repr && views in Repr && views.Repr <= Repr && this !in views.Repr
      && views.Valid() && nodeId in views.model
    }

    constructor (nodeId: NodeId, state: StateObject<S>, view: V, t: Time)
      ensures Valid() && fresh(Repr)
      ensures this.nodeId == nodeId && this.state == state
      ensures views.model == map[nodeId := OwnEntry(nodeId, state, view, t)]
    {
      this.nodeId := nodeId;
      this.state := state;
      views := new ViewMap(nodeId, OwnEntry(nodeId, state, view, t));
      new;
      Repr := {this} + views.Repr;
    }

    /** Replace the own entry; it is always there. */
    method UpdateOwnView(view: V, t: Time)
      requires Valid()
      modifies views.Repr
      ensures Valid() && state == old(state) && Repr == old(Repr) && views.Repr == old(views.Repr)
      ensures views.model == old(views.model)[nodeId := OwnEntry(nodeId, state, view, t)]
    {
      var present := views.Update(nodeId, OwnEntry(nodeId, state, view, t));
    }

    // ── Mutation ─────────────────────────────────────────────────

    method ApplyMutation(mutate: S -> S, project: S -> V, t: Time) returns (g: Generation, view: V)
      requires Valid()
      modifies Repr
      ensures Valid() && Repr == old(Repr)
      ensures state == Mutated(old(state), mutate(old(state.value)), t)
      ensures g == state.generation && view == project(state.value)
      ensures views.model == old(views.model)[nodeId := OwnEntry(nodeId, state, view, t)]
    {
      state := state.(value := mutate(state.value));
      state := state.(generation := state.generation.Next(), modifiedTime := t.unixMs);
      view := project(state.value);
      UpdateOwnView(view, t);
      g := state.generation;
    }

    method ApplyMutationWithDelta<DC, VD>(
        mutate: S -> (S, DC), projectView: S -> V, projectDelta: DC -> VD, t: Time)
        returns (g: Generation, view: V, delta: VD)
      requires Valid()
      modifies Repr
      ensures Valid() && Repr == old(Repr)
      ensures state == Mutated(old(state), mutate(old(state.value)).0, t)
      ensures g == state.generation && view == projectView(state.value)
      ensures delta == projectDelta(mutate(old(state.value)).1)
      ensures views.model == old(views.model)[nodeId := OwnEntry(nodeId, state, view, t)]
    {
      var (value, change) := mutate(state.value);
      state := state.(value := value);
      state := state.(generation := state.generation.Next(), modifiedTime := t.unixMs);
      view := projectView(state.value);
      delta := projectDelta(change);
      UpdateOwnView(view, t);
      g := state.generation;
    }

    method PrepareMutation(u: Update<S, V>) returns (p: Prepared<S, V>)
      ensures p == Prepare(state, u)
    {
      var newState := state.(value := u.apply(state.value));
      newState := newState.(generation := newState.generation.Next(), modifiedTime := u.t.unixMs);
      p := Prepared(state.generation, newState, u.project(newState.value));
    }

    /** Commit a prepared mutation. The original panics when the guard fails; here that is
        the result None, with nothing changed. */
    method CommitMutation(p: Prepared<S, V>, t: Time) returns (g: Option<Generation>)
      requires Valid()
      modifies Repr
      ensures Valid() && Repr == old(Repr)
      ensures g.Some? <==> p.base == old(state.generation)
      ensures g.Some? ==>
                && state == p.newState && g.value == state.generation
                && views.model == old(views.model)[nodeId := OwnEntry(nodeId, p.newState, p.view, t)]
      ensures g.None? ==> state == old(state) && views.model == old(views.model)
    {
      if p.base != state.generation {
        return None;
      }
      state := p.newState;
      UpdateOwnView(p.view, t);
      return Some(state.generation);
    }

    method PrepareMutationWithDelta<DC, VD>(mutate: S -> (S, DC), projectView: S -> V, projectDelta: DC -> VD, t: Time)
        returns (p: PreparedDelta<S, V, VD>)
      ensures p.prepared == Prepare(state, Update((s: S) => mutate(s).0, projectView, t))
      ensures p.viewDelta == projectDelta(mutate(state.value).1)
    {
      var (value, change) := mutate(state.value);
      var newState := state.(value := value);
      newState := newState.(generation := newState.generation.Next(), modifiedTime := t.unixMs);
      p := PreparedDelta(Prepared(state.generation, newState, projectView(newState.value)), projectDelta(change));
    }

    /** Commit a prepared delta mutation, under the same guard. */
    method CommitDeltaMutation<VD>(p: PreparedDelta<S, V, VD>, t: Time) returns (r: Option<(Generation, VD)>)
      requires Valid()
      modifies Repr
      ensures Valid() && Repr == old(Repr)
      ensures r.Some? <==> p.prepared.base == old(state.generation)
      ensures r.Some? ==>
                && state == p.prepared.newState && r.value == (state.generation, p.viewDelta)
                && views.model == old(views.model)[nodeId := OwnEntry(nodeId, p.prepared.newState, p.prepared.view, t)]
      ensures r.None? ==> state == old(state) && views.model == old(views.model)
    {
      var g := CommitMutation(p.prepared, t);
      if g.None? {
        return None;
      }
      return Some((g.value, p.viewDelta));
    }

    // ── Inbound updates ──────────────────────────────────────────

    method AcceptInboundSnapshot(snap: InboundSnapshot<V>, t: Time) returns (accepted: bool)
      requires Valid()
      modifies Repr
      ensures Valid() && state == old(state) && fresh(Repr - old(Repr))
      ensures
        var offered := OfferSnapshot(Lookup(old(views.model), snap.source), snap, t);
        && (accepted <==> offered.Some?)
        && views.model == if accepted then old(views.model)[snap.source := offered.value] else old(views.model)
    {
      accepted := views.UpdateIf(snap.source, existing => OfferSnapshot(existing, snap, t));
      Repr := Repr + views.Repr;
    }

    /** Apply a delta only as the exact successor of the peer's view; otherwise say where it
        stands, and change nothing. */
    method AcceptInboundDelta(source: NodeId, g: Generation, wireVersion: nat, apply: V -> V, t: Time)
        returns (r: DeltaAcceptResult)
      requires Valid()
      modifies Repr
      ensures Valid() && state == old(state) && Repr == old(Repr)
      ensures
        var before := old(views.model);
        if source !in before then r == UnknownPeer && views.model == before
        else
          var existing := before[source];
          match Judge(existing.generation, g)
          case Stale => r == DeltaDiscarded && views.model == before
          case Gap => r == GapDetected(existing.generation, g) && views.model == before
          case Applies =>
            && r == DeltaApplied
            && views.model == before[source := DeltaEntry(existing, source, g, wireVersion, apply(existing.value), t)]
    {
      var found := views.Get(source);
      if found.None? {
        return UnknownPeer;
      }
      var existing := found.value;
      if g.incarnation < existing.generation.incarnation {
        return DeltaDiscarded;
      }
      if g.incarnation > existing.generation.incarnation {
        return GapDetected(existing.generation, g);
      }
      if g.age != existing.generation.age + 1 {
        if g.age <= existing.generation.age {
          return DeltaDiscarded;
        }
        return GapDetected(existing.generation, g);
      }
      var present := views.Update(source, DeltaEntry(existing, source, g, wireVersion, apply(existing.value), t));
      return DeltaApplied;
    }

    method MarkStaleAt(source: NodeId, g: Generation)
      requires Valid()
      modifies Repr
      ensures Valid() && state == old(state) && fresh(Repr - old(Repr))
      ensures views.model == MarkStale(old(views.model), source, g)
    {
      var changed := views.UpdateIf(source, existing => OfferMark(existing, g));
      Repr := Repr + views.Repr;
    }

    // ── Membership ───────────────────────────────────────────────

    method OnNodeJoined(id: NodeId, view: V, t: Time)
      requires Valid()
      modifies Repr
      ensures Valid() && state == old(state) && fresh(Repr - old(Repr))
      ensures views.model == Join(old(views.model), nodeId, id, view, t)
    {
      if id == nodeId {
        return;
      }
      var absent := views.InsertNode(id, Placeholder(id, view, t));
      Repr := Repr + views.Repr;
    }

    method OnNodeLeft(id: NodeId)
      requires Valid()
      modifies Repr
      ensures Valid() && state == old(state) && Repr == old(Repr)
      ensures views.model == Leave(old(views.model), nodeId, id)
    {
      if id == nodeId {
        return;
      }
      var present := views.RemoveNode(id);
    }

    // ── Queries ──────────────────────────────────────────────────

    /** Project the current views, and list each peer once that is marked or was synced too
        long ago; the answer is Fresh exactly when there is none. */
    method QueryLocal<R>(maxStaleness: nat, project: Views<V> -> R, now: nat) returns (r: QueryResult<R>)
      requires Valid()
      ensures r.result == project(views.model)
      ensures forall p :: p in Reported(r) <==>
                p in views.model && p != nodeId
                && (views.model[p].pending.Some? || now > views.model[p].syncedAt + maxStaleness)
      ensures r.AllFresh? <==> Reported(r) == []
      ensures forall i, j :: 0 <= i < j < |Reported(r)| ==> Reported(r)[i] != Reported(r)[j]
    {
      var snapshot := views.Snapshot();
      var stale := StaleOf(snapshot, nodeId, maxStaleness, now);
      var result := project(snapshot);
      if stale == [] {
        r := AllFresh(result);
      } else {
        r := StalePeersDetected(stale, result);
      }
    }
  }
}
