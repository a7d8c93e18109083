/** What one shard does to its owned state and its view map, as functions on values.
    The class ShardCore is verified against these functions. */
module ShardSpec {
  import opened Types

  // ── Owned state ────────────────────────────────────────────────

  /** The owned state after one mutation: a new value, one age later. */
  function Mutated<S>(state: StateObject<S>, value: S, t: Time): (next: StateObject<S>)
    ensures state.generation.Lt(next.generation)
  {
    state.(generation := state.generation.Next(), value := value, modifiedTime := t.unixMs)
  }

  /** The local node's own entry for a state and its projected view. */
  function OwnEntry<S, V>(id: NodeId, state: StateObject<S>, view: V, t: Time): ViewObject<V> {
    ViewObject(state.generation, state.storageVersion, view, state.createdTime, state.modifiedTime, t.now, None, id)
  }

  // ── Inbound snapshots ──────────────────────────────────────────

  datatype InboundSnapshot<V> = InboundSnapshot(
    source: NodeId,
    generation: Generation,
    wireVersion: nat,
    view: V,
    createdTime: nat,
    modifiedTime: nat)

  /** A marker survives an update only while the update is still behind it. */
  function StillAhead(pending: Option<Generation>, g: Generation): Option<Generation> {
    if pending.Some? && g.Lt(pending.value) then pending else None
  }

  /** The entry that a snapshot leaves behind, or None when the snapshot is refused. */
  function OfferSnapshot<V>(existing: Option<ViewObject<V>>, snap: InboundSnapshot<V>, t: Time)
    : Option<ViewObject<V>>
  {
    if existing.Some? && !existing.value.generation.Lt(snap.generation) then
      None
    else
      var pending := if existing.Some? then StillAhead(existing.value.pending, snap.generation) else None;
      Some(ViewObject(snap.generation, snap.wireVersion, snap.view, snap.createdTime, snap.modifiedTime,
                      t.now, pending, snap.source))
  }

  // ── Inbound deltas ─────────────────────────────────────────────

  datatype DeltaVerdict = Stale | Gap | Applies

  /** Where a delta stands relative to the view it would be applied to, in terms of the
      generation order alone. */
  function Judge(local: Generation, incoming: Generation): DeltaVerdict {
    if incoming.Le(local) then Stale
    else if incoming == local.Next() then Applies
    else Gap
  }

  /** The entry after a delta that applies. */
  function DeltaEntry<V>(existing: ViewObject<V>, source: NodeId, g: Generation, wireVersion: nat, view: V, t: Time)
    : ViewObject<V>
  {
    ViewObject(g, wireVersion, view, existing.createdTime, t.unixMs, t.now, StillAhead(existing.pending, g), source)
  }

  // ── Staleness ──────────────────────────────────────────────────

  /** The entry that a change notice leaves behind, or None when nothing changes. */
  function OfferMark<V>(existing: Option<ViewObject<V>>, g: Generation): Option<ViewObject<V>> {
    if existing.None? || g.Le(existing.value.generation) then None
    else Some(existing.value.(pending := Some(g)))
  }

  function MarkStale<V>(views: Views<V>, source: NodeId, g: Generation): Views<V> {
    var marked := OfferMark(Lookup(views, source), g);
    if marked.Some? then views[source := marked.value] else views
  }

  predicate IsStale<V>(entry: ViewObject<V>, now: nat, maxStaleness: nat) {
    entry.pending.Some? || now - entry.syncedAt > maxStaleness
  }

  function StalePeers<V>(views: Views<V>, self: NodeId, now: nat, maxStaleness: nat): set<NodeId> {
    set id | id in views && id != self && IsStale(views[id], now, maxStaleness)
  }

  // ── Membership ─────────────────────────────────────────────────

  function Placeholder<V>(id: NodeId, view: V, t: Time): ViewObject<V> {
    ViewObject(ZERO, 0, view, 0, 0, t.now, Some(Generation(1, 0)), id)
  }

  function Join<V>(views: Views<V>, self: NodeId, id: NodeId, view: V, t: Time): Views<V> {
    if id == self || id in views then views else views[id := Placeholder(id, view, t)]
  }

  function Leave<V>(views: Views<V>, self: NodeId, id: NodeId): Views<V> {
    if id == self then views else views - {id}
  }
}
