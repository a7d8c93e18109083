/** What one DistributedStateEngine does, as functions on values: every operation maps an
    engine to the engine after it and the action it asks its host to carry out. No
    operation asks for more than one action. The class DistributedStateEngine is verified
    against these functions, and the cluster is built from them. */
module EngineSpec {
  import opened Types
  import opened ShardSpec
  import opened DiagnosticsSpec

  type FeedKey = (string, NodeId)

  /** What the host fixes when it builds an engine: names, versions, policies and codecs. */
  datatype Config<!V> = Config(
    name: string,
    id: NodeId,
    wireVersion: nat,
    strategy: Strategy,
    policy: MismatchPolicy,
    serialize: V -> Bytes,
    deserialize: (Bytes, nat) -> Result<V, DeserializeError>,
    applier: Option<(Bytes, nat, V) -> Result<V, DeserializeError>>)

  datatype Engine<!S, !V> = Engine(
    cfg: Config<V>,
    state: StateObject<S>,
    views: Views<V>,
    departed: set<NodeId>,
    feed: map<FeedKey, Generation>,
    diag: Diagnostics)

  datatype Outcome<!S, !V> = Outcome(engine: Engine<S, V>, action: Option<Action>)

  /** The local node's own entry exists. */
  predicate HasOwn<S, V>(e: Engine<S, V>) {
    e.cfg.id in e.views
  }

  /** A newly built engine: its incarnation is the wall clock. */
  function NewEngine<S, V>(cfg: Config<V>, value: S, view: V, t: Time): (e: Engine<S, V>)
    ensures HasOwn(e)
  {
    var state := StateObject(Generation(t.unixMs, 0), 0, value, t.unixMs, t.unixMs);
    Engine(cfg, state, map[cfg.id := OwnEntry(cfg.id, state, view, t)], {}, map[], NO_DIAGNOSTICS)
  }

  // ── Outbound messages ──────────────────────────────────────────

  function OwnSnapshot<S, V>(e: Engine<S, V>): SyncMessage
    requires HasOwn(e)
  {
    FullSnapshot(e.cfg.name, e.cfg.id, e.state.generation, e.cfg.wireVersion,
                 e.cfg.serialize(e.views[e.cfg.id].value))
  }

  function OwnDelta<S, V>(e: Engine<S, V>, data: Bytes): SyncMessage {
    DeltaUpdate(e.cfg.name, e.cfg.id, e.state.generation, e.cfg.wireVersion, data)
  }

  function SnapshotRequest<S, V>(e: Engine<S, V>, target: NodeId): Action {
    SendSync(target, RequestSnapshot(e.cfg.name, e.cfg.id))
  }

  // ── Mutation ───────────────────────────────────────────────────

  datatype SyncAction =
    | BroadcastSnapshot
    | BroadcastDelta
    | NotifyChangeFeed
    | ScheduleSend(delay: nat)
    | SuppressSend

  function BroadcastChoice(supportsDelta: bool): SyncAction {
    if supportsDelta then BroadcastDelta else BroadcastSnapshot
  }

  function ResolveAction(strategy: Strategy, supportsDelta: bool, urgency: Urgency): SyncAction {
    match urgency
    case Immediate => BroadcastChoice(supportsDelta)
    case Delayed(d) => ScheduleSend(d)
    case Suppressed => SuppressSend
    case Default =>
      match strategy.pushMode
      case Some(ActivePush) => BroadcastChoice(supportsDelta)
      case Some(ActiveFeedLazyPull) => NotifyChangeFeed
      case None => SuppressSend
  }

  function Resolve<S, V>(e: Engine<S, V>, urgency: Urgency): SyncAction {
    ResolveAction(e.cfg.strategy, e.cfg.applier.Some?, urgency)
  }

  /** Keep the higher generation under a change-feed key. */
  function Notify(feed: map<FeedKey, Generation>, key: FeedKey, g: Generation): map<FeedKey, Generation> {
    feed[key := if key in feed then Max(feed[key], g) else g]
  }

  /** The engine after its state and own entry moved on, before anything is sent. */
  function Advance<S, V>(e: Engine<S, V>, value: S, view: V, t: Time): (r: Engine<S, V>)
    requires HasOwn(e)
    ensures HasOwn(r)
  {
    var state := Mutated(e.state, value, t);
    e.(state := state,
       views := e.views[e.cfg.id := OwnEntry(e.cfg.id, state, view, t)],
       diag := e.diag.MutationApplied())
  }

  function Announce<S, V>(e: Engine<S, V>): Engine<S, V> {
    e.(feed := Notify(e.feed, (e.cfg.name, e.cfg.id), e.state.generation))
  }

  /** What becomes of a mutation that goes out as the full view. A decision for a delta
      still sends the view, because this path has no delta. */
  function SnapshotOutcome<S, V>(e: Engine<S, V>, choice: SyncAction): Outcome<S, V>
    requires HasOwn(e)
  {
    match choice
    case BroadcastSnapshot => Outcome(e.(diag := e.diag.SnapshotSent()), Some(BroadcastSync(OwnSnapshot(e))))
    case BroadcastDelta => Outcome(e.(diag := e.diag.SnapshotSent()), Some(BroadcastSync(OwnSnapshot(e))))
    case NotifyChangeFeed => Outcome(Announce(e), None)
    case ScheduleSend(d) => Outcome(e.(diag := e.diag.SnapshotSent()), Some(ScheduleDelayed(d, OwnSnapshot(e))))
    case SuppressSend => Outcome(e.(diag := e.diag.Suppressed()), None)
  }

  /** What becomes of a mutation that comes with a delta. */
  function DeltaOutcome<S, V>(e: Engine<S, V>, choice: SyncAction, delta: Bytes): Outcome<S, V>
    requires HasOwn(e)
  {
    match choice
    case BroadcastSnapshot => Outcome(e.(diag := e.diag.SnapshotSent()), Some(BroadcastSync(OwnSnapshot(e))))
    case BroadcastDelta => Outcome(e.(diag := e.diag.DeltaSent(true)), Some(BroadcastSync(OwnDelta(e, delta))))
    case NotifyChangeFeed => Outcome(Announce(e), None)
    case ScheduleSend(d) => Outcome(e.(diag := e.diag.DeltaSent(false)), Some(ScheduleDelayed(d, OwnDelta(e, delta))))
    case SuppressSend => Outcome(e.(diag := e.diag.Suppressed()), None)
  }

  function Mutate<S, V>(e: Engine<S, V>, value: S, view: V, urgency: Urgency, t: Time): (r: Outcome<S, V>)
    requires HasOwn(e)
  {
    SnapshotOutcome(Advance(e, value, view, t), Resolve(e, urgency))
  }

  function MutateWithDelta<S, V>(e: Engine<S, V>, value: S, view: V, delta: Bytes, urgency: Urgency, t: Time)
    : (r: Outcome<S, V>)
    requires HasOwn(e)
  {
    DeltaOutcome(Advance(e, value, view, t), Resolve(e, urgency), delta)
  }

  // ── Inbound messages ───────────────────────────────────────────

  /** The view map after a version mismatch with a peer. */
  function OnMismatch<S, V>(e: Engine<S, V>, source: NodeId): Views<V> {
    if e.cfg.policy.DropAndWait? then Leave(e.views, e.cfg.id, source) else e.views
  }

  function HandleSnapshot<S, V>(e: Engine<S, V>, m: SyncMessage, t: Time): (r: Engine<S, V>)
    requires m.FullSnapshot?
  {
    if m.stateName != e.cfg.name || m.source in e.departed then e
    else
      match e.cfg.deserialize(m.data, m.wireVersion)
      case Err(UnknownVersion(v)) =>
        e.(views := OnMismatch(e, m.source), diag := e.diag.SyncFailed(m.source, SnapshotVersion(v), t))
      case Err(Malformed(text)) =>
        e.(diag := e.diag.SyncFailed(m.source, SnapshotMalformed(text), t))
      case Ok(view) =>
        var snap := InboundSnapshot(m.source, m.generation, m.wireVersion, view, t.unixMs, t.unixMs);
        match OfferSnapshot(Lookup(e.views, m.source), snap, t)
        case Some(entry) => e.(views := e.views[m.source := entry], diag := e.diag.SnapshotReceived(m.source, t))
        case None => e.(diag := e.diag.StaleDiscarded())
  }

  function DeltaFailure(error: DeserializeError): Failure {
    match error
    case UnknownVersion(v) => DeltaVersion(v)
    case Malformed(text) => DeltaMalformed(text)
  }

  function HandleDelta<S, V>(e: Engine<S, V>, m: SyncMessage, t: Time): (r: Outcome<S, V>)
    requires m.DeltaUpdate?
  {
    if m.stateName != e.cfg.name || m.source in e.departed then Outcome(e, None)
    else if m.wireVersion != e.cfg.wireVersion then
      Outcome(e.(views := OnMismatch(e, m.source),
                 diag := e.diag.SyncFailed(m.source, DeltaWireVersion(m.wireVersion), t)), None)
    else if e.cfg.applier.None? || m.source !in e.views then
      Outcome(e, Some(SnapshotRequest(e, m.source)))
    else
      var entry := e.views[m.source];
      match Judge(entry.generation, m.generation)
      case Stale => Outcome(e.(diag := e.diag.StaleDiscarded()), None)
      case Gap => Outcome(e.(diag := e.diag.GapDetected(m.source)), Some(SnapshotRequest(e, m.source)))
      case Applies =>
        match e.cfg.applier.value(m.data, m.wireVersion, entry.value)
        case Err(error) =>
          Outcome(e.(diag := e.diag.SyncFailed(m.source, DeltaFailure(error), t)), Some(SnapshotRequest(e, m.source)))
        case Ok(view) =>
          Outcome(e.(views := e.views[m.source := DeltaEntry(entry, m.source, m.generation, m.wireVersion, view, t)],
                     diag := e.diag.DeltaReceived(m.source, t)), None)
  }

  function HandleRequest<S, V>(e: Engine<S, V>, m: SyncMessage): (r: Outcome<S, V>)
    requires m.RequestSnapshot? && HasOwn(e)
  {
    if m.stateName != e.cfg.name || m.requester in e.departed then Outcome(e, None)
    else Outcome(e.(diag := e.diag.SnapshotSent()), Some(SendSync(m.requester, OwnSnapshot(e))))
  }

  /** One change notice at its receiver. */
  function MarkOne<V>(name: string, departed: set<NodeId>, views: Views<V>, n: Notification): Views<V> {
    if n.stateName != name || n.source in departed then views
    else MarkStale(views, n.source, n.generation)
  }

  /** A list of change notices at their receiver, in order. */
  function MarkAll<V>(name: string, departed: set<NodeId>, views: Views<V>, notes: seq<Notification>): Views<V> {
    if notes == [] then views
    else MarkAll(name, departed, MarkOne(name, departed, views, notes[0]), notes[1..])
  }

  function HandleFeed<S, V>(e: Engine<S, V>, batch: Batch): Engine<S, V> {
    if batch.source == e.cfg.id then e
    else e.(views := MarkAll(e.cfg.name, e.departed, e.views, batch.notifications))
  }

  function HandleInbound<S, V>(e: Engine<S, V>, msg: WireMessage, t: Time): (r: Outcome<S, V>)
    requires HasOwn(e)
  {
    match msg
    case Feed(batch) => Outcome(HandleFeed(e, batch), None)
    case Sync(m) =>
      match m
      case FullSnapshot(_, _, _, _, _) => Outcome(HandleSnapshot(e, m, t), None)
      case DeltaUpdate(_, _, _, _, _) => HandleDelta(e, m, t)
      case RequestSnapshot(_, _) => HandleRequest(e, m)
  }

  // ── Membership, periodic sync, queries ─────────────────────────

  function NodeJoined<S, V>(e: Engine<S, V>, id: NodeId, view: V, t: Time): (r: Outcome<S, V>)
    requires HasOwn(e)
  {
    var next := e.(departed := e.departed - {id},
                   views := Join(e.views, e.cfg.id, id, view, t),
                   diag := e.diag.SnapshotSent());
    Outcome(next, Some(SendSync(id, OwnSnapshot(next))))
  }

  function NodeLeft<S, V>(e: Engine<S, V>, id: NodeId): Engine<S, V> {
    e.(views := Leave(e.views, e.cfg.id, id), departed := e.departed + {id}, diag := e.diag.PeerRemoved(id))
  }

  function PeriodicSync<S, V>(e: Engine<S, V>): (r: Outcome<S, V>)
    requires HasOwn(e)
  {
    if e.cfg.strategy.periodicFullSync.None? then Outcome(e, None)
    else Outcome(e.(diag := e.diag.SnapshotSent()), Some(BroadcastSync(OwnSnapshot(e))))
  }

  function FeedFlushed<S, V>(e: Engine<S, V>): Engine<S, V> {
    e.(feed := map[])
  }

  /** The peers a query asks for a snapshot. */
  function PullTargets<S, V>(e: Engine<S, V>, maxStaleness: nat, now: nat): set<NodeId> {
    if e.cfg.strategy.pullOnQuery then StalePeers(e.views, e.cfg.id, now, maxStaleness) - e.departed else {}
  }

  // ── Everything that can happen to an engine ────────────────────

  datatype Event<!S, !V> =
    | Mutation(value: S, view: V, urgency: Urgency)
    | DeltaMutation(value: S, view: V, delta: Bytes, urgency: Urgency)
    | Inbound(msg: WireMessage)
    | Joined(id: NodeId, placeholder: V)
    | Left(id: NodeId)
    | Periodic
    | Flush

  function Step<S, V>(e: Engine<S, V>, ev: Event<S, V>, t: Time): (r: Outcome<S, V>)
    requires HasOwn(e)
    ensures HasOwn(r.engine) && r.engine.cfg == e.cfg
  {
    match ev
    case Mutation(value, view, urgency) => Mutate(e, value, view, urgency, t)
    case DeltaMutation(value, view, delta, urgency) => MutateWithDelta(e, value, view, delta, urgency, t)
    case Inbound(msg) => 
      HandleInboundKeepsOwn(e, msg, t);
      HandleInbound(e, msg, t)
    case Joined(id, view) => NodeJoined(e, id, view, t)
    case Left(id) => Outcome(NodeLeft(e, id), None)
    case Periodic => PeriodicSync(e)
    case Flush => Outcome(FeedFlushed(e), None)
  }

  /** Change notices touch nothing but the markers. */
  lemma {:induction false} MarkAllKeepsEntries<V>(
      name: string, departed: set<NodeId>, views: Views<V>, notes: seq<Notification>)
    ensures
      var marked := MarkAll(name, departed, views, notes);
      marked.Keys == views.Keys && forall p :: p in views ==> marked[p].(pending := views[p].pending) == views[p]
    decreases |notes|
  {
    if notes != [] {
      MarkAllKeepsEntries(name, departed, MarkOne(name, departed, views, notes[0]), notes[1..]);
    }
  }

  lemma HandleInboundKeepsOwn<S, V>(e: Engine<S, V>, msg: WireMessage, t: Time)
    requires HasOwn(e)
    ensures HasOwn(HandleInbound(e, msg, t).engine)
    ensures HandleInbound(e, msg, t).engine.cfg == e.cfg
  {
    if msg.Feed? {
      MarkAllKeepsEntries(e.cfg.name, e.departed, e.views, msg.batch.notifications);
    }
  }
}
