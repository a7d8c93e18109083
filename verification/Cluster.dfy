/** A cluster of engines over an unreliable network, as a labelled step function.

    The network is a multiset of packets. A packet may be delivered at any time and in any
    order, and the whole multiset may at any time be replaced by any other multiset of
    packets that are in it, which covers loss, duplication, corruption that is detected,
    delay and reordering. Nodes start and crash, and learn of joins and leaves, in any
    order and independently of each other. `published` records the view each owner showed
    at each generation; no step reads it. */
module Cluster {
  import opened Types
  import opened ShardSpec
  import opened EngineSpec

  /** A node: its engine and the delayed messages its host still has to broadcast. */
  datatype Node<!S, !V> = Node(engine: Engine<S, V>, scheduled: multiset<SyncMessage>)

  datatype Stamp = Stamp(node: NodeId, generation: Generation)

  datatype State<!S, !V> = State(
    nodes: map<NodeId, Node<S, V>>,
    net: multiset<Packet>,
    published: map<Stamp, V>)

  datatype Label<!S, !V> =
    | Start(engine: Engine<S, V>)
    | Crash(id: NodeId)
    | Local(id: NodeId, ev: Event<S, V>, t: Time)
    | FlushFeed(id: NodeId, notes: seq<Notification>)
    | Query(id: NodeId, maxStaleness: nat, t: Time)
    | Fire(id: NodeId, msg: SyncMessage)
    | Deliver(packet: Packet, t: Time)
    | Perturb(net: multiset<Packet>)

  // ── Hypotheses ─────────────────────────────────────────────────

  /** What bytes of a given wire version mean: the view they encode, and the view that
      they, read as a delta, turn another view into. */
  datatype Format<!V> = Format(view: (Bytes, nat) -> V, delta: (Bytes, nat, V) -> V)

  /** An engine's codecs agree with the format wherever they succeed. */
  ghost predicate Speaks<V(!new)>(cfg: Config<V>, fmt: Format<V>) {
    && (forall v: V :: fmt.view(cfg.serialize(v), cfg.wireVersion) == v)
    && (forall d: Bytes, w: nat :: cfg.deserialize(d, w).Ok? ==> cfg.deserialize(d, w).value == fmt.view(d, w))
    && (cfg.applier.Some? ==>
          forall d: Bytes, w: nat, v: V ::
            cfg.applier.value(d, w, v).Ok? ==> cfg.applier.value(d, w, v).value == fmt.delta(d, w, v))
  }

  /** A new life of a node: an engine that has seen nothing yet, whose incarnation is
      positive and later than every incarnation the node has ever published under. */
  ghost predicate NewLife<S, V(!new)>(c: State<S, V>, e: Engine<S, V>, fmt: Format<V>) {
    && e.cfg.id !in c.nodes
    && e.views.Keys == {e.cfg.id}
    && e.views[e.cfg.id].generation == e.state.generation
    && e.views[e.cfg.id].pending == None
    && e.departed == {}
    && e.feed == map[]
    && Speaks(e.cfg, fmt)
    && 0 < e.state.generation.incarnation
    && forall s :: s in c.published && s.node == e.cfg.id ==>
                     s.generation.incarnation < e.state.generation.incarnation
  }

  /** The delta law: the serialized delta turns the owner's last view into its new one. */
  ghost predicate DeltaLaw<S, V>(e: Engine<S, V>, ev: Event<S, V>, fmt: Format<V>)
    requires HasOwn(e)
  {
    ev.DeltaMutation? ==> fmt.delta(ev.delta, e.cfg.wireVersion, e.views[e.cfg.id].value) == ev.view
  }

  /** `notes` lists a change feed: one notice for each key, in any order. */
  ghost predicate Lists(notes: seq<Notification>, feed: map<FeedKey, Generation>) {
    && (forall i :: 0 <= i < |notes| ==>
          (notes[i].stateName, notes[i].source) in feed
          && feed[(notes[i].stateName, notes[i].source)] == notes[i].generation)
    && (forall k :: k in feed ==> Notification(k.0, k.1, feed[k]) in notes)
    && (forall i, j :: 0 <= i < j < |notes| ==>
          (notes[i].stateName, notes[i].source) != (notes[j].stateName, notes[j].source))
  }

  ghost predicate Enabled<S, V(!new)>(c: State<S, V>, l: Label<S, V>, fmt: Format<V>) {
    match l
    case Start(e) => NewLife(c, e, fmt)
    case Crash(id) => id in c.nodes
    case Local(id, ev, t) =>
      id in c.nodes && HasOwn(c.nodes[id].engine) && !ev.Inbound? && !ev.Flush? && DeltaLaw(c.nodes[id].engine, ev, fmt)
    case FlushFeed(id, notes) => id in c.nodes && Lists(notes, c.nodes[id].engine.feed)
    case Query(id, maxStaleness, t) => id in c.nodes
    case Fire(id, msg) => id in c.nodes && msg in c.nodes[id].scheduled
    case Deliver(p, t) => p in c.net && (p.to in c.nodes ==> HasOwn(c.nodes[p.to].engine))
    case Perturb(net) => forall p :: p in net ==> p in c.net
  }

  // ── Steps ──────────────────────────────────────────────────────

  function Broadcast(from: NodeId, msg: WireMessage, ids: set<NodeId>): multiset<Packet> {
    multiset(set to | to in ids && to != from :: Packet(from, to, msg))
  }

  /** The packets an action puts on the network. */
  function Sent(from: NodeId, action: Option<Action>, ids: set<NodeId>): multiset<Packet> {
    match action
    case Some(BroadcastSync(m)) => Broadcast(from, Sync(m), ids)
    case Some(SendSync(target, m)) => multiset{Packet(from, target, Sync(m))}
    case Some(ScheduleDelayed(_, _)) => multiset{}
    case None => multiset{}
  }

  function Postponed(action: Option<Action>): multiset<SyncMessage> {
    if action.Some? && action.value.ScheduleDelayed? then multiset{action.value.message} else multiset{}
  }

  function Publish<S, V>(published: map<Stamp, V>, e: Engine<S, V>): map<Stamp, V>
    requires HasOwn(e)
  {
    published[Stamp(e.cfg.id, e.state.generation) := e.views[e.cfg.id].value]
  }

  /** One engine acts: its host carries the action out. */
  function Act<S, V>(c: State<S, V>, id: NodeId, out: Outcome<S, V>): State<S, V>
    requires id in c.nodes
  {
    c.(nodes := c.nodes[id := Node(out.engine, c.nodes[id].scheduled + Postponed(out.action))],
       net := c.net + Sent(id, out.action, c.nodes.Keys))
  }

  function Next<S, V(!new)>(c: State<S, V>, l: Label<S, V>, ghost fmt: Format<V>): State<S, V>
    requires Enabled(c, l, fmt)
  {
    match l
    case Start(e) =>
      c.(nodes := c.nodes[e.cfg.id := Node(e, multiset{})], published := Publish(c.published, e))
    case Crash(id) => c.(nodes := c.nodes - {id})
    case Local(id, ev, t) =>
      var out := Step(c.nodes[id].engine, ev, t);
      var c' := Act(c, id, out);
      if ev.Mutation? || ev.DeltaMutation? then c'.(published := Publish(c.published, out.engine)) else c'
    case FlushFeed(id, notes) =>
      var n := c.nodes[id];
      c.(nodes := c.nodes[id := n.(engine := FeedFlushed(n.engine))],
         net := if notes == [] then c.net else c.net + Broadcast(id, Feed(Batch(id, notes)), c.nodes.Keys))
    case Query(id, maxStaleness, t) =>
      var e := c.nodes[id].engine;
      c.(net := c.net + multiset(set p | p in PullTargets(e, maxStaleness, t.now) ::
                                   Packet(id, p, Sync(RequestSnapshot(e.cfg.name, e.cfg.id)))))
    case Fire(id, msg) =>
      var n := c.nodes[id];
      c.(nodes := c.nodes[id := n.(scheduled := n.scheduled - multiset{msg})],
         net := c.net + Broadcast(id, Sync(msg), c.nodes.Keys))
    case Deliver(p, t) =>
      var c' := c.(net := c.net - multiset{p});
      if p.to in c.nodes then Act(c', p.to, HandleInbound(c.nodes[p.to].engine, p.msg, t)) else c'
    case Perturb(net) => c.(net := net)
  }

  function Empty<S, V>(): State<S, V> {
    State(map[], multiset{}, map[])
  }

  /** `states` is the run that `labels` produces from the empty cluster. */
  ghost predicate IsRun<S, V(!new)>(states: seq<State<S, V>>, labels: seq<Label<S, V>>, fmt: Format<V>) {
    && |states| == |labels| + 1
    && states[0] == Empty()
    && forall i :: 0 <= i < |labels| ==> Leads(states, labels, fmt, i)
  }

  /** Label i is enabled in state i, and leads to state i + 1. */
  ghost predicate Leads<S, V(!new)>(states: seq<State<S, V>>, labels: seq<Label<S, V>>, fmt: Format<V>, i: int)
    requires |states| == |labels| + 1 && 0 <= i < |labels|
  {
    Enabled(states[i], labels[i], fmt) && states[i + 1] == Next(states[i], labels[i], fmt)
  }

  /** Either one engine event, or nothing, happens to a node that stays up. */
  lemma OneEventAtATime<S, V(!new)>(c: State<S, V>, l: Label<S, V>, fmt: Format<V>, n: NodeId)
    requires Enabled(c, l, fmt) && n in c.nodes && n in Next(c, l, fmt).nodes
    ensures
      var e, e' := c.nodes[n].engine, Next(c, l, fmt).nodes[n].engine;
      if l.Local? && l.id == n then e' == Step(e, l.ev, l.t).engine
      else if l.Deliver? && l.packet.to == n then e' == HandleInbound(e, l.packet.msg, l.t).engine
      else e'.views == e.views && e'.departed == e.departed && e'.state == e.state && e'.cfg == e.cfg
  {
    var e, e' := c.nodes[n].engine, Next(c, l, fmt).nodes[n].engine;
    match l {
      case Start(_) => assert e' == e;
      case Crash(_) => assert e' == e;
      case Local(id, _, _) => assert id != n ==> e' == e;
      case FlushFeed(id, _) => assert id != n ==> e' == e;
      case Query(_, _, _) => assert e' == e;
      case Fire(id, _) => assert e' == e;
      case Deliver(p, _) => assert p.to != n ==> e' == e;
      case Perturb(_) => assert e' == e;
    }
  }
}
