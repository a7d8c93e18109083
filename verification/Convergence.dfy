/** Convergence: once nothing is pending, every reader that an owner's current generation was
    sent to shows that generation, if nothing was lost since it was sent. What was lost, and
    who crashed or left, before that does not matter. */
module Convergence {
  import opened Types
  import opened ShardSpec
  import opened EngineSpec
  import opened Cluster
  import opened Agreement
  import opened RestartSafety

  // ── Who is owed what ───────────────────────────────────────────

  /** Two engines were built from the same release: same state, wire version and codec.
      They may still differ in whether they can apply deltas. */
  ghost predicate SameRelease<V>(cfg: Config<V>, ref: Config<V>) {
    && cfg.name == ref.name
    && cfg.wireVersion == ref.wireVersion
    && cfg.serialize == ref.serialize
    && cfg.deserialize == ref.deserialize
  }

  ghost predicate RoundTrips<V(!new)>(ref: Config<V>) {
    forall v: V :: ref.deserialize(ref.serialize(v), ref.wireVersion) == Ok(v)
  }

  /** Every life of every node was built from the reference release. */
  ghost predicate OneRelease<S, V>(l: Label<S, V>, ref: Config<V>) {
    l.Start? ==> SameRelease(l.engine.cfg, ref)
  }

  datatype Pair = Pair(reader: NodeId, owner: NodeId)

  /** Both nodes are up, and neither has marked the other as departed. */
  ghost predicate Connected<S, V>(c: State<S, V>, n: NodeId, p: NodeId) {
    && n in c.nodes && p in c.nodes && n != p
    && p !in c.nodes[n].engine.departed && n !in c.nodes[p].engine.departed
  }

  ghost function Everyone<S, V>(c: State<S, V>, owner: NodeId): set<Pair> {
    set n | n in c.nodes && Connected(c, n, owner) :: Pair(n, owner)
  }

  /** Which readers are owed their owner's current generation: it was sent to them, and
      nothing has been lost since. A mutation resets the owner's readers, and names all of
      them again only if it is pushed, now or later; a crash, a leave and the loss of a
      packet each take out the pairs they concern. */
  ghost function NowSent<S, V(!new)>(c: State<S, V>, sent: set<Pair>, l: Label<S, V>, fmt: Format<V>): set<Pair>
    requires Enabled(c, l, fmt)
  {
    match l
    case Crash(id) => set q | q in sent && q.reader != id && q.owner != id
    case Local(id, ev, t) => SentLocally(c, sent, id, ev, Step(c.nodes[id].engine, ev, t).action.Some?)
    case Query(id, maxStaleness, t) =>
      sent + set p | p in PullTargets(c.nodes[id].engine, maxStaleness, t.now) && Connected(c, id, p) :: Pair(id, p)
    case Perturb(net) => set q | q in sent && !Harms(c, net, q)
    case _ => sent
  }

  ghost function SentLocally<S, V>(
      c: State<S, V>, sent: set<Pair>, id: NodeId, ev: Event<S, V>, pushed: bool): set<Pair>
    requires id in c.nodes
  {
    match ev
    case Mutation(_, _, _) => (set q | q in sent && q.owner != id) + (if pushed then Everyone(c, id) else {})
    case DeltaMutation(_, _, _, _) => (set q | q in sent && q.owner != id) + (if pushed then Everyone(c, id) else {})
    case Joined(p, _) =>
      sent + (if p in c.nodes && p != id && id !in c.nodes[p].engine.departed then {Pair(p, id)} else {})
    case Left(p) => sent - {Pair(p, id), Pair(id, p)}
    case Periodic => sent + (if pushed then Everyone(c, id) else {})
    case _ => sent
  }

  /** The label cuts a pair of nodes off from each other. */
  ghost predicate Severs<S, V>(l: Label<S, V>, n: NodeId, p: NodeId) {
    match l
    case Crash(id) => id == n || id == p
    case Local(id, ev, _) => ev.Left? && ((id == n && ev.id == p) || (id == p && ev.id == n))
    case _ => false
  }

  /** The network no longer holds any copy of a packet that could catch the reader up. */
  ghost predicate Harms<S, V>(c: State<S, V>, net: multiset<Packet>, q: Pair) {
    exists k :: k in c.net && k !in net && Concerns(k, q)
  }

  /** A snapshot or delta of the owner to the reader, or a request of the reader to the owner. */
  predicate Concerns(k: Packet, q: Pair) {
    && k.msg.Sync?
    && match k.msg.message
       case RequestSnapshot(_, requester) => k.to == q.owner && requester == q.reader
       case FullSnapshot(_, source, _, _, _) => k.to == q.reader && source == q.owner
       case DeltaUpdate(_, source, _, _, _) => k.to == q.reader && source == q.owner
  }

  ghost predicate Loses<S, V>(c: State<S, V>, l: Label<S, V>, q: Pair) {
    l.Perturb? && Harms(c, l.net, q)
  }

  /** No packet that concerns the pair has gone. */
  ghost predicate NetKept<S, V>(c: State<S, V>, c': State<S, V>, q: Pair) {
    forall k :: k in c.net && Concerns(k, q) ==> k in c'.net
  }

  // ── The invariant ──────────────────────────────────────────────

  ghost predicate CaughtUp<S, V>(c: State<S, V>, n: NodeId, p: NodeId) {
    && Holds(c, n, p) && p in c.nodes
    && Entry(c, n, p).generation == c.nodes[p].engine.state.generation
  }

  /** A snapshot or delta that carries the owner's current generation. */
  ghost predicate Current<S, V>(c: State<S, V>, p: NodeId, m: SyncMessage)
    requires p in c.nodes
  {
    !m.RequestSnapshot? && m.source == p && m.generation == c.nodes[p].engine.state.generation
  }

  ghost predicate OnItsWay<S, V>(c: State<S, V>, n: NodeId, p: NodeId, k: Packet)
    requires p in c.nodes
  {
    k in c.net && k.to == n && k.msg.Sync? && Current(c, p, k.msg.message)
  }

  ghost predicate Scheduled<S, V>(c: State<S, V>, p: NodeId, m: SyncMessage)
    requires p in c.nodes
  {
    m in c.nodes[p].scheduled && Current(c, p, m)
  }

  ghost predicate Asked<S, V>(c: State<S, V>, n: NodeId, p: NodeId, k: Packet) {
    k in c.net && k.to == p && k.msg.Sync? && k.msg.message.RequestSnapshot? && k.msg.message.requester == n
  }

  /** The reader is caught up, or something is pending that will catch it up. */
  ghost predicate Due<S, V>(c: State<S, V>, n: NodeId, p: NodeId) {
    && Connected(c, n, p)
    && (|| CaughtUp(c, n, p)
        || (exists k :: OnItsWay(c, n, p, k))
        || (exists m :: Scheduled(c, p, m))
        || (exists k :: Asked(c, n, p, k)))
  }

  /** A message of the reference release, which every node can read. */
  ghost predicate Readable<V>(m: SyncMessage, ref: Config<V>) {
    && m.stateName == ref.name
    && (!m.RequestSnapshot? ==> m.wireVersion == ref.wireVersion)
    && (m.FullSnapshot? ==> ref.deserialize(m.data, ref.wireVersion).Ok?)
  }

  ghost predicate PlainNode<S, V>(n: Node<S, V>, ref: Config<V>) {
    && SameRelease(n.engine.cfg, ref)
    && forall m :: m in n.scheduled ==> Readable(m, ref)
  }

  ghost predicate PlainNet<V>(net: multiset<Packet>, ref: Config<V>) {
    forall k :: k in net && k.msg.Sync? ==> Readable(k.msg.message, ref)
  }

  ghost predicate Plain<S, V>(c: State<S, V>, ref: Config<V>) {
    && (forall id :: id in c.nodes ==> PlainNode(c.nodes[id], ref))
    && PlainNet(c.net, ref)
  }

  ghost predicate AllDue<S, V>(c: State<S, V>, sent: set<Pair>) {
    forall q :: q in sent ==> Due(c, q.reader, q.owner)
  }

  // ── Plainness ──────────────────────────────────────────────────

  lemma StepStaysPlain<S, V(!new)>(e: Engine<S, V>, ev: Event<S, V>, t: Time, ref: Config<V>)
    requires HasOwn(e) && SameRelease(e.cfg, ref) && RoundTrips(ref)
    ensures
      var out := Step(e, ev, t);
      out.action.Some? ==> Readable(out.action.value.message, ref)
  {
  }

  lemma ActStaysPlain<S, V(!new)>(c: State<S, V>, id: NodeId, out: Outcome<S, V>, ref: Config<V>)
    requires Plain(c, ref) && id in c.nodes && SameRelease(out.engine.cfg, ref)
    requires out.action.Some? ==> Readable(out.action.value.message, ref)
    ensures Plain(Act(c, id, out), ref)
  {
    assert PlainNode(c.nodes[id], ref);
    assert PlainNet(Sent(id, out.action, c.nodes.Keys), ref);
  }

  lemma BroadcastIsPlain<V(!new)>(from: NodeId, msg: WireMessage, ids: set<NodeId>, ref: Config<V>)
    requires msg.Sync? ==> Readable(msg.message, ref)
    ensures PlainNet(Broadcast(from, msg, ids), ref)
  {
  }

  lemma FireStaysPlain<S, V(!new)>(c: State<S, V>, l: Label<S, V>, ref: Config<V>, fmt: Format<V>)
    requires Plain(c, ref) && Enabled(c, l, fmt) && l.Fire?
    ensures Plain(Next(c, l, fmt), ref)
  {
    var n := c.nodes[l.id];
    assert PlainNode(n, ref);
    BroadcastIsPlain(l.id, Sync(l.msg), c.nodes.Keys, ref);
    assert PlainNode(n.(scheduled := n.scheduled - multiset{l.msg}), ref);
  }

  lemma FlushStaysPlain<S, V(!new)>(c: State<S, V>, l: Label<S, V>, ref: Config<V>, fmt: Format<V>)
    requires Plain(c, ref) && Enabled(c, l, fmt) && l.FlushFeed?
    ensures Plain(Next(c, l, fmt), ref)
  {
    var n := c.nodes[l.id];
    assert PlainNode(n, ref);
    BroadcastIsPlain(l.id, Feed(Batch(l.id, l.notes)), c.nodes.Keys, ref);
    assert PlainNode(n.(engine := FeedFlushed(n.engine)), ref);
  }

  lemma NetworkStaysPlain<S, V(!new)>(c: State<S, V>, l: Label<S, V>, ref: Config<V>, fmt: Format<V>)
    requires Plain(c, ref) && Enabled(c, l, fmt) && OneRelease(l, ref)
             && (l.Query? || l.Start? || l.Perturb? || l.Crash?)
    ensures Plain(Next(c, l, fmt), ref)
  {
    if l.Query? {
      assert PlainNode(c.nodes[l.id], ref);
    }
    assert PlainNet(Next(c, l, fmt).net, ref);
  }

  lemma StaysPlain<S, V(!new)>(c: State<S, V>, l: Label<S, V>, ref: Config<V>, fmt: Format<V>)
    requires Plain(c, ref) && RoundTrips(ref) && Enabled(c, l, fmt) && OneRelease(l, ref)
    ensures Plain(Next(c, l, fmt), ref)
  {
    match l {
      case Local(id, ev, t) =>
        assert PlainNode(c.nodes[id], ref);
        StepStaysPlain(c.nodes[id].engine, ev, t, ref);
        ActStaysPlain(c, id, Step(c.nodes[id].engine, ev, t), ref);
      case Deliver(k, t) =>
        var c1 := c.(net := c.net - multiset{k});
        assert Plain(c1, ref);
        if k.to in c.nodes {
          assert PlainNode(c.nodes[k.to], ref);
          StepStaysPlain(c.nodes[k.to].engine, Inbound(k.msg), t, ref);
          ActStaysPlain(c1, k.to, HandleInbound(c.nodes[k.to].engine, k.msg, t), ref);
        }
      case FlushFeed(_, _) => FlushStaysPlain(c, l, ref, fmt);
      case Fire(_, _) => FireStaysPlain(c, l, ref, fmt);
      case _ => NetworkStaysPlain(c, l, ref, fmt);
    }
  }

  // ── Entries stay, and never pass their owner ───────────────────

  /** Without version mismatches nothing but its leave removes a peer's entry. */
  lemma StepKeepsEntry<S, V(!new)>(e: Engine<S, V>, ev: Event<S, V>, t: Time, ref: Config<V>, p: NodeId)
    requires HasOwn(e) && SameRelease(e.cfg, ref) && !(ev.Left? && ev.id == p) && p in e.views
    requires ev.Inbound? && ev.msg.Sync? ==> Readable(ev.msg.message, ref)
    ensures p in Step(e, ev, t).engine.views
  {
    if ev.Inbound? && ev.msg.Feed? {
      MarkAllKeepsEntries(e.cfg.name, e.departed, e.views, ev.msg.batch.notifications);
    }
  }

  lemma EntryStays<S, V(!new)>(c: State<S, V>, l: Label<S, V>, ref: Config<V>, fmt: Format<V>, n: NodeId, p: NodeId)
    requires Plain(c, ref) && Enabled(c, l, fmt) && Holds(c, n, p) && p in c.nodes && n != p && !Severs(l, n, p)
    ensures Holds(Next(c, l, fmt), n, p)
  {
    OneEventAtATime(c, l, fmt, n);
    assert PlainNode(c.nodes[n], ref);
    if l.Local? && l.id == n {
      StepKeepsEntry(c.nodes[n].engine, l.ev, l.t, ref, p);
    } else if l.Deliver? && l.packet.to == n {
      StepKeepsEntry(c.nodes[n].engine, Inbound(l.packet.msg), l.t, ref, p);
    }
  }

  lemma EntryBound<S, V(!new)>(c: State<S, V>, fmt: Format<V>, n: NodeId, p: NodeId)
    requires Agree(c, fmt) && Holds(c, n, p) && p in c.nodes
    ensures Entry(c, n, p).generation.Le(c.nodes[p].engine.state.generation)
  {
    assert GoodNode(n, c.nodes[n], c.published, fmt) && GoodNode(p, c.nodes[p], c.published, fmt);
    assert Authentic(p, Entry(c, n, p), c.published);
    assert Newest(c.nodes[p].engine, c.published);
    if Entry(c, n, p).generation != ZERO {
      assert Stamp(p, Entry(c, n, p).generation) in c.published;
    }
  }

  /** The owner's generation is what it was. */
  ghost predicate OwnerStill<S, V>(c: State<S, V>, c': State<S, V>, p: NodeId) {
    && p in c.nodes && p in c'.nodes
    && c'.nodes[p].engine.state.generation == c.nodes[p].engine.state.generation
  }

  lemma CaughtUpStays<S, V(!new)>(c: State<S, V>, l: Label<S, V>, ref: Config<V>, fmt: Format<V>, n: NodeId, p: NodeId)
    requires Agree(c, fmt) && Plain(c, ref) && Enabled(c, l, fmt) && n != p && !Severs(l, n, p)
    requires CaughtUp(c, n, p) && OwnerStill(c, Next(c, l, fmt), p)
    ensures CaughtUp(Next(c, l, fmt), n, p)
  {
    var c' := Next(c, l, fmt);
    EntryStays(c, l, ref, fmt, n, p);
    assert Entry(c', n, p).generation.Le(c'.nodes[p].engine.state.generation) by {
      AgreeStep(c, l, fmt);
      EntryBound(c', fmt, n, p);
    }
    assert OwnInStep(c.nodes[n].engine) by {
      assert GoodNode(n, c.nodes[n], c.published, fmt);
    }
    ClusterNeverDecreases(c, l, fmt, n, p);
  }

  lemma StepConnected<S, V>(e: Engine<S, V>, ev: Event<S, V>, t: Time, p: NodeId)
    requires HasOwn(e) && p !in e.departed && !(ev.Left? && ev.id == p)
    ensures p !in Step(e, ev, t).engine.departed
  {
  }

  lemma StillAccepts<S, V(!new)>(c: State<S, V>, l: Label<S, V>, fmt: Format<V>, n: NodeId, p: NodeId)
    requires Enabled(c, l, fmt) && n in c.nodes && p !in c.nodes[n].engine.departed
    requires !Severs(l, n, p) && n in Next(c, l, fmt).nodes
    ensures p !in Next(c, l, fmt).nodes[n].engine.departed
  {
    OneEventAtATime(c, l, fmt, n);
    if l.Local? && l.id == n {
      StepConnected(c.nodes[n].engine, l.ev, l.t, p);
    } else if l.Deliver? && l.packet.to == n {
      StepConnected(c.nodes[n].engine, Inbound(l.packet.msg), l.t, p);
    }
  }

  lemma StaysConnected<S, V(!new)>(c: State<S, V>, l: Label<S, V>, fmt: Format<V>, n: NodeId, p: NodeId)
    requires Enabled(c, l, fmt) && Connected(c, n, p) && !Severs(l, n, p)
    ensures Connected(Next(c, l, fmt), n, p)
  {
    assert n in Next(c, l, fmt).nodes && p in Next(c, l, fmt).nodes;
    StillAccepts(c, l, fmt, n, p);
    StillAccepts(c, l, fmt, p, n);
  }

  /** Nothing that was pending for the reader has gone. */
  lemma PendingKeepsDue<S, V>(c: State<S, V>, c': State<S, V>, n: NodeId, p: NodeId)
    requires Due(c, n, p) && Connected(c', n, p) && OwnerStill(c, c', p)
    requires NetKept(c, c', Pair(n, p)) && c.nodes[p].scheduled <= c'.nodes[p].scheduled
    requires CaughtUp(c, n, p) ==> CaughtUp(c', n, p)
    ensures Due(c', n, p)
  {
    if CaughtUp(c, n, p) {
    } else if k :| OnItsWay(c, n, p, k) {
      assert OnItsWay(c', n, p, k);
    } else if m :| Scheduled(c, p, m) {
      assert Scheduled(c', p, m);
    } else {
      var k :| Asked(c, n, p, k);
      assert Asked(c', n, p, k);
    }
  }

  // ── Deliveries ─────────────────────────────────────────────────

  /** The current snapshot or delta brings its reader up to date or makes it ask. */
  lemma CurrentArrives<S, V(!new)>(e: Engine<S, V>, m: SyncMessage, t: Time, ref: Config<V>)
    requires HasOwn(e) && SameRelease(e.cfg, ref)
    requires !m.RequestSnapshot? && Readable(m, ref) && m.source !in e.departed
    requires m.source in e.views ==> e.views[m.source].generation.Le(m.generation)
    ensures
      var out := HandleInbound(e, Sync(m), t);
      || (m.source in out.engine.views && out.engine.views[m.source].generation == m.generation)
      || out.action == Some(SnapshotRequest(e, m.source))
  {
  }

  lemma RequestAnswered<S, V(!new)>(e: Engine<S, V>, m: SyncMessage, t: Time, ref: Config<V>)
    requires HasOwn(e) && SameRelease(e.cfg, ref) && m.RequestSnapshot? && Readable(m, ref)
             && m.requester !in e.departed
    ensures HandleInbound(e, Sync(m), t).action == Some(SendSync(m.requester, OwnSnapshot(e)))
  {
  }

  lemma DeliveryShape<S, V(!new)>(c: State<S, V>, k: Packet, t: Time, fmt: Format<V>)
    requires Agree(c, fmt) && Enabled(c, Deliver(k, t), fmt) && k.to in c.nodes
    ensures
      var c' := Next(c, Deliver(k, t), fmt);
      var out := HandleInbound(c.nodes[k.to].engine, k.msg, t);
      && c'.nodes.Keys == c.nodes.Keys
      && c'.nodes[k.to].engine == out.engine
      && c'.net == c.net - multiset{k} + Sent(k.to, out.action, c.nodes.Keys)
      && (forall id :: id in c.nodes ==> OwnerStill(c, c', id) && c.nodes[id].scheduled <= c'.nodes[id].scheduled)
  {
    assert GoodNode(k.to, c.nodes[k.to], c.published, fmt);
    assert HandleInbound(c.nodes[k.to].engine, k.msg, t).engine.state == c.nodes[k.to].engine.state;
  }

  lemma DeliveryKeepsDue<S, V(!new)>(
      c: State<S, V>, k: Packet, t: Time, ref: Config<V>, fmt: Format<V>, n: NodeId, p: NodeId)
    requires Agree(c, fmt) && Plain(c, ref) && Enabled(c, Deliver(k, t), fmt) && k.to in c.nodes && Due(c, n, p)
    ensures Due(Next(c, Deliver(k, t), fmt), n, p)
  {
    var c' := Next(c, Deliver(k, t), fmt);
    DeliveryShape(c, k, t, fmt);
    StaysConnected(c, Deliver(k, t), fmt, n, p);
    if CaughtUp(c, n, p) {
      CaughtUpStays(c, Deliver(k, t), ref, fmt, n, p);
    } else if m :| Scheduled(c, p, m) {
      assert Scheduled(c', p, m);
    } else if q :| OnItsWay(c, n, p, q) {
      if q == k {
        ArrivalKeepsDue(c, k, t, ref, fmt, n, p);
      } else {
        OtherPacketsStay(c, k, t, fmt, n, p, q);
      }
    } else {
      var q :| Asked(c, n, p, q);
      if q == k {
        AnswerKeepsDue(c, k, t, ref, fmt, n, p);
      } else {
        OtherPacketsStay(c, k, t, fmt, n, p, q);
      }
    }
  }

  lemma OtherPacketsStay<S, V(!new)>(
      c: State<S, V>, k: Packet, t: Time, fmt: Format<V>, n: NodeId, p: NodeId, q: Packet)
    requires Agree(c, fmt) && Enabled(c, Deliver(k, t), fmt) && k.to in c.nodes && Connected(c, n, p)
    requires q != k && (OnItsWay(c, n, p, q) || Asked(c, n, p, q))
    ensures Due(Next(c, Deliver(k, t), fmt), n, p)
  {
    var c' := Next(c, Deliver(k, t), fmt);
    DeliveryShape(c, k, t, fmt);
    StaysConnected(c, Deliver(k, t), fmt, n, p);
    assert q in c'.net;
    if OnItsWay(c, n, p, q) {
      assert OnItsWay(c', n, p, q);
    } else {
      assert Asked(c', n, p, q);
    }
  }

  lemma ArrivalKeepsDue<S, V(!new)>(
      c: State<S, V>, k: Packet, t: Time, ref: Config<V>, fmt: Format<V>, n: NodeId, p: NodeId)
    requires Agree(c, fmt) && Plain(c, ref) && Enabled(c, Deliver(k, t), fmt) && Connected(c, n, p)
    requires OnItsWay(c, n, p, k)
    ensures Due(Next(c, Deliver(k, t), fmt), n, p)
  {
    var c' := Next(c, Deliver(k, t), fmt);
    DeliveryShape(c, k, t, fmt);
    StaysConnected(c, Deliver(k, t), fmt, n, p);
    var e, m := c.nodes[n].engine, k.msg.message;
    assert HasOwn(e) && e.cfg.id == n by {
      assert GoodNode(n, c.nodes[n], c.published, fmt);
    }
    if p in e.views {
      EntryBound(c, fmt, n, p);
    }
    assert PlainNode(c.nodes[n], ref);
    CurrentArrives(e, m, t, ref);
    if HandleInbound(e, k.msg, t).action == Some(SnapshotRequest(e, p)) {
      var ask := Packet(n, p, Sync(RequestSnapshot(e.cfg.name, n)));
      assert Asked(c', n, p, ask);
    } else {
      assert CaughtUp(c', n, p);
    }
  }

  lemma AnswerKeepsDue<S, V(!new)>(
      c: State<S, V>, k: Packet, t: Time, ref: Config<V>, fmt: Format<V>, n: NodeId, p: NodeId)
    requires Agree(c, fmt) && Plain(c, ref) && Enabled(c, Deliver(k, t), fmt) && Connected(c, n, p)
    requires Asked(c, n, p, k)
    ensures Due(Next(c, Deliver(k, t), fmt), n, p)
  {
    var c' := Next(c, Deliver(k, t), fmt);
    DeliveryShape(c, k, t, fmt);
    StaysConnected(c, Deliver(k, t), fmt, n, p);
    var e := c.nodes[p].engine;
    assert HasOwn(e) && e.cfg.id == p by {
      assert GoodNode(p, c.nodes[p], c.published, fmt);
    }
    assert PlainNode(c.nodes[p], ref);
    RequestAnswered(e, k.msg.message, t, ref);
    assert OnItsWay(c', n, p, Packet(p, n, Sync(OwnSnapshot(e))));
  }

  // ── Everything else ────────────────────────────────────────────

  /** What a label leaves alone: the packets that concern the pair, and what the owner has
      scheduled, with its generation. */
  ghost predicate LeavesAlone<S, V>(c: State<S, V>, c': State<S, V>, n: NodeId, p: NodeId) {
    && NetKept(c, c', Pair(n, p))
    && OwnerStill(c, c', p) && c.nodes[p].scheduled <= c'.nodes[p].scheduled
  }

  lemma LocalLeavesAlone<S, V(!new)>(c: State<S, V>, l: Label<S, V>, fmt: Format<V>, n: NodeId, p: NodeId)
    requires Enabled(c, l, fmt) && l.Local? && p in c.nodes
    requires !(l.id == p && (l.ev.Mutation? || l.ev.DeltaMutation?))
    ensures LeavesAlone(c, Next(c, l, fmt), n, p)
  {
    var c', out := Next(c, l, fmt), Step(c.nodes[l.id].engine, l.ev, l.t);
    assert c'.nodes == c.nodes[l.id := Node(out.engine, c.nodes[l.id].scheduled + Postponed(out.action))];
    assert c'.net == c.net + Sent(l.id, out.action, c.nodes.Keys);
  }

  lemma HostLeavesAlone<S, V(!new)>(c: State<S, V>, l: Label<S, V>, fmt: Format<V>, n: NodeId, p: NodeId)
    requires Enabled(c, l, fmt) && p in c.nodes && (l.FlushFeed? || l.Query? || (l.Fire? && l.id != p))
    ensures LeavesAlone(c, Next(c, l, fmt), n, p)
  {
    var c' := Next(c, l, fmt);
    if l.FlushFeed? {
      assert c'.nodes == c.nodes[l.id := c.nodes[l.id].(engine := FeedFlushed(c.nodes[l.id].engine))];
    } else {
      assert c'.nodes[p] == c.nodes[p];
    }
  }

  /** Steps that take nothing away from the pair and leave the owner's generation alone. */
  lemma QuietShape<S, V(!new)>(c: State<S, V>, l: Label<S, V>, fmt: Format<V>, n: NodeId, p: NodeId)
    requires Enabled(c, l, fmt) && !Loses(c, l, Pair(n, p)) && p in c.nodes && l != Crash(p)
    requires !l.Deliver? && !(l.Fire? && l.id == p)
             && !(l.Local? && l.id == p && (l.ev.Mutation? || l.ev.DeltaMutation?))
    ensures LeavesAlone(c, Next(c, l, fmt), n, p)
  {
    match l {
      case Local(_, _, _) => LocalLeavesAlone(c, l, fmt, n, p);
      case FlushFeed(_, _) => HostLeavesAlone(c, l, fmt, n, p);
      case Query(_, _, _) => HostLeavesAlone(c, l, fmt, n, p);
      case Fire(_, _) => HostLeavesAlone(c, l, fmt, n, p);
      case Start(_) => assert Next(c, l, fmt).nodes[p] == c.nodes[p];
      case Crash(_) => assert Next(c, l, fmt).nodes[p] == c.nodes[p];
      case Perturb(_) => assert Next(c, l, fmt).nodes == c.nodes;
    }
  }

  lemma QuietKeepsDue<S, V(!new)>(c: State<S, V>, l: Label<S, V>, ref: Config<V>, fmt: Format<V>, n: NodeId, p: NodeId)
    requires Agree(c, fmt) && Plain(c, ref) && Enabled(c, l, fmt) && Due(c, n, p) && !Severs(l, n, p)
             && !Loses(c, l, Pair(n, p))
    requires !l.Deliver? && !(l.Fire? && l.id == p)
             && !(l.Local? && l.id == p && (l.ev.Mutation? || l.ev.DeltaMutation?))
    ensures Due(Next(c, l, fmt), n, p)
  {
    QuietShape(c, l, fmt, n, p);
    StaysConnected(c, l, fmt, n, p);
    if CaughtUp(c, n, p) {
      CaughtUpStays(c, l, ref, fmt, n, p);
    }
    PendingKeepsDue(c, Next(c, l, fmt), n, p);
  }

  /** A delayed message that fires is on its way to every reader. */
  lemma FireKeepsDue<S, V(!new)>(c: State<S, V>, l: Label<S, V>, ref: Config<V>, fmt: Format<V>, n: NodeId)
    requires Agree(c, fmt) && Plain(c, ref) && Enabled(c, l, fmt) && l.Fire? && Due(c, n, l.id)
    ensures Due(Next(c, l, fmt), n, l.id)
  {
    var p, c' := l.id, Next(c, l, fmt);
    assert OwnerStill(c, c', p) && c.net <= c'.net;
    StaysConnected(c, l, fmt, n, p);
    if CaughtUp(c, n, p) {
      CaughtUpStays(c, l, ref, fmt, n, p);
    } else if k :| OnItsWay(c, n, p, k) {
      assert OnItsWay(c', n, p, k);
    } else if k :| Asked(c, n, p, k) {
      assert Asked(c', n, p, k);
    } else {
      var m :| Scheduled(c, p, m);
      FiredIsDue(c, l, fmt, n, m);
    }
  }

  lemma FiredIsDue<S, V(!new)>(c: State<S, V>, l: Label<S, V>, fmt: Format<V>, n: NodeId, m: SyncMessage)
    requires Enabled(c, l, fmt) && l.Fire? && Connected(c, n, l.id) && Scheduled(c, l.id, m)
    ensures Due(Next(c, l, fmt), n, l.id)
  {
    var c' := Next(c, l, fmt);
    StaysConnected(c, l, fmt, n, l.id);
    if m == l.msg {
      assert OnItsWay(c', n, l.id, Packet(l.id, n, Sync(m)));
    } else {
      assert Scheduled(c', l.id, m);
    }
  }

  /** Whatever an engine pushes on its own account carries its current generation. */
  lemma PushIsCurrent<S, V>(e: Engine<S, V>, ev: Event<S, V>, t: Time)
    requires HasOwn(e) && Step(e, ev, t).action.Some? && !ev.Inbound?
    ensures
      var out := Step(e, ev, t);
      var m := out.action.value.message;
      && !m.RequestSnapshot? && m.source == e.cfg.id && m.generation == out.engine.state.generation
      && (ev.Joined? ==> out.action.value == SendSync(ev.id, m))
      && (!ev.Joined? ==> !out.action.value.SendSync?)
  {
  }

  /** A mutation that is pushed, or scheduled, is due at every reader. */
  lemma PushIsDue<S, V(!new)>(c: State<S, V>, l: Label<S, V>, fmt: Format<V>, n: NodeId)
    requires Enabled(c, l, fmt) && l.Local? && n != l.id && c.nodes[l.id].engine.cfg.id == l.id
             && Connected(Next(c, l, fmt), n, l.id)
    requires Step(c.nodes[l.id].engine, l.ev, l.t).action.Some? && (l.ev.Joined? ==> n == l.ev.id)
    ensures Due(Next(c, l, fmt), n, l.id)
  {
    var out := Step(c.nodes[l.id].engine, l.ev, l.t);
    PushIsCurrent(c.nodes[l.id].engine, l.ev, l.t);
    var c', m := Next(c, l, fmt), out.action.value.message;
    assert c'.nodes[l.id] == Node(out.engine, c.nodes[l.id].scheduled + Postponed(out.action));
    assert c'.net == c.net + Sent(l.id, out.action, c.nodes.Keys);
    assert Current(c', l.id, m);
    if out.action.value.ScheduleDelayed? {
      assert Scheduled(c', l.id, m);
    } else {
      assert OnItsWay(c', n, l.id, Packet(l.id, n, Sync(m)));
    }
  }

  lemma QueryIsDue<S, V(!new)>(c: State<S, V>, l: Label<S, V>, fmt: Format<V>, p: NodeId)
    requires Agree(c, fmt) && Enabled(c, l, fmt) && l.Query? && Connected(c, l.id, p)
    requires p in PullTargets(c.nodes[l.id].engine, l.maxStaleness, l.t.now)
    ensures Due(Next(c, l, fmt), l.id, p)
  {
    assert GoodNode(l.id, c.nodes[l.id], c.published, fmt);
    var e := c.nodes[l.id].engine;
    assert Asked(Next(c, l, fmt), l.id, p, Packet(l.id, p, Sync(RequestSnapshot(e.cfg.name, e.cfg.id))));
  }

  lemma OldPairsStayDue<S, V(!new)>(
      c: State<S, V>, l: Label<S, V>, ref: Config<V>, fmt: Format<V>, n: NodeId, p: NodeId)
    requires Agree(c, fmt) && Plain(c, ref) && Enabled(c, l, fmt) && Due(c, n, p) && !Severs(l, n, p)
             && !Loses(c, l, Pair(n, p))
    requires !(l.Local? && l.id == p && (l.ev.Mutation? || l.ev.DeltaMutation?))
    ensures Due(Next(c, l, fmt), n, p)
  {
    if l.Deliver? {
      if l.packet.to in c.nodes {
        DeliveryKeepsDue(c, l.packet, l.t, ref, fmt, n, p);
      } else {
        LostLetterKeepsDue(c, l, fmt, n, p);
      }
    } else if l.Fire? && l.id == p {
      FireKeepsDue(c, l, ref, fmt, n);
    } else {
      QuietKeepsDue(c, l, ref, fmt, n, p);
    }
  }

  lemma LostLetterKeepsDue<S, V(!new)>(c: State<S, V>, l: Label<S, V>, fmt: Format<V>, n: NodeId, p: NodeId)
    requires Enabled(c, l, fmt) && Due(c, n, p) && l.Deliver? && l.packet.to !in c.nodes
    ensures Due(Next(c, l, fmt), n, p)
  {
    var c' := Next(c, l, fmt);
    assert c'.nodes == c.nodes;
    if CaughtUp(c, n, p) {
      assert CaughtUp(c', n, p);
    } else if k :| OnItsWay(c, n, p, k) {
      assert OnItsWay(c', n, p, k);
    } else if m :| Scheduled(c, p, m) {
      assert Scheduled(c', p, m);
    } else {
      var k :| Asked(c, n, p, k);
      assert Asked(c', n, p, k);
    }
  }

  lemma NewPairIsDue<S, V(!new)>(c: State<S, V>, sent: set<Pair>, l: Label<S, V>, fmt: Format<V>, q: Pair)
    requires Agree(c, fmt) && Enabled(c, l, fmt) && q in NowSent(c, sent, l, fmt)
    requires q !in sent || (l.Local? && l.id == q.owner && (l.ev.Mutation? || l.ev.DeltaMutation?))
    ensures Due(Next(c, l, fmt), q.reader, q.owner)
  {
    if l.Query? {
      QueryIsDue(c, l, fmt, q.owner);
    } else {
      assert GoodNode(l.id, c.nodes[l.id], c.published, fmt);
      NewPairConnected(c, sent, l, fmt, q);
      PushIsDue(c, l, fmt, q.reader);
    }
  }

  lemma NewPairConnected<S, V(!new)>(c: State<S, V>, sent: set<Pair>, l: Label<S, V>, fmt: Format<V>, q: Pair)
    requires Enabled(c, l, fmt) && l.Local? && q in NowSent(c, sent, l, fmt)
    requires q !in sent || (l.id == q.owner && (l.ev.Mutation? || l.ev.DeltaMutation?))
    ensures q.owner == l.id && Connected(Next(c, l, fmt), q.reader, l.id)
  {
    if l.ev.Joined? {
      var c' := Next(c, l, fmt);
      assert c'.nodes[q.reader] == c.nodes[q.reader];
    } else {
      StaysConnected(c, l, fmt, q.reader, l.id);
    }
  }

  lemma KeptPairIsUnharmed<S, V(!new)>(c: State<S, V>, sent: set<Pair>, l: Label<S, V>, fmt: Format<V>, q: Pair)
    requires Enabled(c, l, fmt) && q in sent && q in NowSent(c, sent, l, fmt)
    requires !(l.Local? && l.id == q.owner && (l.ev.Mutation? || l.ev.DeltaMutation?))
    ensures !Severs(l, q.reader, q.owner) && !Loses(c, l, q)
  {
  }

  lemma AllDueStep<S, V(!new)>(c: State<S, V>, sent: set<Pair>, l: Label<S, V>, ref: Config<V>, fmt: Format<V>)
    requires Agree(c, fmt) && Plain(c, ref) && Enabled(c, l, fmt) && AllDue(c, sent)
    ensures AllDue(Next(c, l, fmt), NowSent(c, sent, l, fmt))
  {
    forall q | q in NowSent(c, sent, l, fmt) ensures Due(Next(c, l, fmt), q.reader, q.owner) {
      if q in sent && !(l.Local? && l.id == q.owner && (l.ev.Mutation? || l.ev.DeltaMutation?)) {
        KeptPairIsUnharmed(c, sent, l, fmt, q);
        OldPairsStayDue(c, l, ref, fmt, q.reader, q.owner);
      } else {
        NewPairIsDue(c, sent, l, fmt, q);
      }
    }
  }

  lemma DueStep<S, V(!new)>(c: State<S, V>, sent: set<Pair>, l: Label<S, V>, ref: Config<V>, fmt: Format<V>)
    requires Agree(c, fmt) && Plain(c, ref) && RoundTrips(ref) && AllDue(c, sent) && Enabled(c, l, fmt)
             && OneRelease(l, ref)
    ensures Plain(Next(c, l, fmt), ref) && AllDue(Next(c, l, fmt), NowSent(c, sent, l, fmt))
  {
    StaysPlain(c, l, ref, fmt);
    AllDueStep(c, sent, l, ref, fmt);
  }

  // ── The theorem ────────────────────────────────────────────────

  /** Step i of the run turns what is owed in state i into what is owed in state i + 1. */
  ghost predicate Owes<S, V(!new)>(
      states: seq<State<S, V>>, labels: seq<Label<S, V>>, sent: seq<set<Pair>>, fmt: Format<V>, i: int)
    requires |states| == |labels| + 1 == |sent| && 0 <= i < |labels|
  {
    Leads(states, labels, fmt, i) && sent[i + 1] == NowSent(states[i], sent[i], labels[i], fmt)
  }

  ghost predicate OwesInRelease<S, V(!new)>(
      states: seq<State<S, V>>, labels: seq<Label<S, V>>, sent: seq<set<Pair>>, ref: Config<V>, fmt: Format<V>, i: int)
    requires |states| == |labels| + 1 == |sent| && 0 <= i < |labels|
  {
    OneRelease(labels[i], ref) && Owes(states, labels, sent, fmt, i)
  }

  /** A run of one release, with the pairs that are owed at each state. */
  ghost predicate IsOwedRun<S, V(!new)>(
      states: seq<State<S, V>>, labels: seq<Label<S, V>>, sent: seq<set<Pair>>, ref: Config<V>, fmt: Format<V>) {
    && IsRun(states, labels, fmt)
    && |sent| == |states| && sent[0] == {}
    && forall i :: 0 <= i < |labels| ==> OwesInRelease(states, labels, sent, ref, fmt, i)
  }

  lemma DueNext<S, V(!new)>(
      states: seq<State<S, V>>, labels: seq<Label<S, V>>, sent: seq<set<Pair>>, ref: Config<V>, fmt: Format<V>, i: nat)
    requires IsOwedRun(states, labels, sent, ref, fmt) && RoundTrips(ref) && i < |labels|
    requires Plain(states[i], ref) && AllDue(states[i], sent[i])
    ensures Plain(states[i + 1], ref) && AllDue(states[i + 1], sent[i + 1])
  {
    AgreementAlways(states, labels, fmt, i);
    assert OwesInRelease(states, labels, sent, ref, fmt, i);
    DueStep(states[i], sent[i], labels[i], ref, fmt);
  }

  lemma {:induction false} DueAlways<S, V(!new)>(
      states: seq<State<S, V>>, labels: seq<Label<S, V>>, sent: seq<set<Pair>>, ref: Config<V>, fmt: Format<V>, i: nat)
    requires IsOwedRun(states, labels, sent, ref, fmt) && RoundTrips(ref) && i < |states|
    ensures Plain(states[i], ref) && AllDue(states[i], sent[i])
  {
    if i > 0 {
      DueAlways(states, labels, sent, ref, fmt, i - 1);
      DueNext(states, labels, sent, ref, fmt, i - 1);
    }
  }

  /** Nothing is in flight and nothing is scheduled. */
  ghost predicate Quiescent<S, V>(c: State<S, V>) {
    c.net == multiset{} && forall id :: id in c.nodes ==> c.nodes[id].scheduled == multiset{}
  }

  /** Convergence: in every quiescent state of a run, a reader that was sent its owner's
      current generation, with nothing lost since, shows that generation and the owner's
      current view. Faults before that, of any kind and number, do not matter. */
  lemma Converges<S, V(!new)>(
      states: seq<State<S, V>>, labels: seq<Label<S, V>>, sent: seq<set<Pair>>, ref: Config<V>, fmt: Format<V>,
      i: nat, q: Pair)
    requires IsOwedRun(states, labels, sent, ref, fmt) && RoundTrips(ref) && i < |states|
    requires Quiescent(states[i]) && q in sent[i]
    ensures
      var c := states[i];
      && Holds(c, q.reader, q.owner) && Holds(c, q.owner, q.owner)
      && var owner := c.nodes[q.owner].engine;
         && Entry(c, q.reader, q.owner).generation == owner.state.generation
         && Entry(c, q.reader, q.owner).value == Entry(c, q.owner, q.owner).value
  {
    var c, n, p := states[i], q.reader, q.owner;
    assert Due(c, n, p) by {
      DueAlways(states, labels, sent, ref, fmt, i);
    }
    assert CaughtUp(c, n, p);
    AgreementAlways(states, labels, fmt, i);
    assert GoodNode(n, c.nodes[n], c.published, fmt) && GoodNode(p, c.nodes[p], c.published, fmt);
    assert Authentic(p, Entry(c, n, p), c.published);
  }
}
