/** Agreement: whatever the network and the membership do, a replica shows nothing but
    views that their owners published, each under its own generation. */
module Agreement {
  import opened Types
  import opened ShardSpec
  import opened EngineSpec
  import opened Cluster

  // ── The invariant ──────────────────────────────────────────────

  /** An entry is a join placeholder or what its owner published at that generation. */
  ghost predicate Authentic<V>(p: NodeId, entry: ViewObject<V>, published: map<Stamp, V>) {
    entry.generation == ZERO
    || (Stamp(p, entry.generation) in published && published[Stamp(p, entry.generation)] == entry.value)
  }

  ghost predicate GoodSync<V>(m: SyncMessage, published: map<Stamp, V>, fmt: Format<V>) {
    match m
    case FullSnapshot(_, p, g, w, data) =>
      Stamp(p, g) in published && published[Stamp(p, g)] == fmt.view(data, w)
    case DeltaUpdate(_, p, g, w, data) =>
      && 0 < g.age
      && Stamp(p, g) in published
      && var base := Stamp(p, Generation(g.incarnation, g.age - 1));
         base in published && published[Stamp(p, g)] == fmt.delta(data, w, published[base])
    case RequestSnapshot(_, _) => true
  }

  /** The own entry carries the owned generation, with the view published there. */
  ghost predicate OwnEntryExact<S, V>(e: Engine<S, V>, published: map<Stamp, V>) {
    && HasOwn(e)
    && e.views[e.cfg.id].generation == e.state.generation
    && Stamp(e.cfg.id, e.state.generation) in published
    && published[Stamp(e.cfg.id, e.state.generation)] == e.views[e.cfg.id].value
  }

  ghost predicate Newest<S, V>(e: Engine<S, V>, published: map<Stamp, V>) {
    forall s :: s in published && s.node == e.cfg.id ==> s.generation.Le(e.state.generation)
  }

  ghost predicate GoodEngine<S, V(!new)>(e: Engine<S, V>, published: map<Stamp, V>, fmt: Format<V>) {
    && Speaks(e.cfg, fmt)
    && OwnEntryExact(e, published)
    && Newest(e, published)
    && forall p :: p in e.views ==> Authentic(p, e.views[p], published)
  }

  ghost predicate GoodSyncs<V>(ms: multiset<SyncMessage>, published: map<Stamp, V>, fmt: Format<V>) {
    forall m :: m in ms ==> GoodSync(m, published, fmt)
  }

  ghost predicate GoodNode<S, V(!new)>(id: NodeId, n: Node<S, V>, published: map<Stamp, V>, fmt: Format<V>) {
    && n.engine.cfg.id == id
    && GoodEngine(n.engine, published, fmt)
    && GoodSyncs(n.scheduled, published, fmt)
  }

  ghost predicate GoodNet<V>(net: multiset<Packet>, published: map<Stamp, V>, fmt: Format<V>) {
    forall p :: p in net && p.msg.Sync? ==> GoodSync(p.msg.message, published, fmt)
  }

  ghost predicate Real<V>(published: map<Stamp, V>) {
    forall s :: s in published ==> 0 < s.generation.incarnation
  }

  ghost predicate Agree<S, V(!new)>(c: State<S, V>, fmt: Format<V>) {
    && Real(c.published)
    && (forall id :: id in c.nodes ==> GoodNode(id, c.nodes[id], c.published, fmt))
    && GoodNet(c.net, c.published, fmt)
  }

  // ── One engine at a time ───────────────────────────────────────

  ghost predicate GoodAction<V>(a: Option<Action>, published: map<Stamp, V>, fmt: Format<V>) {
    a.Some? ==> GoodSync(a.value.message, published, fmt)
  }

  /** An engine whose state is unchanged stays good if its entries stay authentic and its
      own entry keeps its generation and view. */
  lemma EntriesKeepGood<S, V(!new)>(e: Engine<S, V>, e': Engine<S, V>, published: map<Stamp, V>, fmt: Format<V>)
    requires GoodEngine(e, published, fmt) && e'.cfg == e.cfg && e'.state == e.state && HasOwn(e')
    requires e'.views[e.cfg.id].generation == e.views[e.cfg.id].generation
    requires e'.views[e.cfg.id].value == e.views[e.cfg.id].value
    requires forall p :: p in e'.views ==>
             (p in e.views && e'.views[p] == e.views[p]) || Authentic(p, e'.views[p], published)
    ensures GoodEngine(e', published, fmt)
  {
  }

  lemma SnapshotKeepsGood<S, V(!new)>(
      e: Engine<S, V>, m: SyncMessage, t: Time, published: map<Stamp, V>, fmt: Format<V>)
    requires GoodEngine(e, published, fmt) && m.FullSnapshot? && GoodSync(m, published, fmt)
    ensures GoodEngine(HandleSnapshot(e, m, t), published, fmt)
  {
    EntriesKeepGood(e, HandleSnapshot(e, m, t), published, fmt);
  }

  lemma DeltaKeepsGood<S, V(!new)>(e: Engine<S, V>, m: SyncMessage, t: Time, published: map<Stamp, V>, fmt: Format<V>)
    requires GoodEngine(e, published, fmt) && Real(published) && m.DeltaUpdate? && GoodSync(m, published, fmt)
    ensures GoodEngine(HandleDelta(e, m, t).engine, published, fmt)
  {
    if m.source in e.views {
      assert Authentic(m.source, e.views[m.source], published);
    }
    EntriesKeepGood(e, HandleDelta(e, m, t).engine, published, fmt);
  }

  lemma FeedKeepsGood<S, V(!new)>(e: Engine<S, V>, batch: Batch, published: map<Stamp, V>, fmt: Format<V>)
    requires GoodEngine(e, published, fmt)
    ensures GoodEngine(HandleFeed(e, batch), published, fmt)
  {
    MarkAllKeepsEntries(e.cfg.name, e.departed, e.views, batch.notifications);
    EntriesKeepGood(e, HandleFeed(e, batch), published, fmt);
  }

  lemma InboundKeepsGood<S, V(!new)>(
      e: Engine<S, V>, msg: WireMessage, t: Time, published: map<Stamp, V>, fmt: Format<V>)
    requires GoodEngine(e, published, fmt) && Real(published)
    requires msg.Sync? ==> GoodSync(msg.message, published, fmt)
    ensures
      var out := HandleInbound(e, msg, t);
      && GoodEngine(out.engine, published, fmt) && GoodAction(out.action, published, fmt)
      && out.engine.cfg == e.cfg && out.engine.state == e.state
  {
    match msg
    case Feed(batch) => FeedKeepsGood(e, batch, published, fmt);
    case Sync(m) =>
      if m.FullSnapshot? {
        SnapshotKeepsGood(e, m, t, published, fmt);
      } else if m.DeltaUpdate? {
        DeltaKeepsGood(e, m, t, published, fmt);
      }
  }

  lemma AdvancePublishes<S, V(!new)>(
      e: Engine<S, V>, value: S, view: V, t: Time, published: map<Stamp, V>, fmt: Format<V>)
    requires GoodEngine(e, published, fmt) && Real(published)
    ensures
      var next := Advance(e, value, view, t);
      && Stamp(e.cfg.id, next.state.generation) !in published
      && 0 < next.state.generation.incarnation
      && GoodEngine(next, Publish(published, next), fmt)
  {
  }

  /** What a mutation sends is the new view, or a delta from the view before it. */
  lemma MutationSendsGood<S, V(!new)>(
      e: Engine<S, V>, ev: Event<S, V>, t: Time, published: map<Stamp, V>, fmt: Format<V>)
    requires Speaks(e.cfg, fmt) && OwnEntryExact(e, published)
    requires (ev.Mutation? || ev.DeltaMutation?) && DeltaLaw(e, ev, fmt)
    ensures
      var out := Step(e, ev, t);
      GoodAction(out.action, Publish(published, out.engine), fmt)
  {
    var g := e.state.generation.Next();
    assert Generation(g.incarnation, g.age - 1) == e.state.generation;
  }

  lemma MutationPublishes<S, V(!new)>(
      e: Engine<S, V>, ev: Event<S, V>, t: Time, published: map<Stamp, V>, fmt: Format<V>)
    requires GoodEngine(e, published, fmt) && Real(published)
    requires (ev.Mutation? || ev.DeltaMutation?) && DeltaLaw(e, ev, fmt)
    ensures
      var out := Step(e, ev, t);
      var published' := Publish(published, out.engine);
      && Stamp(e.cfg.id, out.engine.state.generation) !in published
      && 0 < out.engine.state.generation.incarnation
      && GoodEngine(out.engine, published', fmt) && GoodAction(out.action, published', fmt)
  {
    var out := Step(e, ev, t);
    MutationSendsGood(e, ev, t, published, fmt);
    AdvancePublishes(e, ev.value, ev.view, t, published, fmt);
    EntriesKeepGood(Advance(e, ev.value, ev.view, t), out.engine, Publish(published, out.engine), fmt);
  }

  lemma OtherStepsKeepGood<S, V(!new)>(
      e: Engine<S, V>, ev: Event<S, V>, t: Time, published: map<Stamp, V>, fmt: Format<V>)
    requires GoodEngine(e, published, fmt)
    requires ev.Joined? || ev.Left? || ev.Periodic?
    ensures
      var out := Step(e, ev, t);
      GoodEngine(out.engine, published, fmt) && GoodAction(out.action, published, fmt)
  {
  }

  // ── The whole cluster ──────────────────────────────────────────

  lemma ActionsStayGood<V>(id: NodeId, a: Option<Action>, ids: set<NodeId>, published: map<Stamp, V>, fmt: Format<V>)
    requires GoodAction(a, published, fmt)
    ensures GoodNet(Sent(id, a, ids), published, fmt) && GoodSyncs(Postponed(a), published, fmt)
  {
  }

  /** Publishing a generation that was new leaves every other judgement as it was. */
  lemma PublishingKeepsGood<S, V(!new)>(
      id: NodeId, n: Node<S, V>, published: map<Stamp, V>, s: Stamp, v: V, fmt: Format<V>)
    requires GoodNode(id, n, published, fmt) && s !in published && s.node != id
    ensures GoodNode(id, n, published[s := v], fmt)
  {
  }

  lemma PublishingKeepsMessages<V>(
      net: multiset<Packet>, ms: multiset<SyncMessage>, published: map<Stamp, V>, s: Stamp, v: V, fmt: Format<V>)
    requires GoodNet(net, published, fmt) && GoodSyncs(ms, published, fmt) && s !in published
    ensures GoodNet(net, published[s := v], fmt) && GoodSyncs(ms, published[s := v], fmt)
  {
  }

  /** One node changes and more packets are sent; everything published stays. */
  lemma UpdateKeepsAgree<S, V(!new)>(c: State<S, V>, id: NodeId, n: Node<S, V>, net: multiset<Packet>, fmt: Format<V>)
    requires Agree(c, fmt) && GoodNode(id, n, c.published, fmt) && GoodNet(net, c.published, fmt)
    ensures Agree(c.(nodes := c.nodes[id := n], net := net), fmt)
  {
  }

  /** One node publishes a generation that was new, and more packets are sent. */
  lemma PublishKeepsAgree<S, V(!new)>(c: State<S, V>, n: Node<S, V>, net: multiset<Packet>, fmt: Format<V>)
    requires Agree(c, fmt) && HasOwn(n.engine)
    requires
      var e := n.engine;
      var published := Publish(c.published, e);
      && Stamp(e.cfg.id, e.state.generation) !in c.published && 0 < e.state.generation.incarnation
      && GoodNode(e.cfg.id, n, published, fmt)
      && GoodNet(net, published, fmt)
    ensures Agree(c.(nodes := c.nodes[n.engine.cfg.id := n], net := net, published := Publish(c.published, n.engine)),
            fmt)
  {
    var e := n.engine;
    var published := Publish(c.published, e);
    forall id | id in c.nodes && id != e.cfg.id ensures GoodNode(id, c.nodes[id], published, fmt) {
      PublishingKeepsGood(id, c.nodes[id], c.published, Stamp(e.cfg.id, e.state.generation), e.views[e.cfg.id].value,
          fmt);
    }
  }

  lemma StartKeepsAgree<S, V(!new)>(c: State<S, V>, l: Label<S, V>, fmt: Format<V>)
    requires Agree(c, fmt) && Enabled(c, l, fmt) && l.Start?
    ensures Agree(Next(c, l, fmt), fmt)
  {
    var e := l.engine;
    PublishingKeepsMessages(c.net, multiset{}, c.published, Stamp(e.cfg.id, e.state.generation),
        e.views[e.cfg.id].value, fmt);
    PublishKeepsAgree(c, Node(e, multiset{}), c.net, fmt);
  }

  lemma LocalKeepsAgree<S, V(!new)>(c: State<S, V>, l: Label<S, V>, fmt: Format<V>)
    requires Agree(c, fmt) && Enabled(c, l, fmt) && l.Local?
    ensures Agree(Next(c, l, fmt), fmt)
  {
    var n := c.nodes[l.id];
    assert GoodNode(l.id, n, c.published, fmt);
    var out := Step(n.engine, l.ev, l.t);
    var n' := Node(out.engine, n.scheduled + Postponed(out.action));
    var net := c.net + Sent(l.id, out.action, c.nodes.Keys);
    if l.ev.Mutation? || l.ev.DeltaMutation? {
      MutationPublishes(n.engine, l.ev, l.t, c.published, fmt);
      var published := Publish(c.published, out.engine);
      ActionsStayGood(l.id, out.action, c.nodes.Keys, published, fmt);
      PublishingKeepsMessages(c.net, n.scheduled, c.published, Stamp(l.id, out.engine.state.generation),
          out.engine.views[l.id].value, fmt);
      PublishKeepsAgree(c, n', net, fmt);
    } else {
      OtherStepsKeepGood(n.engine, l.ev, l.t, c.published, fmt);
      ActionsStayGood(l.id, out.action, c.nodes.Keys, c.published, fmt);
      UpdateKeepsAgree(c, l.id, n', net, fmt);
    }
  }

  lemma FlushKeepsAgree<S, V(!new)>(c: State<S, V>, l: Label<S, V>, fmt: Format<V>)
    requires Agree(c, fmt) && Enabled(c, l, fmt) && l.FlushFeed?
    ensures Agree(Next(c, l, fmt), fmt)
  {
    var n := c.nodes[l.id];
    assert GoodNode(l.id, n.(engine := FeedFlushed(n.engine)), c.published, fmt) by {
      assert GoodNode(l.id, n, c.published, fmt);
    }
    var more := if l.notes == [] then multiset{} else Broadcast(l.id, Feed(Batch(l.id, l.notes)), c.nodes.Keys);
    UpdateKeepsAgree(c, l.id, n.(engine := FeedFlushed(n.engine)), c.net + more, fmt);
  }

  lemma FireKeepsAgree<S, V(!new)>(c: State<S, V>, l: Label<S, V>, fmt: Format<V>)
    requires Agree(c, fmt) && Enabled(c, l, fmt) && l.Fire?
    ensures Agree(Next(c, l, fmt), fmt)
  {
    var n := c.nodes[l.id];
    var n' := n.(scheduled := n.scheduled - multiset{l.msg});
    assert GoodNode(l.id, n', c.published, fmt) && GoodSync(l.msg, c.published, fmt) by {
      assert GoodNode(l.id, n, c.published, fmt);
    }
    UpdateKeepsAgree(c, l.id, n', c.net + Broadcast(l.id, Sync(l.msg), c.nodes.Keys), fmt);
  }

  lemma DeliverKeepsAgree<S, V(!new)>(c: State<S, V>, l: Label<S, V>, fmt: Format<V>)
    requires Agree(c, fmt) && Enabled(c, l, fmt) && l.Deliver?
    ensures Agree(Next(c, l, fmt), fmt)
  {
    var p := l.packet;
    if p.to in c.nodes {
      var n := c.nodes[p.to];
      assert GoodNode(p.to, n, c.published, fmt);
      var out := HandleInbound(n.engine, p.msg, l.t);
      InboundKeepsGood(n.engine, p.msg, l.t, c.published, fmt);
      ActionsStayGood(p.to, out.action, c.nodes.Keys, c.published, fmt);
      UpdateKeepsAgree(c, p.to, Node(out.engine, n.scheduled + Postponed(out.action)),
                       c.net - multiset{p} + Sent(p.to, out.action, c.nodes.Keys), fmt);
    }
  }

  lemma NetworkKeepsAgree<S, V(!new)>(c: State<S, V>, l: Label<S, V>, fmt: Format<V>)
    requires Agree(c, fmt) && Enabled(c, l, fmt) && (l.Query? || l.Crash? || l.Perturb?)
    ensures Agree(Next(c, l, fmt), fmt)
  {
    var c' := Next(c, l, fmt);
    assert GoodNet(c'.net, c'.published, fmt);
  }

  lemma AgreeStep<S, V(!new)>(c: State<S, V>, l: Label<S, V>, fmt: Format<V>)
    requires Agree(c, fmt) && Enabled(c, l, fmt)
    ensures Agree(Next(c, l, fmt), fmt)
  {
    match l {
      case Start(_) => StartKeepsAgree(c, l, fmt);
      case Local(_, _, _) => LocalKeepsAgree(c, l, fmt);
      case FlushFeed(_, _) => FlushKeepsAgree(c, l, fmt);
      case Fire(_, _) => FireKeepsAgree(c, l, fmt);
      case Deliver(_, _) => DeliverKeepsAgree(c, l, fmt);
      case Query(_, _, _) => NetworkKeepsAgree(c, l, fmt);
      case Crash(_) => NetworkKeepsAgree(c, l, fmt);
      case Perturb(_) => NetworkKeepsAgree(c, l, fmt);
    }
  }

  /** Agreement in every reachable state: each entry is the join placeholder or exactly the
      view its owner published at that generation, each own entry carries the owned
      generation and view, and every message still to arrive pairs a generation with the
      view (or the delta to the view) of that generation. */
  lemma {:induction false} AgreementAlways<S, V(!new)>(
      states: seq<State<S, V>>, labels: seq<Label<S, V>>, fmt: Format<V>, i: nat)
    requires IsRun(states, labels, fmt) && i < |states|
    ensures Agree(states[i], fmt)
  {
    if i > 0 {
      AgreementAlways(states, labels, fmt, i - 1);
      assert Leads(states, labels, fmt, i - 1);
      AgreeStep(states[i - 1], labels[i - 1], fmt);
    }
  }
}
