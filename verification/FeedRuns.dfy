/** The change feed across the cluster: no notice is ever untrue, and a mutation that is left
    to the feed makes every reader that its batch reaches report the owner as stale, so that
    a query pulls the new state. */
module FeedRuns {
  import opened Types
  import opened ShardSpec
  import opened EngineSpec
  import opened Cluster
  import opened Agreement
  import opened Convergence
  import opened EngineRuns
  import opened RestartSafety
  import opened MutationLaws

  // ── Notices are true ───────────────────────────────────────────

  ghost predicate TrueFeed<S, V>(id: NodeId, e: Engine<S, V>, published: map<Stamp, V>) {
    forall k :: k in e.feed ==> k == (e.cfg.name, id) && Stamp(id, e.feed[k]) in published
  }

  ghost predicate TrueNotes<V>(notes: seq<Notification>, published: map<Stamp, V>) {
    forall i :: 0 <= i < |notes| ==> Stamp(notes[i].source, notes[i].generation) in published
  }

  /** A marker is the sentinel of a placeholder, or a generation its owner has published. */
  ghost predicate TrueMarkers<V>(views: Views<V>, published: map<Stamp, V>) {
    forall p :: p in views && views[p].pending.Some? ==>
      views[p].pending.value == Generation(1, 0) || Stamp(p, views[p].pending.value) in published
  }

  ghost predicate TrueNode<S, V>(id: NodeId, e: Engine<S, V>, published: map<Stamp, V>) {
    TrueFeed(id, e, published) && TrueMarkers(e.views, published)
  }

  ghost predicate TrueNet<V>(net: multiset<Packet>, published: map<Stamp, V>) {
    forall k :: k in net && k.msg.Feed? ==> TrueNotes(k.msg.batch.notifications, published)
  }

  ghost predicate TrueCluster<S, V>(c: State<S, V>) {
    && (forall id :: id in c.nodes ==> TrueNode(id, c.nodes[id].engine, c.published))
    && TrueNet(c.net, c.published)
  }

  lemma {:induction false} MarkAllTrue<V>(
      name: string, departed: set<NodeId>, views: Views<V>, notes: seq<Notification>, published: map<Stamp, V>)
    requires TrueMarkers(views, published) && TrueNotes(notes, published)
    ensures TrueMarkers(MarkAll(name, departed, views, notes), published)
    decreases |notes|
  {
    if notes != [] {
      assert Stamp(notes[0].source, notes[0].generation) in published;
      MarkAllTrue(name, departed, MarkOne(name, departed, views, notes[0]), notes[1..], published);
    }
  }

  lemma InboundTrue<S, V>(id: NodeId, e: Engine<S, V>, msg: WireMessage, t: Time, published: map<Stamp, V>)
    requires HasOwn(e) && TrueNode(id, e, published)
    requires msg.Feed? ==> TrueNotes(msg.batch.notifications, published)
    ensures TrueNode(id, HandleInbound(e, msg, t).engine, published)
    ensures HandleInbound(e, msg, t).action.Some? ==> HandleInbound(e, msg, t).action.value.SendSync?
  {
    if msg.Feed? {
      MarkAllTrue(e.cfg.name, e.departed, e.views, msg.batch.notifications, published);
    }
  }

  /** What an engine does on its own account keeps its feed and markers true, once what it
      shows itself has been published. */
  lemma LocalTrue<S, V>(e: Engine<S, V>, ev: Event<S, V>, t: Time, published: map<Stamp, V>)
    requires HasOwn(e) && TrueNode(e.cfg.id, e, published) && !ev.Inbound?
    requires IsMutation(ev) ==> Stamp(e.cfg.id, Step(e, ev, t).engine.state.generation) in published
    ensures TrueNode(e.cfg.id, Step(e, ev, t).engine, published)
  {
    if IsMutation(ev) {
      MutationMovesOn(e, ev, t);
      if LeftToFeed(e.cfg.strategy, ev.urgency) {
        FeedRow(e, ev, t);
      }
    }
  }

  lemma TrueForLonger<S, V>(id: NodeId, e: Engine<S, V>, published: map<Stamp, V>, more: map<Stamp, V>)
    requires TrueNode(id, e, published) && published.Keys <= more.Keys
    ensures TrueNode(id, e, more)
  {
    assert forall s :: s in published ==> s in more;
  }

  lemma NetTrueForLonger<V>(net: multiset<Packet>, published: map<Stamp, V>, more: map<Stamp, V>)
    requires TrueNet(net, published) && published.Keys <= more.Keys
    ensures TrueNet(net, more)
  {
    forall k | k in net && k.msg.Feed? ensures TrueNotes(k.msg.batch.notifications, more) {
      assert TrueNotes(k.msg.batch.notifications, published);
      assert forall s :: s in published ==> s in more;
    }
  }

  /** A node acts: its new engine is true, and what it sends are no notices. */
  lemma ActTrue<S, V>(c: State<S, V>, id: NodeId, out: Outcome<S, V>, published: map<Stamp, V>)
    requires TrueCluster(c) && id in c.nodes && c.published.Keys <= published.Keys
    requires TrueNode(id, out.engine, published)
    ensures TrueCluster(Act(c, id, out).(published := published))
  {
    var c' := Act(c, id, out).(published := published);
    forall n | n in c'.nodes ensures TrueNode(n, c'.nodes[n].engine, published) {
      if n != id {
        TrueForLonger(n, c.nodes[n].engine, c.published, published);
      }
    }
    NetTrueForLonger(c.net, c.published, published);
    assert forall k :: k in Sent(id, out.action, c.nodes.Keys) ==> k.msg.Sync?;
  }

  lemma LocalStepTrue<S, V(!new)>(c: State<S, V>, l: Label<S, V>, fmt: Format<V>)
    requires Agree(c, fmt) && TrueCluster(c) && Enabled(c, l, fmt) && l.Local?
    ensures TrueCluster(Next(c, l, fmt))
  {
    var e, c' := c.nodes[l.id].engine, Next(c, l, fmt);
    var out := Step(e, l.ev, l.t);
    assert GoodNode(l.id, c.nodes[l.id], c.published, fmt);
    TrueForLonger(l.id, e, c.published, c'.published);
    LocalTrue(e, l.ev, l.t, c'.published);
    ActTrue(c, l.id, out, c'.published);
  }

  lemma FlushTrue<S, V(!new)>(c: State<S, V>, l: Label<S, V>, fmt: Format<V>)
    requires TrueCluster(c) && Enabled(c, l, fmt) && l.FlushFeed?
    ensures TrueCluster(Next(c, l, fmt))
  {
    var e, c' := c.nodes[l.id].engine, Next(c, l, fmt);
    assert TrueNotes(l.notes, c.published);
    assert c'.nodes == c.nodes[l.id := c.nodes[l.id].(engine := FeedFlushed(e))];
    assert forall k :: k in c'.net ==> k in c.net || k.msg == Feed(Batch(l.id, l.notes));
  }

  lemma StartTrue<S, V(!new)>(c: State<S, V>, l: Label<S, V>, fmt: Format<V>)
    requires TrueCluster(c) && Enabled(c, l, fmt) && l.Start?
    ensures TrueCluster(Next(c, l, fmt))
  {
    var c' := Next(c, l, fmt);
    NetTrueForLonger(c.net, c.published, c'.published);
    forall n | n in c'.nodes ensures TrueNode(n, c'.nodes[n].engine, c'.published) {
      if n != l.engine.cfg.id {
        TrueForLonger(n, c.nodes[n].engine, c.published, c'.published);
      }
    }
  }

  lemma DeliveryTrue<S, V(!new)>(c: State<S, V>, l: Label<S, V>, fmt: Format<V>)
    requires TrueCluster(c) && Enabled(c, l, fmt) && l.Deliver?
    ensures TrueCluster(Next(c, l, fmt))
  {
    var k, c1 := l.packet, c.(net := c.net - multiset{l.packet});
    assert TrueCluster(c1);
    if k.to in c.nodes {
      InboundTrue(k.to, c.nodes[k.to].engine, k.msg, l.t, c.published);
      ActTrue(c1, k.to, HandleInbound(c.nodes[k.to].engine, k.msg, l.t), c.published);
    }
  }

  /** A firing timer and a query put no notices on the network. */
  lemma SendingTrue<S, V(!new)>(c: State<S, V>, l: Label<S, V>, fmt: Format<V>)
    requires TrueCluster(c) && Enabled(c, l, fmt) && (l.Fire? || l.Query?)
    ensures TrueCluster(Next(c, l, fmt))
  {
    var c' := Next(c, l, fmt);
    assert forall k :: k in c'.net ==> k in c.net || k.msg.Sync?;
    assert forall n :: n in c'.nodes ==> n in c.nodes && c'.nodes[n].engine == c.nodes[n].engine;
  }

  lemma TrueStep<S, V(!new)>(c: State<S, V>, l: Label<S, V>, fmt: Format<V>)
    requires Agree(c, fmt) && TrueCluster(c) && Enabled(c, l, fmt)
    ensures TrueCluster(Next(c, l, fmt))
  {
    match l {
      case Local(_, _, _) => LocalStepTrue(c, l, fmt);
      case FlushFeed(_, _) => FlushTrue(c, l, fmt);
      case Deliver(_, _) => DeliveryTrue(c, l, fmt);
      case Start(_) => StartTrue(c, l, fmt);
      case Fire(_, _) => SendingTrue(c, l, fmt);
      case Query(_, _, _) => SendingTrue(c, l, fmt);
      case Crash(_) => assert Next(c, l, fmt).net == c.net;
      case Perturb(_) => assert Next(c, l, fmt).nodes == c.nodes;
    }
  }

  /** In every state of every run: a feed holds the node's own state under a generation that
      the node has published, every notice on the network and every marker names a
      generation that its owner has published, and placeholders apart there are no others. */
  lemma {:induction false} NoticesAreTrue<S, V(!new)>(
      states: seq<State<S, V>>, labels: seq<Label<S, V>>, fmt: Format<V>, i: nat)
    requires IsRun(states, labels, fmt) && i < |states|
    ensures TrueCluster(states[i])
  {
    if i > 0 {
      NoticesAreTrue(states, labels, fmt, i - 1);
      AgreementAlways(states, labels, fmt, i - 1);
      assert Leads(states, labels, fmt, i - 1);
      TrueStep(states[i - 1], labels[i - 1], fmt);
    }
  }

  // ── From a mutation to the readers ─────────────────────────────

  /** The owner's feed announces at least this generation. */
  ghost predicate Announced<S, V>(c: State<S, V>, p: NodeId, g: Generation) {
    && p in c.nodes
    && var e := c.nodes[p].engine;
       (e.cfg.name, e.cfg.id) in e.feed && g.Le(e.feed[(e.cfg.name, e.cfg.id)])
  }

  lemma StepKeepsAnnounced<S, V>(e: Engine<S, V>, ev: Event<S, V>, t: Time)
    requires HasOwn(e) && (e.cfg.name, e.cfg.id) in e.feed && !ev.Flush?
    ensures
      var e', key := Step(e, ev, t).engine, (e.cfg.name, e.cfg.id);
      key in e'.feed && e.feed[key].Le(e'.feed[key])
  {
  }

  lemma OtherNodesUntouched<S, V(!new)>(c: State<S, V>, l: Label<S, V>, fmt: Format<V>, p: NodeId)
    requires Enabled(c, l, fmt) && p in c.nodes && (l.Local? || l.FlushFeed? || l.Deliver?)
    requires (if l.Deliver? then l.packet.to else l.id) != p
    ensures p in Next(c, l, fmt).nodes && Next(c, l, fmt).nodes[p] == c.nodes[p]
  {
  }

  lemma EnginesUntouched<S, V(!new)>(c: State<S, V>, l: Label<S, V>, fmt: Format<V>, p: NodeId)
    requires Enabled(c, l, fmt) && p in c.nodes && (l.Start? || l.Query? || l.Fire? || l.Perturb? || l.Crash?)
    requires l != Crash(p)
    ensures p in Next(c, l, fmt).nodes && Next(c, l, fmt).nodes[p].engine == c.nodes[p].engine
  {
  }

  /** Only its own events, deliveries to it and its flushes touch a node's engine. */
  lemma EngineUntouched<S, V(!new)>(c: State<S, V>, l: Label<S, V>, fmt: Format<V>, p: NodeId)
    requires Enabled(c, l, fmt) && p in c.nodes && l != Crash(p) && !(l.FlushFeed? && l.id == p)
    requires !(l.Local? && l.id == p) && !(l.Deliver? && l.packet.to == p)
    ensures p in Next(c, l, fmt).nodes && Next(c, l, fmt).nodes[p].engine == c.nodes[p].engine
  {
    if l.Local? || l.FlushFeed? || l.Deliver? {
      OtherNodesUntouched(c, l, fmt, p);
    } else {
      EnginesUntouched(c, l, fmt, p);
    }
  }

  lemma AnnouncedStays<S, V(!new)>(c: State<S, V>, l: Label<S, V>, fmt: Format<V>, p: NodeId, g: Generation)
    requires Enabled(c, l, fmt) && Announced(c, p, g) && l != Crash(p) && !(l.FlushFeed? && l.id == p)
    ensures Announced(Next(c, l, fmt), p, g)
  {
    var e := c.nodes[p].engine;
    if l.Local? && l.id == p {
      StepKeepsAnnounced(e, l.ev, l.t);
      assert Next(c, l, fmt).nodes[p].engine == Step(e, l.ev, l.t).engine;
    } else if l.Deliver? && l.packet.to == p {
      StepKeepsAnnounced(e, Inbound(l.packet.msg), l.t);
      assert Next(c, l, fmt).nodes[p].engine == HandleInbound(e, l.packet.msg, l.t).engine;
    } else {
      EngineUntouched(c, l, fmt, p);
    }
  }

  /** No crash of p and no flush of its feed from label i to label j. */
  ghost predicate Unflushed<S, V>(labels: seq<Label<S, V>>, i: nat, j: nat, p: NodeId) {
    forall m :: i <= m < j && m < |labels| ==> labels[m] != Crash(p) && !(labels[m].FlushFeed? && labels[m].id == p)
  }

  lemma {:induction false} AnnouncedUntilFlushed<S, V(!new)>(
      states: seq<State<S, V>>, labels: seq<Label<S, V>>, fmt: Format<V>, i: nat, j: nat, p: NodeId, g: Generation)
    requires IsRun(states, labels, fmt) && i <= j < |states| && Announced(states[i], p, g) && Unflushed(labels, i, j, p)
    ensures Announced(states[j], p, g)
  {
    if i < j {
      AnnouncedUntilFlushed(states, labels, fmt, i, j - 1, p, g);
      assert Leads(states, labels, fmt, j - 1);
      AnnouncedStays(states[j - 1], labels[j - 1], fmt, p, g);
    }
  }

  /** A notice that is newer than the entry leaves it marked, whatever else the batch says. */
  lemma {:induction false} NoticeMarks<V>(
      name: string, departed: set<NodeId>, views: Views<V>, notes: seq<Notification>, n: Notification)
    requires n.stateName == name && n.source !in departed && n.source in views
    requires views[n.source].pending.Some? || (n in notes && views[n.source].generation.Lt(n.generation))
    ensures n.source in MarkAll(name, departed, views, notes)
    ensures MarkAll(name, departed, views, notes)[n.source].pending.Some?
    decreases |notes|
  {
    if notes != [] {
      NoticeMarks(name, departed, MarkOne(name, departed, views, notes[0]), notes[1..], n);
    }
  }

  /** A mutation that its node leaves to the feed. */
  ghost predicate LeavesToFeed<S, V>(c: State<S, V>, l: Label<S, V>) {
    && l.Local? && IsMutation(l.ev)
    && l.id in c.nodes && LeftToFeed(c.nodes[l.id].engine.cfg.strategy, l.ev.urgency)
  }

  /** The generation that the mutation makes. */
  ghost function Made<S, V>(c: State<S, V>, l: Label<S, V>): Generation
    requires LeavesToFeed(c, l)
  {
    var g := c.nodes[l.id].engine.state.generation;
    Generation(g.incarnation, g.age + 1)
  }

  lemma EngineAnnounces<S, V>(e: Engine<S, V>, ev: Event<S, V>, t: Time)
    requires HasOwn(e) && IsMutation(ev) && LeftToFeed(e.cfg.strategy, ev.urgency)
    ensures
      var e', key := Step(e, ev, t).engine, (e.cfg.name, e.cfg.id);
      && e'.state.generation == Generation(e.state.generation.incarnation, e.state.generation.age + 1)
      && key in e'.feed && e'.state.generation.Le(e'.feed[key]) && e'.cfg == e.cfg
  {
    MutationMovesOn(e, ev, t);
    FeedRow(e, ev, t);
  }

  /** Such a mutation announces what it makes, and publishes it. */
  lemma MutationAnnounces<S, V(!new)>(c: State<S, V>, l: Label<S, V>, fmt: Format<V>)
    requires Agree(c, fmt) && Enabled(c, l, fmt) && LeavesToFeed(c, l)
    ensures Announced(Next(c, l, fmt), l.id, Made(c, l))
    ensures Stamp(l.id, Made(c, l)) in Next(c, l, fmt).published
  {
    assert c.nodes[l.id].engine.cfg.id == l.id by {
      assert GoodNode(l.id, c.nodes[l.id], c.published, fmt);
    }
    EngineAnnounces(c.nodes[l.id].engine, l.ev, l.t);
    var out := Step(c.nodes[l.id].engine, l.ev, l.t);
    assert Next(c, l, fmt).nodes[l.id].engine == out.engine;
    assert Next(c, l, fmt).published == Publish(c.published, out.engine);
  }

  lemma MutationAnnouncesInRun<S, V(!new)>(states: seq<State<S, V>>, labels: seq<Label<S, V>>, fmt: Format<V>, i: nat)
    requires IsRun(states, labels, fmt) && i < |labels| && LeavesToFeed(states[i], labels[i])
    ensures Announced(states[i + 1], labels[i].id, Made(states[i], labels[i]))
    ensures Stamp(labels[i].id, Made(states[i], labels[i])) in states[i + 1].published
  {
    AgreementAlways(states, labels, fmt, i);
    assert Leads(states, labels, fmt, i);
    MutationAnnounces(states[i], labels[i], fmt);
  }

  /** A flush lists what is announced, and sends the list to everybody else. */
  lemma FlushLists<S, V(!new)>(c: State<S, V>, l: Label<S, V>, fmt: Format<V>, g: Generation)
      returns (note: Notification)
    requires Agree(c, fmt) && Enabled(c, l, fmt) && l.FlushFeed? && Announced(c, l.id, g)
    ensures note in l.notes && note.source == l.id && note.stateName == c.nodes[l.id].engine.cfg.name
    ensures g.Le(note.generation)
    ensures forall n :: n in c.nodes && n != l.id ==>
              Packet(l.id, n, Feed(Batch(l.id, l.notes))) in Next(c, l, fmt).net
  {
    assert GoodNode(l.id, c.nodes[l.id], c.published, fmt);
    var e := c.nodes[l.id].engine;
    note := Notification(e.cfg.name, l.id, e.feed[(e.cfg.name, l.id)]);
    assert note in l.notes;
  }

  /** A batch that lists a newer generation of an owner reaches a reader that accepts it. */
  lemma BatchMarks<S, V(!new)>(
      c: State<S, V>, l: Label<S, V>, fmt: Format<V>, note: Notification, now: nat, maxStaleness: nat)
    requires Agree(c, fmt) && Enabled(c, l, fmt) && l.Deliver? && l.packet.msg.Feed?
    requires l.packet.to in c.nodes && l.packet.msg.batch.source != l.packet.to
    requires note in l.packet.msg.batch.notifications && note.source != l.packet.to
    requires note.stateName == c.nodes[l.packet.to].engine.cfg.name && Holds(c, l.packet.to, note.source)
             && note.source !in c.nodes[l.packet.to].engine.departed
             && Entry(c, l.packet.to, note.source).generation.Lt(note.generation)
    ensures Reports(Next(c, l, fmt), l.packet.to, note.source, now, maxStaleness)
  {
    var n, e, notes := l.packet.to, c.nodes[l.packet.to].engine, l.packet.msg.batch.notifications;
    assert GoodNode(n, c.nodes[n], c.published, fmt);
    NoticeMarks(e.cfg.name, e.departed, e.views, notes, note);
    var e' := Next(c, l, fmt).nodes[n].engine;
    assert e' == e.(views := MarkAll(e.cfg.name, e.departed, e.views, notes));
    assert e'.views[note.source].pending.Some?;
  }

  /** A query at n lists p as stale, and pulls it if n pulls at all. */
  ghost predicate Reports<S, V>(c: State<S, V>, n: NodeId, p: NodeId, now: nat, maxStaleness: nat) {
    && Holds(c, n, p) && c.nodes[n].engine.views[p].pending.Some?
    && p in StalePeers(c.nodes[n].engine.views, n, now, maxStaleness)
    && (c.nodes[n].engine.cfg.strategy.pullOnQuery ==> p in PullTargets(c.nodes[n].engine, maxStaleness, now))
  }

  /** Label i is a mutation that is left to the feed, label j the next flush of that feed, and
      label k the delivery of its batch to the reader, which accepts the owner and shows
      something older. */
  ghost predicate Told<S, V>(
      states: seq<State<S, V>>, labels: seq<Label<S, V>>, i: nat, j: nat, k: nat, n: NodeId, t: Time)
    requires |states| == |labels| + 1
  {
    && i < j < k < |labels| && LeavesToFeed(states[i], labels[i])
    && var p := labels[i].id;
       && labels[j].FlushFeed? && labels[j].id == p && Unflushed(labels, i + 1, j, p)
       && labels[k] == Deliver(Packet(p, n, Feed(Batch(p, labels[j].notes))), t)
       && Holds(states[k], n, p) && n != p && p !in states[k].nodes[n].engine.departed
       && Entry(states[k], n, p).generation.Lt(Made(states[i], labels[i]))
       && p in states[j].nodes && states[k].nodes[n].engine.cfg.name == states[j].nodes[p].engine.cfg.name
  }

  lemma FlushListsInRun<S, V(!new)>(
      states: seq<State<S, V>>, labels: seq<Label<S, V>>, fmt: Format<V>, j: nat, g: Generation)
      returns (note: Notification)
    requires IsRun(states, labels, fmt) && j < |labels| && labels[j].FlushFeed? && Announced(states[j], labels[j].id, g)
    ensures note in labels[j].notes && note.source == labels[j].id && g.Le(note.generation)
    ensures note.stateName == states[j].nodes[labels[j].id].engine.cfg.name
    ensures forall n :: n in states[j].nodes && n != labels[j].id ==>
              Packet(labels[j].id, n, Feed(Batch(labels[j].id, labels[j].notes))) in states[j + 1].net
  {
    AgreementAlways(states, labels, fmt, j);
    assert Leads(states, labels, fmt, j);
    note := FlushLists(states[j], labels[j], fmt, g);
  }

  /** The batch that a reader is told of lists what the mutation has made, or something newer. */
  lemma BatchLists<S, V(!new)>(
      states: seq<State<S, V>>, labels: seq<Label<S, V>>, fmt: Format<V>, i: nat, j: nat, k: nat, n: NodeId, t: Time)
      returns (note: Notification)
    requires IsRun(states, labels, fmt) && Told(states, labels, i, j, k, n, t)
    ensures note in labels[j].notes && note.source == labels[i].id && Made(states[i], labels[i]).Le(note.generation)
    ensures note.stateName == states[k].nodes[n].engine.cfg.name
  {
    MutationAnnouncesInRun(states, labels, fmt, i);
    AnnouncedUntilFlushed(states, labels, fmt, i + 1, j, labels[i].id, Made(states[i], labels[i]));
    note := FlushListsInRun(states, labels, fmt, j, Made(states[i], labels[i]));
  }

  /** From end to end: once a reader has been told of a mutation that was left to the feed, it
      reports the owner as stale to every query, however recent its entry is. */
  lemma FeedReachesReader<S, V(!new)>(
      states: seq<State<S, V>>, labels: seq<Label<S, V>>, fmt: Format<V>, i: nat, j: nat, k: nat, n: NodeId, t: Time,
      now: nat, maxStaleness: nat)
    requires IsRun(states, labels, fmt) && Told(states, labels, i, j, k, n, t)
    ensures Reports(states[k + 1], n, labels[i].id, now, maxStaleness)
  {
    var note := BatchLists(states, labels, fmt, i, j, k, n, t);
    AgreementAlways(states, labels, fmt, k);
    assert Leads(states, labels, fmt, k);
    BatchMarks(states[k], labels[k], fmt, note, now, maxStaleness);
  }

  // ── From the readers back to the owner ─────────────────────────

  lemma {:induction false} PublishedForLonger<S, V(!new)>(
      states: seq<State<S, V>>, labels: seq<Label<S, V>>, fmt: Format<V>, i: nat, j: nat, s: Stamp)
    requires IsRun(states, labels, fmt) && i <= j < |states| && s in states[i].published
    ensures s in states[j].published
  {
    if i < j {
      PublishedForLonger(states, labels, fmt, i, j - 1, s);
      assert Leads(states, labels, fmt, j - 1);
    }
  }

  lemma NewestInRun<S, V(!new)>(
      states: seq<State<S, V>>, labels: seq<Label<S, V>>, fmt: Format<V>, z: nat, p: NodeId, g: Generation)
    requires IsRun(states, labels, fmt) && z < |states| && p in states[z].nodes && Stamp(p, g) in states[z].published
    ensures g.Le(states[z].nodes[p].engine.state.generation)
  {
    AgreementAlways(states, labels, fmt, z);
    assert GoodNode(p, states[z].nodes[p], states[z].published, fmt);
  }

  /** What a mutation makes is never above what its owner has later. */
  lemma MadeIsNotAbove<S, V(!new)>(
      states: seq<State<S, V>>, labels: seq<Label<S, V>>, fmt: Format<V>, i: nat, z: nat)
    requires IsRun(states, labels, fmt) && i < z < |states| && LeavesToFeed(states[i], labels[i])
    requires labels[i].id in states[z].nodes
    ensures Made(states[i], labels[i]).Le(states[z].nodes[labels[i].id].engine.state.generation)
  {
    var p := labels[i].id;
    MutationAnnouncesInRun(states, labels, fmt, i);
    PublishedForLonger(states, labels, fmt, i + 1, z, Stamp(p, Made(states[i], labels[i])));
    NewestInRun(states, labels, fmt, z, p, Made(states[i], labels[i]));
  }

  /** A query right after the delivery pulls the owner's state, which is then owed. */
  lemma QueryPulls<S, V(!new)>(
      states: seq<State<S, V>>, labels: seq<Label<S, V>>, sent: seq<set<Pair>>, ref: Config<V>, fmt: Format<V>,
      i: nat, j: nat, k: nat, n: NodeId, t: Time)
    requires IsOwedRun(states, labels, sent, ref, fmt) && Told(states, labels, i, j, k, n, t)
    requires k + 1 < |labels| && labels[k + 1].Query? && labels[k + 1].id == n
    requires Connected(states[k], n, labels[i].id) && states[k].nodes[n].engine.cfg.strategy.pullOnQuery
    ensures Pair(n, labels[i].id) in sent[k + 2]
  {
    var p, q := labels[i].id, labels[k + 1];
    assert OwesInRelease(states, labels, sent, ref, fmt, k) && OwesInRelease(states, labels, sent, ref, fmt, k + 1);
    FeedReachesReader(states, labels, fmt, i, j, k, n, t, q.t.now, q.maxStaleness);
    StaysConnected(states[k], labels[k], fmt, n, p);
    OneEventAtATime(states[k], labels[k], fmt, n);
  }

  /** Lazy pull converges: the reader that has been told runs a query that pulls, and as long
      as nothing that concerns the two is lost after that, every later quiescent state has
      the reader at the owner's current generation and view, and not below what the
      mutation made. */
  lemma LazyPullConverges<S, V(!new)>(
      states: seq<State<S, V>>, labels: seq<Label<S, V>>, sent: seq<set<Pair>>, ref: Config<V>, fmt: Format<V>,
      i: nat, j: nat, k: nat, z: nat, n: NodeId, t: Time)
    requires IsOwedRun(states, labels, sent, ref, fmt) && RoundTrips(ref) && Told(states, labels, i, j, k, n, t)
    requires k + 1 < |labels| && labels[k + 1].Query? && labels[k + 1].id == n
    requires Connected(states[k], n, labels[i].id) && states[k].nodes[n].engine.cfg.strategy.pullOnQuery
    ensures Pair(n, labels[i].id) in sent[k + 2]
    ensures k + 2 <= z < |states| && Quiescent(states[z]) && Pair(n, labels[i].id) in sent[z] ==>
              var c, p := states[z], labels[i].id;
              && Holds(c, n, p) && Holds(c, p, p)
              && Entry(c, n, p).generation == c.nodes[p].engine.state.generation
              && Entry(c, n, p).value == Entry(c, p, p).value
              && Made(states[i], labels[i]).Le(Entry(c, n, p).generation)
  {
    QueryPulls(states, labels, sent, ref, fmt, i, j, k, n, t);
    if k + 2 <= z < |states| && Quiescent(states[z]) && Pair(n, labels[i].id) in sent[z] {
      Converges(states, labels, sent, ref, fmt, z, Pair(n, labels[i].id));
      MadeIsNotAbove(states, labels, fmt, i, z);
    }
  }
}
