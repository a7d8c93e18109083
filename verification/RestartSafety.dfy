/** Restarts: for as long as an entry exists its generation never decreases, and messages
    from an older life of a peer do not disturb a view of a newer one. */
module RestartSafety {
  import opened Types
  import opened ShardSpec
  import opened EngineSpec
  import opened Cluster
  import opened Agreement

  ghost predicate Holds<S, V>(c: State<S, V>, n: NodeId, p: NodeId) {
    n in c.nodes && p in c.nodes[n].engine.views
  }

  ghost function Entry<S, V>(c: State<S, V>, n: NodeId, p: NodeId): ViewObject<V>
    requires Holds(c, n, p)
  {
    c.nodes[n].engine.views[p]
  }

  /** A later entry: newer, or the same view of the same generation. */
  ghost predicate NoOlder<V>(before: ViewObject<V>, after: ViewObject<V>) {
    before.generation.Lt(after.generation)
    || (before.generation == after.generation && before.value == after.value)
  }

  lemma StepNeverDecreases<S, V>(e: Engine<S, V>, ev: Event<S, V>, t: Time, p: NodeId)
    requires HasOwn(e) && e.views[e.cfg.id].generation == e.state.generation
    requires p in e.views && p in Step(e, ev, t).engine.views
    ensures NoOlder(e.views[p], Step(e, ev, t).engine.views[p])
  {
    if ev.Inbound? && ev.msg.Feed? {
      MarkAllKeepsEntries(e.cfg.name, e.departed, e.views, ev.msg.batch.notifications);
    }
  }

  /** The own entry carries the owned generation. */
  ghost predicate OwnInStep<S, V>(e: Engine<S, V>) {
    HasOwn(e) && e.views[e.cfg.id].generation == e.state.generation
  }

  lemma ClusterNeverDecreases<S, V(!new)>(c: State<S, V>, l: Label<S, V>, fmt: Format<V>, n: NodeId, p: NodeId)
    requires Enabled(c, l, fmt)
    requires Holds(c, n, p) && OwnInStep(c.nodes[n].engine) && Holds(Next(c, l, fmt), n, p)
    ensures NoOlder(Entry(c, n, p), Entry(Next(c, l, fmt), n, p))
  {
    var e := c.nodes[n].engine;
    OneEventAtATime(c, l, fmt, n);
    if l.Local? && l.id == n {
      StepNeverDecreases(e, l.ev, l.t, p);
    } else if l.Deliver? && l.packet.to == n {
      StepNeverDecreases(e, Inbound(l.packet.msg), l.t, p);
    }
  }

  lemma RunStep<S, V(!new)>(
      states: seq<State<S, V>>, labels: seq<Label<S, V>>, fmt: Format<V>, n: NodeId, p: NodeId, i: nat)
    requires IsRun(states, labels, fmt) && i < |labels|
    requires Holds(states[i], n, p) && Holds(states[i + 1], n, p)
    ensures NoOlder(Entry(states[i], n, p), Entry(states[i + 1], n, p))
  {
    var c, l := states[i], labels[i];
    assert Leads(states, labels, fmt, i);
    assert OwnInStep(c.nodes[n].engine) by {
      AgreementAlways(states, labels, fmt, i);
      assert GoodNode(n, c.nodes[n], c.published, fmt);
    }
    ClusterNeverDecreases(c, l, fmt, n, p);
  }

  lemma NoOlderTransitive<V>(a: ViewObject<V>, b: ViewObject<V>, c: ViewObject<V>)
    requires NoOlder(a, b) && NoOlder(b, c)
    ensures NoOlder(a, c)
  {
  }

  lemma {:induction false} NoOlderAlong<V>(entries: seq<ViewObject<V>>)
    requires entries != [] && forall k :: 0 <= k < |entries| - 1 ==> NoOlder(entries[k], entries[k + 1])
    ensures NoOlder(entries[0], entries[|entries| - 1])
  {
    if |entries| > 1 {
      NoOlderAlong(entries[..|entries| - 1]);
      NoOlderTransitive(entries[0], entries[|entries| - 2], entries[|entries| - 1]);
    }
  }

  /** Over any run, while node n keeps an entry for p the entry's generation never goes
      down, and a generation never changes its view: in particular, once n shows a view of
      one life of p it never shows a view of an older life. */
  lemma NeverDecreases<S, V(!new)>(
      states: seq<State<S, V>>, labels: seq<Label<S, V>>, fmt: Format<V>, n: NodeId, p: NodeId, i: nat, j: nat)
    requires IsRun(states, labels, fmt) && i <= j < |states|
    requires forall k :: i <= k <= j ==> Holds(states[k], n, p)
    ensures NoOlder(Entry(states[i], n, p), Entry(states[j], n, p))
  {
    var entries := seq(j - i + 1, k requires 0 <= k < j - i + 1 => Entry(states[i + k], n, p));
    forall k | 0 <= k < |entries| - 1 ensures NoOlder(entries[k], entries[k + 1]) {
      RunStep(states, labels, fmt, n, p, i + k);
    }
    NoOlderAlong(entries);
  }

  /** The receiver cannot read the message's wire version, and its policy is to drop the
      sender's view then. */
  predicate DropsView<S, V>(e: Engine<S, V>, m: SyncMessage)
    requires !m.RequestSnapshot?
  {
    && m.stateName == e.cfg.name && m.source !in e.departed && m.source != e.cfg.id
    && e.cfg.policy.DropAndWait?
    && match m
       case FullSnapshot(_, _, _, w, data) =>
         e.cfg.deserialize(data, w).Err? && e.cfg.deserialize(data, w).error.UnknownVersion?
       case DeltaUpdate(_, _, _, w, _) => w != e.cfg.wireVersion
  }

  /** A message of an older life of p than the one the receiver shows: a snapshot or delta of
      p, or a feed batch whose notices about p are all of older lives. */
  predicate OfOlderLife<S, V>(e: Engine<S, V>, msg: WireMessage, p: NodeId)
    requires p in e.views
  {
    match msg
    case Sync(m) =>
      && !m.RequestSnapshot? && m.source == p
      && m.generation.incarnation < e.views[p].generation.incarnation
    case Feed(batch) =>
      forall i :: 0 <= i < |batch.notifications| && batch.notifications[i].source == p ==>
        batch.notifications[i].generation.incarnation < e.views[p].generation.incarnation
  }

  lemma {:induction false} OlderNoticesIgnored<V>(
      name: string, departed: set<NodeId>, views: Views<V>, notes: seq<Notification>, p: NodeId)
    requires p in views
    requires forall i :: 0 <= i < |notes| && notes[i].source == p ==>
               notes[i].generation.incarnation < views[p].generation.incarnation
    ensures p in MarkAll(name, departed, views, notes) && MarkAll(name, departed, views, notes)[p] == views[p]
    decreases |notes|
  {
    if notes != [] {
      var next := MarkOne(name, departed, views, notes[0]);
      assert p in next && next[p] == views[p];
      OlderNoticesIgnored(name, departed, next, notes[1..], p);
    }
  }

  /** A message from an older life leaves a newer life's entry exactly as it was, unless
      its wire version makes the receiver drop the entry, generation unread. */
  lemma OldLifeIgnored<S, V>(e: Engine<S, V>, msg: WireMessage, t: Time, p: NodeId)
    requires HasOwn(e) && p in e.views && OfOlderLife(e, msg, p)
    ensures
      var views := HandleInbound(e, msg, t).engine.views;
      (p in views && views[p] == e.views[p]) <==> !(msg.Sync? && DropsView(e, msg.message))
  {
    if msg.Feed? {
      OlderNoticesIgnored(e.cfg.name, e.departed, e.views, msg.batch.notifications, p);
    }
  }

  /** The branch above is reachable: a late message of an old life, written in the old
      wire version, removes the view of the new life. */
  lemma OldLifeCanDropNewView()
    ensures
      exists e: Engine<int, int>, m: SyncMessage, t: Time ::
        HasOwn(e) && m.FullSnapshot? && m.source in e.views
        && m.generation.incarnation < e.views[m.source].generation.incarnation
        && m.source !in HandleInbound(e, Sync(m), t).engine.views
  {
    var self, peer := NodeId("a"), NodeId("b");
    var t := Time(0, 1);
    var cfg := Config("s", self, 2, Strategy(None, None, false, 0), DropAndWait,
                      (v: int) => [], (d: Bytes, w: nat) => if w == 2 then Ok(0) else Err(UnknownVersion(w)), None);
    var e0 := NewEngine(cfg, 0, 0, t);
    var newLife := FullSnapshot("s", peer, Generation(5, 0), 2, []);
    var e := HandleSnapshot(e0, newLife, t);
    var late := FullSnapshot("s", peer, Generation(4, 9), 1, []);
    assert peer in e.views && e.views[peer].generation == Generation(5, 0);
    assert peer !in HandleInbound(e, Sync(late), t).engine.views;
  }
}
