/** The mock cluster's data, what it means as a cluster state, and one lemma for each thing
    the mock cluster does, which finds the labels that do the same in the cluster model. */
module Tracking {
  import opened Types
  import opened ShardSpec
  import opened EngineSpec
  import opened Cluster
  import opened Convergence
  import opened History
  import T = Transports

  /** A delayed broadcast that its host carries out at a tick. */
  datatype Timer = Timer(message: SyncMessage, deliverAt: nat)

  datatype MockNode<!S, !V> = MockNode(
    engine: Engine<S, V>,
    scheduled: seq<Timer>,
    feedCounter: nat,
    feedInterval: nat)

  type Nodes<!S, !V> = map<NodeId, MockNode<S, V>>

  function Messages(timers: seq<Timer>): multiset<SyncMessage> {
    if timers == [] then multiset{}
    else Messages(timers[..|timers| - 1]) + multiset{timers[|timers| - 1].message}
  }

  ghost function ShadowNode<S, V>(n: MockNode<S, V>): Node<S, V> {
    Node(n.engine, Messages(n.scheduled))
  }

  ghost function Shadow<S, V>(nodes: Nodes<S, V>): map<NodeId, Node<S, V>> {
    map id | id in nodes :: ShadowNode(nodes[id])
  }

  ghost function Packets(queue: seq<T.InFlight>, decode: Bytes -> Option<WireMessage>): multiset<Packet> {
    multiset(T.Readable(queue, decode))
  }

  /** The record's state has these nodes and these packets on the network. */
  ghost predicate Tracks<S(!new), V(!new)>(
      r: Record<S, V>, nodes: Nodes<S, V>, net: multiset<Packet>, fmt: Format<V>) {
    IsRecord(r, fmt) && r.state.nodes == Shadow(nodes) && r.state.net == net
  }

  // ── Timers ─────────────────────────────────────────────────────

  function DueTimers(timers: seq<Timer>, tick: nat): seq<Timer> {
    if timers == [] then []
    else
      var last := timers[|timers| - 1];
      DueTimers(timers[..|timers| - 1], tick) + if last.deliverAt <= tick then [last] else []
  }

  function LaterTimers(timers: seq<Timer>, tick: nat): seq<Timer> {
    if timers == [] then []
    else
      var last := timers[|timers| - 1];
      LaterTimers(timers[..|timers| - 1], tick) + if last.deliverAt <= tick then [] else [last]
  }

  lemma {:induction false} MessagesAppend(a: seq<Timer>, b: seq<Timer>)
    ensures Messages(a + b) == Messages(a) + Messages(b)
  {
    if b == [] {
      assert a + b == a;
    } else {
      assert (a + b)[..|a + b| - 1] == a + b[..|b| - 1];
      MessagesAppend(a, b[..|b| - 1]);
    }
  }

  lemma {:induction false} TimersSplit(timers: seq<Timer>, tick: nat)
    ensures Messages(LaterTimers(timers, tick)) + Messages(DueTimers(timers, tick)) == Messages(timers)
  {
    if timers != [] {
      var init, last := timers[..|timers| - 1], timers[|timers| - 1];
      TimersSplit(init, tick);
      var later, due := LaterTimers(init, tick), DueTimers(init, tick);
      OneMessage(if last.deliverAt <= tick then due else later, last);
      var l, d, one := Messages(later), Messages(due), multiset{last.message};
      assert Messages(timers) == (l + d) + one;
      if last.deliverAt <= tick {
        assert LaterTimers(timers, tick) == later && DueTimers(timers, tick) == due + [last];
        assert l + (d + one) == (l + d) + one;
      } else {
        assert LaterTimers(timers, tick) == later + [last] && DueTimers(timers, tick) == due;
        assert (l + one) + d == (l + d) + one;
      }
    }
  }

  lemma {:induction false} TimersSorted(timers: seq<Timer>, tick: nat)
    ensures forall x :: x in DueTimers(timers, tick) <==> x in timers && x.deliverAt <= tick
    ensures forall x :: x in LaterTimers(timers, tick) <==> x in timers && x.deliverAt > tick
  {
    if timers != [] {
      TimersSorted(timers[..|timers| - 1], tick);
    }
  }

  lemma OneMessage(timers: seq<Timer>, last: Timer)
    ensures Messages(timers + [last]) == Messages(timers) + multiset{last.message}
  {
    assert (timers + [last])[..|timers|] == timers;
  }

  /** Firing one timer leaves the others. */
  lemma FiredOne(later: seq<Timer>, due: seq<Timer>)
    requires due != []
    ensures Messages(later + due) == Messages(later + due[1..]) + multiset{due[0].message}
  {
    assert later + due == (later + [due[0]]) + due[1..];
    MessagesAppend(later + [due[0]], due[1..]);
    MessagesAppend(later, [due[0]]);
    MessagesAppend(later, due[1..]);
    assert Messages([due[0]][..0]) == multiset{};
  }

  // ── Labels for what the mock cluster does ──────────────────────

  lemma ShadowUpdate<S, V>(nodes: Nodes<S, V>, id: NodeId, n: MockNode<S, V>)
    ensures Shadow(nodes[id := n]) == Shadow(nodes)[id := ShadowNode(n)]
  {
  }

  /** An inbound message is answered with at most one message to one node. */
  lemma RepliesAreTargeted<S, V>(e: Engine<S, V>, msg: WireMessage, t: Time)
    requires HasOwn(e)
    ensures
      var out := HandleInbound(e, msg, t);
      && (out.action.Some? ==> out.action.value.SendSync?)
      && out.engine.state == e.state && out.engine.feed == e.feed
  {
  }

  lemma TrackDelivery<S(!new), V(!new)>(
      r: Record<S, V>, nodes: Nodes<S, V>, net: multiset<Packet>, fmt: Format<V>, ref: Config<V>, p: Packet, t: Time)
      returns (r': Record<S, V>)
    requires Tracks(r, nodes, net, fmt) && p in net && p.to in nodes
    ensures HasOwn(nodes[p.to].engine) && Background(r, r', ref, true)
    ensures
      var out := HandleInbound(nodes[p.to].engine, p.msg, t);
      Tracks(r', nodes[p.to := nodes[p.to].(engine := out.engine)],
             net - multiset{p} + Sent(p.to, out.action, nodes.Keys), fmt)
  {
    ReachedHasOwn(r, fmt, p.to);
    var n := nodes[p.to];
    var out := HandleInbound(n.engine, p.msg, t);
    RepliesAreTargeted(n.engine, p.msg, t);
    r' := OneMore(r, Deliver(p, t), fmt);
    OneMoreInBackground(r, r', Deliver(p, t), ref, true);
    assert Postponed(out.action) == multiset{};
    assert Messages(n.scheduled) + multiset{} == Messages(n.scheduled);
    assert r'.state.nodes == Shadow(nodes)[p.to := Node(out.engine, Messages(n.scheduled))];
    ShadowUpdate(nodes, p.to, n.(engine := out.engine));
  }

  lemma TrackUndeliverable<S(!new), V(!new)>(
      r: Record<S, V>, nodes: Nodes<S, V>, net: multiset<Packet>, fmt: Format<V>, ref: Config<V>, p: Packet, t: Time)
      returns (r': Record<S, V>)
    requires Tracks(r, nodes, net, fmt) && p in net && p.to !in nodes
    ensures Tracks(r', nodes, net - multiset{p}, fmt) && Background(r, r', ref, true)
  {
    r' := OneMore(r, Deliver(p, t), fmt);
    OneMoreInBackground(r, r', Deliver(p, t), ref, true);
  }

  lemma TrackFire<S(!new), V(!new)>(
      r: Record<S, V>, nodes: Nodes<S, V>, net: multiset<Packet>, fmt: Format<V>, ref: Config<V>,
      id: NodeId, m: SyncMessage, rest: seq<Timer>) returns (r': Record<S, V>)
    requires Tracks(r, nodes, net, fmt) && id in nodes
    requires Messages(nodes[id].scheduled) == Messages(rest) + multiset{m}
    ensures Tracks(r', nodes[id := nodes[id].(scheduled := rest)], net + Cluster.Broadcast(id, Sync(m), nodes.Keys),
            fmt)
    ensures Background(r, r', ref, true)
  {
    r' := OneMore(r, Fire(id, m), fmt);
    OneMoreInBackground(r, r', Fire(id, m), ref, true);
    ShadowUpdate(nodes, id, nodes[id].(scheduled := rest));
    assert Messages(nodes[id].scheduled) - multiset{m} == Messages(rest);
  }

  lemma TrackFlush<S(!new), V(!new)>(
      r: Record<S, V>, nodes: Nodes<S, V>, net: multiset<Packet>, fmt: Format<V>, ref: Config<V>,
      id: NodeId, notes: seq<Notification>, counter: nat) returns (r': Record<S, V>)
    requires Tracks(r, nodes, net, fmt) && id in nodes && notes != [] && Lists(notes, nodes[id].engine.feed)
    ensures
      Tracks(r', nodes[id := nodes[id].(engine := FeedFlushed(nodes[id].engine), feedCounter := counter)],
             net + Cluster.Broadcast(id, Feed(Batch(id, notes)), nodes.Keys), fmt)
    ensures Background(r, r', ref, true)
  {
    r' := OneMore(r, FlushFeed(id, notes), fmt);
    OneMoreInBackground(r, r', FlushFeed(id, notes), ref, true);
    ShadowUpdate(nodes, id, nodes[id].(engine := FeedFlushed(nodes[id].engine), feedCounter := counter));
  }

  /** Timers may be reordered and counters moved: that is nothing to the cluster. */
  lemma TrackNothing<S(!new), V(!new)>(
      r: Record<S, V>, nodes: Nodes<S, V>, net: multiset<Packet>, fmt: Format<V>,
      id: NodeId, timers: seq<Timer>, counter: nat)
    requires Tracks(r, nodes, net, fmt) && id in nodes && Messages(timers) == Messages(nodes[id].scheduled)
    ensures Tracks(r, nodes[id := nodes[id].(scheduled := timers, feedCounter := counter)], net, fmt)
  {
    ShadowUpdate(nodes, id, nodes[id].(scheduled := timers, feedCounter := counter));
  }

  /** Something an engine does on its own account; a delayed send becomes a timer. */
  lemma TrackLocal<S(!new), V(!new)>(
      r: Record<S, V>, nodes: Nodes<S, V>, net: multiset<Packet>, fmt: Format<V>,
      id: NodeId, ev: Event<S, V>, t: Time, timers: seq<Timer>) returns (r': Record<S, V>)
    requires Tracks(r, nodes, net, fmt) && id in nodes && !ev.Inbound? && !ev.Flush?
    requires HasOwn(nodes[id].engine) && DeltaLaw(nodes[id].engine, ev, fmt)
    requires Messages(timers) == Messages(nodes[id].scheduled) + Postponed(Step(nodes[id].engine, ev, t).action)
    ensures
      var out := Step(nodes[id].engine, ev, t);
      Tracks(r', nodes[id := nodes[id].(engine := out.engine, scheduled := timers)],
             net + Sent(id, out.action, nodes.Keys), fmt)
    ensures Enabled(r.state, Local(id, ev, t), fmt) && r'.owed == NowSent(r.state, r.owed, Local(id, ev, t), fmt)
    ensures r'.labels == r.labels + [Local(id, ev, t)]
  {
    var out := Step(nodes[id].engine, ev, t);
    r' := OneMore(r, Local(id, ev, t), fmt);
    ShadowUpdate(nodes, id, nodes[id].(engine := out.engine, scheduled := timers));
  }

  lemma TrackStart<S(!new), V(!new)>(
      r: Record<S, V>, nodes: Nodes<S, V>, net: multiset<Packet>, fmt: Format<V>, n: MockNode<S, V>)
      returns (r': Record<S, V>)
    requires Tracks(r, nodes, net, fmt) && NewLife(r.state, n.engine, fmt) && n.scheduled == []
    ensures Tracks(r', nodes[n.engine.cfg.id := n], net, fmt)
    ensures r'.owed == r.owed && r'.labels == r.labels + [Start(n.engine)]
  {
    r' := OneMore(r, Start(n.engine), fmt);
    ShadowUpdate(nodes, n.engine.cfg.id, n);
  }

  lemma TrackCrash<S(!new), V(!new)>(
      r: Record<S, V>, nodes: Nodes<S, V>, net: multiset<Packet>, fmt: Format<V>, ref: Config<V>, id: NodeId)
      returns (r': Record<S, V>)
    requires Tracks(r, nodes, net, fmt) && id in nodes
    ensures Tracks(r', nodes - {id}, net, fmt) && Background(r, r', ref, false)
    ensures r'.owed == set q | q in r.owed && q.reader != id && q.owner != id
  {
    r' := OneMore(r, Crash(id), fmt);
    OneMoreInBackground(r, r', Crash(id), ref, false);
    assert Shadow(nodes - {id}) == Shadow(nodes) - {id};
  }

  lemma TrackLoss<S(!new), V(!new)>(
      r: Record<S, V>, nodes: Nodes<S, V>, net: multiset<Packet>, fmt: Format<V>, ref: Config<V>,
      net': multiset<Packet>)
      returns (r': Record<S, V>)
    requires Tracks(r, nodes, net, fmt) && forall p :: p in net' ==> p in net
    ensures Tracks(r', nodes, net', fmt) && Background(r, r', ref, net <= net')
  {
    r' := OneMore(r, Perturb(net'), fmt);
    if net <= net' {
      assert forall q :: !Harms(r.state, net', q);
    }
    OneMoreInBackground(r, r', Perturb(net'), ref, net <= net');
  }

  lemma NothingLost(queue: multiset<Packet>, packets: multiset<Packet>, added: multiset<Packet>, rest: multiset<Packet>)
    ensures packets <= added ==> queue + (packets + rest) <= queue + added + rest
    ensures (forall p :: p in added ==> p in packets) ==> forall p :: p in queue + added + rest ==>
            p in queue + (packets + rest)
    ensures packets == added ==> queue + (packets + rest) == queue + added + rest
  {
  }

  /** Packets go through the interceptors into the queue. */
  lemma TrackSend<S(!new), V(!new)>(
      r: Record<S, V>, nodes: Nodes<S, V>, fmt: Format<V>, ref: Config<V>,
      queue: seq<T.InFlight>, added: seq<T.InFlight>, packets: multiset<Packet>, rest: multiset<Packet>,
      decode: Bytes -> Option<WireMessage>, kept: bool, direct: bool, tick: nat) returns (r': Record<S, V>)
    requires Tracks(r, nodes, Packets(queue, decode) + (packets + rest), fmt)
    requires T.SentAs(added, packets, decode, kept, direct, tick)
    ensures Tracks(r', nodes, Packets(queue + added, decode) + rest, fmt)
    ensures Background(r, r', ref, kept || direct)
  {
    PacketsAppend(queue, added, decode);
    NothingLost(Packets(queue, decode), packets, Packets(added, decode), rest);
    if direct {
      r' := r;
    } else {
      r' := TrackLoss(r, nodes, r.state.net, fmt, ref, Packets(queue + added, decode) + rest);
    }
  }

  lemma PacketsAppend(a: seq<T.InFlight>, b: seq<T.InFlight>, decode: Bytes -> Option<WireMessage>)
    ensures Packets(a + b, decode) == Packets(a, decode) + Packets(b, decode)
  {
    T.ReadableAppend(a, b, decode);
  }

  lemma PacketsSplitOneMore(init: seq<T.InFlight>, last: T.InFlight, tick: nat, decode: Bytes -> Option<WireMessage>)
    requires Packets(init, decode) == Packets(T.Waiting(init, tick), decode) + Packets(T.Due(init, tick), decode)
    ensures Packets(init + [last], decode)
         == Packets(T.Waiting(init + [last], tick), decode) + Packets(T.Due(init + [last], tick), decode)
  {
    var waiting, due := T.Waiting(init, tick), T.Due(init, tick);
    T.OneMoreInQueue(init, last, tick, decode);
    PacketsAppend(init, [last], decode);
    SumsSplit(Packets(waiting, decode), Packets(due, decode), Packets([last], decode));
    PacketsAppend(if last.deliverAt <= tick then due else waiting, [last], decode);
  }

  /** Handing out what is due loses no readable packet. */
  lemma {:induction false} PacketsSplit(queue: seq<T.InFlight>, tick: nat, decode: Bytes -> Option<WireMessage>)
    ensures Packets(queue, decode) == Packets(T.Waiting(queue, tick), decode) + Packets(T.Due(queue, tick), decode)
  {
    if queue != [] {
      var init, last := queue[..|queue| - 1], queue[|queue| - 1];
      assert queue == init + [last];
      PacketsSplit(init, tick, decode);
      PacketsSplitOneMore(init, last, tick, decode);
    }
  }

  lemma SumsSplit(w: multiset<Packet>, d: multiset<Packet>, one: multiset<Packet>)
    ensures (w + d) + one == w + (d + one) == (w + one) + d
  {
  }

  lemma {:induction false} PurgeOnlyLoses(queue: seq<T.InFlight>, id: NodeId, decode: Bytes -> Option<WireMessage>)
    ensures Packets(T.Without(queue, id), decode) <= Packets(queue, decode)
  {
    if queue != [] {
      var init, last := queue[..|queue| - 1], queue[|queue| - 1];
      assert queue == init + [last];
      var kept := T.Without(init, id);
      PurgeOnlyLoses(init, id, decode);
      PacketsAppend(init, [last], decode);
      if last.from != id && last.to != id {
        assert T.Without(queue, id) == kept + [last];
        PacketsAppend(kept, [last], decode);
      } else {
        assert T.Without(queue, id) == kept;
      }
    }
  }
}
