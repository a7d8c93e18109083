/** The steps of a mock cluster's tick, on values: what each of them does to the run that has
    led here, and to the deadline by which everything pending is over. */
module Rounds {
  import opened Types
  import opened EngineSpec
  import opened Cluster
  import opened Agreement
  import opened Convergence
  import opened History
  import opened Tracking
  import opened Deadlines
  import T = Transports

  /** What a mock cluster's claims are relative to: the transport's decoder, the format all
      engines speak, and the release that all of them were built from. */
  datatype Setting<!V> = Setting(
    decode: Bytes -> Option<WireMessage>,
    fmt: Format<V>,
    ref: Config<V>)

  /** The run has led to these nodes and to a network that holds the queue and the `unsent`
      packets; and if `timely`, all of it is over by the limit, from tick `tick` on. */
  ghost predicate Stands<S(!new), V(!new)>(
      r: Record<S, V>, nodes: Nodes<S, V>, queue: seq<T.InFlight>, unsent: multiset<Packet>, s: Setting<V>,
      timely: bool, tick: nat, limit: nat)
  {
    forall k: nat {:trigger Inside(Standing, k)} :: Inside(Standing, k) ==>
      && Tracks(r, nodes, Packets(queue, s.decode) + unsent, s.fmt)
      && (timely ==> QueueBy(queue, s.decode, tick, limit) && MessagesBy(unsent, tick, limit))
  }

  // ── Sending ────────────────────────────────────────────────────

  /** Packets go through the interceptors into the queue. */
  lemma SendStands<S(!new), V(!new)>(
      r: Record<S, V>, nodes: Nodes<S, V>, queue: seq<T.InFlight>, added: seq<T.InFlight>,
      packets: multiset<Packet>, unsent: multiset<Packet>, s: Setting<V>,
      kept: bool, direct: bool, timely: bool, tick: nat, limit: nat) returns (r': Record<S, V>)
    requires Stands(r, nodes, queue, packets + unsent, s, timely, tick + 1, limit) && (timely ==> direct)
    requires T.SentAs(added, packets, s.decode, kept, direct, tick)
    ensures Stands(r', nodes, queue + added, unsent, s, timely, tick + 1, limit)
    ensures Background(r, r', s.ref, kept || direct)
  {
    assert Inside(Standing, 0);
    r' := TrackSend(r, nodes, s.fmt, s.ref, queue, added, packets, unsent, s.decode, kept, direct, tick);
    if timely {
      SentBy(queue, added, packets, s.decode, tick, limit);
    }
  }

  // ── Delivering ─────────────────────────────────────────────────

  /** Nodes that differ in their views and diagnostics at most. */
  ghost predicate Alike<S, V>(before: Nodes<S, V>, after: Nodes<S, V>) {
    && after.Keys == before.Keys
    && forall k: nat {:trigger Inside(Likeness, k)} :: Inside(Likeness, k) ==>
         forall id :: id in before ==>
           && after[id].engine.state == before[id].engine.state
           && after[id].engine.feed == before[id].engine.feed
           && after[id] == before[id].(engine := after[id].engine)
  }

  /** Delivered messages are being handled: `left` is still to be handled, and the `mail`
      that answers the others waits to be routed. */
  ghost predicate Handling<S(!new), V(!new)>(
      r: Record<S, V>, nodes: Nodes<S, V>, queue: seq<T.InFlight>, left: seq<Packet>, mail: seq<Packet>, s: Setting<V>,
      timely: bool, tick: nat, limit: nat)
  {
    forall k: nat {:trigger Inside(Mid, k)} :: Inside(Mid, k) ==>
      && Tracks(r, nodes, Packets(queue, s.decode) + multiset(left) + multiset(mail), s.fmt)
      && (timely ==>
            && QueueBy(queue, s.decode, tick + 1, limit)
            && MessagesBy(multiset(left), tick, limit) && MessagesBy(multiset(mail), tick + 1, limit))
  }

  lemma HandlingBegins<S(!new), V(!new)>(
      r: Record<S, V>, nodes: Nodes<S, V>, queue: seq<T.InFlight>, s: Setting<V>, timely: bool, tick: nat, limit: nat)
    requires Stands(r, nodes, queue, multiset{}, s, timely, tick, limit)
    ensures
      Handling(r, nodes, T.Waiting(queue, tick), T.Readable(T.Due(queue, tick), s.decode), [], s, timely, tick, limit)
  {
    assert Inside(Standing, 0) && Inside(Mid, 0);
    PacketsSplit(queue, tick, s.decode);
    var delivered: seq<Packet> := T.Readable(T.Due(queue, tick), s.decode);
    assert Packets(queue, s.decode) + multiset{}
        == Packets(T.Waiting(queue, tick), s.decode) + multiset(delivered) + multiset([]);
    if timely {
      DueBy(queue, s.decode, tick, limit);
    }
  }

  lemma HandlingEnds<S(!new), V(!new)>(
      r: Record<S, V>, nodes: Nodes<S, V>, queue: seq<T.InFlight>, mail: seq<Packet>, s: Setting<V>,
      timely: bool, tick: nat, limit: nat)
    requires Handling(r, nodes, queue, [], mail, s, timely, tick, limit)
    ensures Stands(r, nodes, queue, multiset(mail), s, timely, tick + 1, limit)
  {
    assert Inside(Standing, 0) && Inside(Mid, 0);
    assert Packets(queue, s.decode) + multiset([]) + multiset(mail) == Packets(queue, s.decode) + multiset(mail);
  }

  /** The packet a targeted reply stands for. */
  ghost function Letter(from: NodeId, reply: Option<Action>): seq<Packet> {
    match reply
    case Some(SendSync(target, message)) => [Packet(from, target, Sync(message))]
    case _ => []
  }

  lemma OneAnswered(queue: multiset<Packet>, left: seq<Packet>, mail: seq<Packet>, answer: seq<Packet>)
    requires left != []
    ensures queue + multiset(left) + multiset(mail) - multiset{left[0]} + multiset(answer)
         == queue + multiset(left[1..]) + multiset(mail + answer)
  {
    assert left == [left[0]] + left[1..];
    var head, tail, m, a := multiset{left[0]}, multiset(left[1..]), multiset(mail), multiset(answer);
    assert queue + (head + tail) + m - head + a == queue + tail + (m + a);
  }

  lemma AnsweredInTime(left: seq<Packet>, mail: seq<Packet>, answer: seq<Packet>, tick: nat, limit: nat)
    requires left != [] && MessagesBy(multiset(left), tick, limit) && MessagesBy(multiset(mail), tick + 1, limit)
    requires forall p :: p in answer ==> Rank(p.msg) < Rank(left[0].msg)
    ensures MessagesBy(multiset(left[1..]), tick, limit) && MessagesBy(multiset(mail + answer), tick + 1, limit)
  {
    assert left == [left[0]] + left[1..];
    assert left[0] in multiset(left);
  }

  /** One delivered message has been handled, and answered with these packets. */
  lemma HandledOne<S(!new), V(!new)>(
      r: Record<S, V>, nodes: Nodes<S, V>, r': Record<S, V>, nodes': Nodes<S, V>,
      queue: seq<T.InFlight>, left: seq<Packet>, mail: seq<Packet>, answer: seq<Packet>, s: Setting<V>,
      timely: bool, tick: nat, limit: nat)
    requires left != [] && Handling(r, nodes, queue, left, mail, s, timely, tick, limit)
    requires
      var net := Packets(queue, s.decode) + multiset(left) + multiset(mail);
      Tracks(r', nodes', net - multiset{left[0]} + multiset(answer), s.fmt)
    requires forall p :: p in answer ==> Rank(p.msg) < Rank(left[0].msg)
    ensures Handling(r', nodes', queue, left[1..], mail + answer, s, timely, tick, limit)
  {
    assert Inside(Mid, 0);
    OneAnswered(Packets(queue, s.decode), left, mail, answer);
    if timely {
      AnsweredInTime(left, mail, answer, tick, limit);
    }
  }

  /** Hand one message to its node, if the node is there. */
  method HandleNext<S(!new), V(!new)>(
      before: Nodes<S, V>, left: seq<Packet>, t: Time,
      ghost r: Record<S, V>, ghost queue: seq<T.InFlight>, ghost mail: seq<Packet>, ghost s: Setting<V>,
      ghost timely: bool, ghost tick: nat, ghost limit: nat)
      returns (nodes: Nodes<S, V>, reply: Option<Action>, ghost r': Record<S, V>)
    requires left != [] && Handling(r, before, queue, left, mail, s, timely, tick, limit)
    ensures Alike(before, nodes) && Background(r, r', s.ref, true) && (reply.Some? ==> reply.value.SendSync?)
    ensures Handling(r', nodes, queue, left[1..], mail + Letter(left[0].to, reply), s, timely, tick, limit)
  {
    var p := left[0];
    ghost var net := Packets(queue, s.decode) + multiset(left) + multiset(mail);
    assert Tracks(r, before, net, s.fmt) by {
      assert Inside(Mid, 0);
    }
    if p.to in before {
      r' := TrackDelivery(r, before, net, s.fmt, s.ref, p, t);
      var n := before[p.to];
      var out := HandleInbound(n.engine, p.msg, t);
      RepliesAreTargeted(n.engine, p.msg, t);
      if out.action.Some? {
        AnswersRankLower(n.engine, p.msg, t);
      }
      nodes, reply := before[p.to := n.(engine := out.engine)], out.action;
      assert multiset(Letter(p.to, reply)) == Sent(p.to, reply, before.Keys);
      OneIsAlike(before, p.to, out.engine);
    } else {
      r' := TrackUndeliverable(r, before, net, s.fmt, s.ref, p, t);
      nodes, reply := before, None;
      assert net - multiset{p} + multiset(Letter(p.to, reply)) == net - multiset{p};
    }
    HandledOne(r, before, r', nodes, queue, left, mail, Letter(p.to, reply), s, timely, tick, limit);
  }

  /** Targeted actions and the packets they stand for. */
  ghost predicate Mails(pending: seq<(NodeId, Action)>, mail: seq<Packet>) {
    && |pending| == |mail|
    && forall i :: 0 <= i < |mail| ==>
         pending[i].1.SendSync? && mail[i] == Packet(pending[i].0, pending[i].1.target, Sync(pending[i].1.message))
  }

  lemma OneIsAlike<S, V>(nodes: Nodes<S, V>, id: NodeId, e: Engine<S, V>)
    requires id in nodes && e.state == nodes[id].engine.state && e.feed == nodes[id].engine.feed
    ensures Alike(nodes, nodes[id := nodes[id].(engine := e)])
  {
  }

  lemma AlikeTransitive<S, V>(a: Nodes<S, V>, b: Nodes<S, V>, c: Nodes<S, V>)
    requires Alike(a, b) && Alike(b, c)
    ensures Alike(a, c)
  {
    assert Inside(Likeness, 0);
  }

  lemma OneMoreMail(pending: seq<(NodeId, Action)>, mail: seq<Packet>, from: NodeId, a: Action)
    requires Mails(pending, mail) && a.SendSync?
    ensures Mails(pending + [(from, a)], mail + Letter(from, Some(a)))
  {
  }

  lemma NextMail(pending: seq<(NodeId, Action)>, mail: seq<Packet>)
    requires mail != [] && Mails(pending, mail)
    ensures multiset(mail) == multiset{mail[0]} + multiset(mail[1..]) && Mails(pending[1..], mail[1..])
  {
    assert mail == [mail[0]] + mail[1..];
  }

  /** Hand every delivered message to its node, and collect the replies. */
  method HandleAll<S(!new), V(!new)>(
      before: Nodes<S, V>, delivered: seq<Packet>, t: Time,
      ghost r: Record<S, V>, ghost queue: seq<T.InFlight>, ghost s: Setting<V>,
      ghost timely: bool, ghost tick: nat, ghost limit: nat)
      returns (nodes: Nodes<S, V>, pending: seq<(NodeId, Action)>, ghost mail: seq<Packet>, ghost r': Record<S, V>)
    requires Handling(r, before, queue, delivered, [], s, timely, tick, limit)
    ensures Stands(r', nodes, queue, multiset(mail), s, timely, tick + 1, limit) && Background(r, r', s.ref, true)
    ensures Mails(pending, mail) && Alike(before, nodes)
  {
    nodes, pending, mail, r' := before, [], [], r;
    var left := delivered;
    while left != []
      invariant Handling(r', nodes, queue, left, mail, s, timely, tick, limit) && Background(r, r', s.ref, true)
      invariant Mails(pending, mail) && Alike(before, nodes)
      decreases |left|
    {
      var p := left[0];
      ghost var was := nodes;
      var reply;
      nodes, reply, r' := HandleNext(nodes, left, t, r', queue, mail, s, timely, tick, limit);
      AlikeTransitive(before, was, nodes);
      left := left[1..];
      if reply.Some? {
        OneMoreMail(pending, mail, p.to, reply.value);
        pending := pending + [(p.to, reply.value)];
      }
      mail := mail + Letter(p.to, reply);
    }
    HandlingEnds(r', nodes, queue, mail, s, timely, tick, limit);
  }

  // ── Timers ─────────────────────────────────────────────────────

  method SplitTimers(timers: seq<Timer>, tick: nat) returns (due: seq<Timer>, later: seq<Timer>)
    ensures due == DueTimers(timers, tick) && later == LaterTimers(timers, tick)
  {
    due, later := [], [];
    for i := 0 to |timers|
      invariant due == DueTimers(timers[..i], tick) && later == LaterTimers(timers[..i], tick)
    {
      assert timers[..i + 1][..i] == timers[..i];
      if timers[i].deliverAt <= tick {
        due := due + [timers[i]];
      } else {
        later := later + [timers[i]];
      }
    }
    assert timers[..|timers|] == timers;
  }

  lemma Overwritten<S, V>(nodes: Nodes<S, V>, id: NodeId, a: MockNode<S, V>, b: MockNode<S, V>)
    ensures nodes[id := a][id := b] == nodes[id := b]
  {
  }

  /** A node's timers fall into those that are due and those that are not. */
  lemma FiringBegins<S(!new), V(!new)>(
      r: Record<S, V>, nodes: Nodes<S, V>, queue: seq<T.InFlight>, s: Setting<V>,
      timely: bool, tick: nat, limit: nat, id: NodeId, due: seq<Timer>, later: seq<Timer>)
    requires Stands(r, nodes, queue, multiset{}, s, timely, tick + 1, limit) && id in nodes
    requires due == DueTimers(nodes[id].scheduled, tick) && later == LaterTimers(nodes[id].scheduled, tick)
    requires timely ==> TimersBy(nodes[id].scheduled, tick, limit)
    ensures
      Stands(r, nodes[id := nodes[id].(scheduled := later + due)], queue, multiset{}, s, timely, tick + 1, limit)
    ensures timely ==> AllTimersBy(due, tick + 1, limit)
  {
    assert Inside(Standing, 0);
    MessagesAppend(later, due);
    TimersSplit(nodes[id].scheduled, tick);
    TrackNothing(r, nodes, Packets(queue, s.decode) + multiset{}, s.fmt, id, later + due, nodes[id].feedCounter);
    assert nodes[id].(scheduled := later + due)
        == nodes[id].(scheduled := later + due, feedCounter := nodes[id].feedCounter);
    if timely {
      LaterBy(nodes[id].scheduled, tick, limit);
    }
  }

  lemma NetPlus(net: multiset<Packet>, packets: multiset<Packet>)
    ensures net + multiset{} + packets == net + (packets + multiset{})
  {
  }

  lemma SameKeys<S, V>(nodes: Nodes<S, V>, id: NodeId, n: MockNode<S, V>)
    requires id in nodes
    ensures nodes[id := n].Keys == nodes.Keys
  {
  }

  /** The first due timer fires. */
  lemma FireStands<S(!new), V(!new)>(
      r: Record<S, V>, nodes: Nodes<S, V>, queue: seq<T.InFlight>, s: Setting<V>,
      timely: bool, tick: nat, limit: nat, id: NodeId, due: seq<Timer>, later: seq<Timer>) returns (r': Record<S, V>)
    requires id in nodes && due != []
    requires Stands(r, nodes[id := nodes[id].(scheduled := later + due)], queue, multiset{}, s, timely, tick + 1, limit)
    requires timely ==> AllTimersBy(due, tick + 1, limit)
    ensures
      Stands(r', nodes[id := nodes[id].(scheduled := later + due[1..])], queue,
             Cluster.Broadcast(id, Sync(due[0].message), nodes.Keys) + multiset{}, s, timely, tick + 1, limit)
    ensures Background(r, r', s.ref, true)
  {
    assert Inside(Standing, 0);
    var meant := nodes[id := nodes[id].(scheduled := later + due)];
    var packets := Cluster.Broadcast(id, Sync(due[0].message), nodes.Keys);
    var net := Packets(queue, s.decode);
    FiredOne(later, due);
    SameKeys(nodes, id, meant[id]);
    r' := TrackFire(r, meant, net + multiset{}, s.fmt, s.ref, id, due[0].message, later + due[1..]);
    NetPlus(net, packets);
    Overwritten(nodes, id, meant[id], meant[id].(scheduled := later + due[1..]));
  }

  // ── Feeds ──────────────────────────────────────────────────────

  /** A node's feed is flushed. */
  lemma FlushStands<S(!new), V(!new)>(
      r: Record<S, V>, nodes: Nodes<S, V>, queue: seq<T.InFlight>, s: Setting<V>,
      timely: bool, tick: nat, limit: nat, id: NodeId, notes: seq<Notification>) returns (r': Record<S, V>)
    requires id in nodes && notes != [] && Lists(notes, nodes[id].engine.feed)
    requires Stands(r, nodes, queue, multiset{}, s, timely, tick + 1, limit) && (timely ==> tick + 2 <= limit)
    ensures
      Stands(r', nodes[id := nodes[id].(engine := FeedFlushed(nodes[id].engine), feedCounter := 0)], queue,
             Cluster.Broadcast(id, Feed(Batch(id, notes)), nodes.Keys) + multiset{}, s, timely, tick + 1, limit)
    ensures Background(r, r', s.ref, true)
  {
    assert Inside(Standing, 0);
    var net, packets := Packets(queue, s.decode), Cluster.Broadcast(id, Feed(Batch(id, notes)), nodes.Keys);
    r' := TrackFlush(r, nodes, net + multiset{}, s.fmt, s.ref, id, notes, 0);
    NetPlus(net, packets);
  }

  lemma CountStands<S(!new), V(!new)>(
      r: Record<S, V>, nodes: Nodes<S, V>, queue: seq<T.InFlight>, s: Setting<V>,
      timely: bool, tick: nat, limit: nat, id: NodeId, counter: nat)
    requires id in nodes && Stands(r, nodes, queue, multiset{}, s, timely, tick, limit)
    ensures Stands(r, nodes[id := nodes[id].(feedCounter := counter)], queue, multiset{}, s, timely, tick, limit)
  {
    assert Inside(Standing, 0);
    TrackNothing(r, nodes, Packets(queue, s.decode) + multiset{}, s.fmt, id, nodes[id].scheduled, counter);
  }

  /** A node after its feed has seen one more tick. */
  function FeedTicked<S, V>(n: MockNode<S, V>): MockNode<S, V> {
    if n.engine.feed == map[] then n.(feedCounter := 0)
    else if n.feedCounter + 1 < n.feedInterval then n.(feedCounter := n.feedCounter + 1)
    else n.(engine := FeedFlushed(n.engine), feedCounter := 0)
  }

  // ── Whole ticks ────────────────────────────────────────────────

  ghost predicate NodesBy<S, V>(nodes: Nodes<S, V>, tick: nat, limit: nat) {
    MidTick(nodes, tick, tick, limit)
  }

  /** The due timers of every node outside `left` have fired. */
  ghost predicate Fired<S, V>(before: Nodes<S, V>, after: Nodes<S, V>, left: set<NodeId>, tick: nat) {
    && after.Keys == before.Keys
    && forall k: nat {:trigger Inside(Firing, k)} :: Inside(Firing, k) ==>
         forall id :: id in before ==>
           after[id] == if id in left then before[id]
                        else before[id].(scheduled := LaterTimers(before[id].scheduled, tick))
  }

  /** The feed of every node outside `left` has seen the tick. */
  ghost predicate Fed<S, V>(before: Nodes<S, V>, after: Nodes<S, V>, left: set<NodeId>) {
    && after.Keys == before.Keys
    && forall k: nat {:trigger Inside(Feeding, k)} :: Inside(Feeding, k) ==>
         forall id :: id in before ==> after[id] == if id in left then before[id] else FeedTicked(before[id])
  }

  lemma NoneFired<S, V>(nodes: Nodes<S, V>, tick: nat)
    ensures Alike(nodes, nodes) && Fired(nodes, nodes, nodes.Keys, tick) && Fed(nodes, nodes, nodes.Keys)
  {
  }

  lemma OneMoreFired<S, V>(
      before: Nodes<S, V>, after: Nodes<S, V>, left: set<NodeId>, id: NodeId, timely: bool, tick: nat, limit: nat)
    requires Fired(before, after, left, tick) && id in left && id in before
    requires timely ==> MidTick(before, tick, tick, limit)
    ensures timely ==> TimersBy(after[id].scheduled, tick, limit)
    ensures
      var timers := LaterTimers(after[id].scheduled, tick);
      Fired(before, after[id := after[id].(scheduled := timers)], left - {id}, tick)
  {
    assert Inside(Firing, 0) && Inside(Deadline, 0);
  }

  lemma OneMoreFed<S, V>(
      before: Nodes<S, V>, after: Nodes<S, V>, left: set<NodeId>, id: NodeId, timely: bool, tick: nat, limit: nat)
    requires Fed(before, after, left) && id in left && id in before
    requires timely ==> MidTick(before, tick + 1, tick, limit)
    ensures timely && after[id].engine.feed != map[] ==> tick + 2 <= limit
    ensures Fed(before, after[id := FeedTicked(after[id])], left - {id})
  {
    assert Inside(Feeding, 0) && Inside(Deadline, 0);
    assert timely ==> FeedBy(before[id], tick, limit);
  }

  /** Half way through a tick, timers are still by the tick's start, or by its end. */
  ghost predicate MidTick<S, V>(nodes: Nodes<S, V>, timersTick: nat, feedsTick: nat, limit: nat) {
    forall k: nat {:trigger Inside(Deadline, k)} :: Inside(Deadline, k) ==>
      forall id :: id in nodes ==>
          TimersBy(nodes[id].scheduled, timersTick, limit) && FeedBy(nodes[id], feedsTick, limit)
  }

  lemma DeliveryIsTimely<S, V>(before: Nodes<S, V>, after: Nodes<S, V>, timely: bool, tick: nat, limit: nat)
    requires Alike(before, after) && (timely ==> NodesBy(before, tick, limit))
    ensures timely ==> MidTick(after, tick, tick, limit)
  {
    assert Inside(Likeness, 0) && Inside(Deadline, 0);
    if timely {
      forall id | id in after ensures TimersBy(after[id].scheduled, tick, limit) && FeedBy(after[id], tick, limit) {
        assert FeedBy(before[id], tick, limit);
      }
    }
  }

  lemma FiringIsTimely<S, V>(before: Nodes<S, V>, after: Nodes<S, V>, timely: bool, tick: nat, limit: nat)
    requires Fired(before, after, {}, tick) && (timely ==> MidTick(before, tick, tick, limit))
    ensures timely ==> MidTick(after, tick + 1, tick, limit)
  {
    assert Inside(Firing, 0) && Inside(Deadline, 0);
    if timely {
      forall id | id in after ensures TimersBy(after[id].scheduled, tick + 1, limit) && FeedBy(after[id], tick, limit) {
        LaterBy(before[id].scheduled, tick, limit);
        assert FeedBy(before[id], tick, limit);
      }
    }
  }

  lemma FeedIsTimely<S, V>(before: Nodes<S, V>, after: Nodes<S, V>, timely: bool, tick: nat, limit: nat)
    requires Fed(before, after, {}) && (timely ==> MidTick(before, tick + 1, tick, limit))
    ensures timely ==> NodesBy(after, tick + 1, limit)
  {
    assert Inside(Feeding, 0) && Inside(Deadline, 0);
    if timely {
      forall id | id in after
          ensures TimersBy(after[id].scheduled, tick + 1, limit) && FeedBy(after[id], tick + 1, limit) {
        assert FeedBy(before[id], tick, limit);
      }
    }
  }

  /** The same nodes, each with the state it owned. */
  ghost predicate SameOwners<S, V>(before: Nodes<S, V>, after: Nodes<S, V>) {
    after.Keys == before.Keys && forall id :: id in before ==> after[id].engine.state == before[id].engine.state
  }

  lemma DeliveryKeepsOwners<S, V>(n0: Nodes<S, V>, n1: Nodes<S, V>, n2: Nodes<S, V>, tick: nat)
    requires Alike(n0, n1) && Fired(n1, n2, {}, tick)
    ensures SameOwners(n0, n2)
  {
    assert Inside(Likeness, 0) && Inside(Firing, 0);
  }

  lemma FeedsKeepOwners<S, V>(n0: Nodes<S, V>, n2: Nodes<S, V>, n3: Nodes<S, V>)
    requires SameOwners(n0, n2) && Fed(n2, n3, {})
    ensures SameOwners(n0, n3)
  {
    assert Inside(Feeding, 0);
  }

  // ── No timer fires early ───────────────────────────────────────

  /** A message of a timer of its sender whose tick has come. */
  ghost predicate DueLetter<S, V>(nodes: Nodes<S, V>, tick: nat, p: Packet) {
    p.from in nodes
    && exists x :: x in nodes[p.from].scheduled && x.deliverAt <= tick && p.msg == Sync(x.message)
  }

  /** All that can be read from what the queue has gained is messages of due timers. */
  ghost predicate GainsDue<S, V>(
      before: seq<T.InFlight>, after: seq<T.InFlight>, decode: Bytes -> Option<WireMessage>,
      nodes: Nodes<S, V>, tick: nat)
  {
    forall k: nat {:trigger Inside(Gaining, k)} :: Inside(Gaining, k) ==>
      && before <= after
      && forall p :: p in T.Readable(after[|before|..], decode) ==> DueLetter(nodes, tick, p)
  }

  lemma NothingGained<S, V>(
      queue: seq<T.InFlight>, decode: Bytes -> Option<WireMessage>, nodes: Nodes<S, V>, tick: nat)
    ensures GainsDue(queue, queue, decode, nodes, tick)
  {
    assert queue[|queue|..] == [];
  }

  lemma GainsTwice<S, V>(
      a: seq<T.InFlight>, b: seq<T.InFlight>, c: seq<T.InFlight>, decode: Bytes -> Option<WireMessage>,
      nodes: Nodes<S, V>, tick: nat)
    requires GainsDue(a, b, decode, nodes, tick) && GainsDue(b, c, decode, nodes, tick)
    ensures GainsDue(a, c, decode, nodes, tick)
  {
    assert Inside(Gaining, 0);
    assert c[|a|..] == b[|a|..] + c[|b|..];
    T.ReadableAppend(b[|a|..], c[|b|..], decode);
  }

  lemma BroadcastGains<S, V>(
      queue: seq<T.InFlight>, added: seq<T.InFlight>, decode: Bytes -> Option<WireMessage>,
      nodes: Nodes<S, V>, tick: nat, id: NodeId, x: Timer, ids: set<NodeId>)
    requires T.Faithful(added, Cluster.Broadcast(id, Sync(x.message), ids), decode)
    requires id in nodes && x in nodes[id].scheduled && x.deliverAt <= tick
    ensures GainsDue(queue, queue + added, decode, nodes, tick)
  {
    assert (queue + added)[|queue|..] == added;
    forall p | p in T.Readable(added, decode) ensures DueLetter(nodes, tick, p) {
      assert p in Cluster.Broadcast(id, Sync(x.message), ids);
    }
  }

  /** Timers that are still there were there before. */
  lemma FiredGains<S, V>(
      before: Nodes<S, V>, now: Nodes<S, V>, left: set<NodeId>, tick: nat,
      q: seq<T.InFlight>, q': seq<T.InFlight>, decode: Bytes -> Option<WireMessage>)
    requires Fired(before, now, left, tick) && GainsDue(q, q', decode, now, tick)
    ensures GainsDue(q, q', decode, before, tick)
  {
    assert Inside(Firing, 0) && Inside(Gaining, 0);
    forall p | p in T.Readable(q'[|q|..], decode) ensures DueLetter(before, tick, p) {
      assert DueLetter(now, tick, p);
      TimersSorted(before[p.from].scheduled, tick);
    }
  }

  /** Exactly the timers whose tick has come are gone. */
  ghost predicate DueGone(before: seq<Timer>, after: seq<Timer>, tick: nat) {
    forall x :: x in after <==> x in before && x.deliverAt > tick
  }

  ghost predicate OnlyDueFired<S, V>(before: Nodes<S, V>, after: Nodes<S, V>, tick: nat) {
    && after.Keys == before.Keys
    && forall k: nat {:trigger Inside(Firing, k)} :: Inside(Firing, k) ==>
         forall id :: id in before ==> DueGone(before[id].scheduled, after[id].scheduled, tick)
  }

  lemma PhasesFireDue<S, V>(n0: Nodes<S, V>, n1: Nodes<S, V>, n2: Nodes<S, V>, tick: nat)
    requires Alike(n0, n1) && Fired(n1, n2, {}, tick)
    ensures OnlyDueFired(n0, n2, tick)
  {
    assert Inside(Likeness, 0) && Inside(Firing, 0);
    forall id | id in n0 ensures DueGone(n0[id].scheduled, n2[id].scheduled, tick) {
      TimersSorted(n1[id].scheduled, tick);
    }
  }

  lemma FeedsFireNothing<S, V>(n0: Nodes<S, V>, n2: Nodes<S, V>, n3: Nodes<S, V>, tick: nat)
    requires OnlyDueFired(n0, n2, tick) && Fed(n2, n3, {})
    ensures OnlyDueFired(n0, n3, tick)
  {
    assert Inside(Feeding, 0) && Inside(Firing, 0);
    forall id | id in n0 ensures DueGone(n0[id].scheduled, n3[id].scheduled, tick) {
      assert n3[id] == FeedTicked(n2[id]);
      assert DueGone(n0[id].scheduled, n2[id].scheduled, tick);
    }
  }

  /** No timer is gone before its tick has passed, and none has been added. */
  ghost predicate Waited(before: seq<Timer>, after: seq<Timer>, tick: nat) {
    && (forall x :: x in after ==> x in before)
    && (forall x :: x in before && x.deliverAt >= tick ==> x in after)
  }

  ghost predicate NoneEarly<S, V>(before: Nodes<S, V>, after: Nodes<S, V>, tick: nat) {
    && after.Keys == before.Keys
    && forall k: nat {:trigger Inside(Firing, k)} :: Inside(Firing, k) ==>
         forall id :: id in before ==> Waited(before[id].scheduled, after[id].scheduled, tick)
  }

  lemma NoneYet<S, V>(nodes: Nodes<S, V>, tick: nat)
    ensures NoneEarly(nodes, nodes, tick)
  {
  }

  lemma OneTickMore<S, V>(n0: Nodes<S, V>, n1: Nodes<S, V>, n2: Nodes<S, V>, tick: nat)
    requires NoneEarly(n0, n1, tick) && OnlyDueFired(n1, n2, tick)
    ensures NoneEarly(n0, n2, tick + 1)
  {
    assert Inside(Firing, 0);
    forall id | id in n0 ensures Waited(n0[id].scheduled, n2[id].scheduled, tick + 1) {
      assert Waited(n0[id].scheduled, n1[id].scheduled, tick);
      assert DueGone(n1[id].scheduled, n2[id].scheduled, tick);
    }
  }

  lemma TickPassed<S, V>(
      n0: Nodes<S, V>, n1: Nodes<S, V>, n2: Nodes<S, V>, tick: nat,
      r0: Record<S, V>, r1: Record<S, V>, r2: Record<S, V>, ref: Config<V>, kept: bool)
    requires SameOwners(n0, n1) && SameOwners(n1, n2)
    requires NoneEarly(n0, n1, tick) && OnlyDueFired(n1, n2, tick)
    requires Background(r0, r1, ref, kept) && Background(r1, r2, ref, kept)
    ensures SameOwners(n0, n2) && NoneEarly(n0, n2, tick + 1) && Background(r0, r2, ref, kept)
  {
    OneTickMore(n0, n1, n2, tick);
  }

  // ── Feeds are flushed on time ──────────────────────────────────

  function FeedTickedTimes<S, V>(n: MockNode<S, V>, ticks: nat): MockNode<S, V> {
    if ticks == 0 then n else FeedTicked(FeedTickedTimes(n, ticks - 1))
  }

  /** Idle ticks do not count towards the interval. */
  lemma {:induction false} IdleDoesNotCount<S, V>(n: MockNode<S, V>, ticks: nat)
    requires n.engine.feed == map[] && 0 < ticks
    ensures FeedTickedTimes(n, ticks) == n.(feedCounter := 0)
  {
    if ticks > 1 {
      IdleDoesNotCount(n, ticks - 1);
    }
  }

  /** A feed with something in it waits for exactly its interval: it stays as it is until
      then, and is drained at that tick and not before. */
  lemma {:induction false} FeedWaits<S, V>(n: MockNode<S, V>, ticks: nat)
    requires n.engine.feed != map[] && n.feedCounter + ticks <= n.feedInterval
    ensures n.feedCounter + ticks < n.feedInterval ==>
              FeedTickedTimes(n, ticks) == n.(feedCounter := n.feedCounter + ticks)
    ensures 0 < ticks && n.feedCounter + ticks == n.feedInterval ==>
              FeedTickedTimes(n, ticks) == n.(engine := n.engine.(feed := map[]), feedCounter := 0)
  {
    if ticks > 0 {
      FeedWaits(n, ticks - 1);
    }
  }

  lemma NotTimely<S(!new), V(!new)>(
      r: Record<S, V>, nodes: Nodes<S, V>, queue: seq<T.InFlight>, unsent: multiset<Packet>, s: Setting<V>,
      timely: bool, tick: nat, limit: nat)
    requires Stands(r, nodes, queue, unsent, s, timely, tick, limit)
    ensures Stands(r, nodes, queue, unsent, s, false, 0, 0)
  {
    assert Inside(Standing, 0);
  }

  lemma NowTimely<S(!new), V(!new)>(
      r: Record<S, V>, nodes: Nodes<S, V>, queue: seq<T.InFlight>, unsent: multiset<Packet>, s: Setting<V>,
      timely: bool, tick: nat, limit: nat)
    requires Stands(r, nodes, queue, unsent, s, false, 0, 0)
    requires timely ==> QueueBy(queue, s.decode, tick, limit) && MessagesBy(unsent, tick, limit)
    ensures Stands(r, nodes, queue, unsent, s, timely, tick, limit)
  {
    assert Inside(Standing, 0);
  }

  lemma QueueInTime<S(!new), V(!new)>(
      r: Record<S, V>, nodes: Nodes<S, V>, queue: seq<T.InFlight>, s: Setting<V>, timely: bool, tick: nat, limit: nat)
    requires Stands(r, nodes, queue, multiset{}, s, timely, tick, limit)
    ensures timely ==> QueueBy(queue, s.decode, tick, limit)
  {
    assert Inside(Standing, 0);
  }

  // ── Settling ───────────────────────────────────────────────────

  /** Nothing is in flight, scheduled, or waiting in a feed. */
  ghost predicate IsQuiet<S, V>(nodes: Nodes<S, V>, queue: seq<T.InFlight>) {
    queue == [] && forall id :: id in nodes ==> nodes[id].scheduled == [] && nodes[id].engine.feed == map[]
  }

  /** Once the limit is reached, everything is over. */
  lemma LimitIsQuiet<S, V>(
      nodes: Nodes<S, V>, queue: seq<T.InFlight>, decode: Bytes -> Option<WireMessage>, tick: nat, limit: nat)
    requires QueueBy(queue, decode, tick, limit) && NodesBy(nodes, tick, limit) && limit <= tick
    ensures IsQuiet(nodes, queue)
  {
    assert Inside(Deadline, 0);
    forall id | id in nodes ensures nodes[id].scheduled == [] && nodes[id].engine.feed == map[] {
      assert TimersBy(nodes[id].scheduled, tick, limit) && FeedBy(nodes[id], tick, limit);
    }
  }

  /** `d` bounds the delay that copies in flight and timers still have ahead of them, and
      `f` the ticks until each feed with something in it is flushed. */
  ghost predicate Within<S, V>(nodes: Nodes<S, V>, queue: seq<T.InFlight>, tick: nat, d: nat, f: nat) {
    && (forall k :: 0 <= k < |queue| ==> queue[k].deliverAt <= tick + 1 + d)
    && (forall id :: id in nodes ==>
          && (forall k :: 0 <= k < |nodes[id].scheduled| ==> nodes[id].scheduled[k].deliverAt <= tick + d)
          && (nodes[id].engine.feed != map[] ==> nodes[id].feedInterval <= nodes[id].feedCounter + f))
  }

  /** The settling bound: the longest delay and four ticks, or the longest feed interval
      and one tick. */
  function SettlingBound(d: nat, f: nat): nat {
    Larger(d + 4, f + 1)
  }

  lemma {:induction false} QueueWithin(
      queue: seq<T.InFlight>, decode: Bytes -> Option<WireMessage>, tick: nat, d: nat, f: nat)
    requires forall k :: 0 <= k < |queue| ==> queue[k].deliverAt <= tick + 1 + d
    ensures QueueBy(queue, decode, tick, tick + SettlingBound(d, f))
  {
    if queue != [] {
      QueueWithin(queue[..|queue| - 1], decode, tick, d, f);
    }
  }

  lemma {:induction false} TimersWithin(timers: seq<Timer>, tick: nat, d: nat, f: nat)
    requires forall k :: 0 <= k < |timers| ==> timers[k].deliverAt <= tick + d
    ensures TimersBy(timers, tick, tick + SettlingBound(d, f))
  {
    if timers != [] {
      TimersWithin(timers[..|timers| - 1], tick, d, f);
    }
  }

  lemma WithinIsBy<S, V>(
      nodes: Nodes<S, V>, queue: seq<T.InFlight>, decode: Bytes -> Option<WireMessage>, tick: nat, d: nat, f: nat)
    requires Within(nodes, queue, tick, d, f)
    ensures QueueBy(queue, decode, tick, tick + SettlingBound(d, f))
    ensures NodesBy(nodes, tick, tick + SettlingBound(d, f))
  {
    assert Inside(Deadline, 0);
    QueueWithin(queue, decode, tick, d, f);
    forall id | id in nodes
      ensures TimersBy(nodes[id].scheduled, tick, tick + SettlingBound(d, f))
      ensures FeedBy(nodes[id], tick, tick + SettlingBound(d, f))
    {
      TimersWithin(nodes[id].scheduled, tick, d, f);
    }
  }

  /** The reader shows its owner's current generation and view. */
  ghost predicate InSync<S, V>(nodes: Nodes<S, V>, q: Pair) {
    && q.reader in nodes && q.owner in nodes
    && var entries, owner := nodes[q.reader].engine.views, nodes[q.owner].engine;
       && q.owner in entries && q.owner in owner.views
       && entries[q.owner].generation == owner.state.generation
       && entries[q.owner].value == owner.views[q.owner].value
  }

  /** When a cluster that lost nothing is quiet, every pair that is owed is in sync. */
  lemma QuietIsInSync<S(!new), V(!new)>(
      r: Record<S, V>, nodes: Nodes<S, V>, queue: seq<T.InFlight>, s: Setting<V>, q: Pair)
    requires Stands(r, nodes, queue, multiset{}, s, false, 0, 0) && IsQuiet(nodes, queue)
    requires Uniform(r.labels, s.ref) && RoundTrips(s.ref) && q in r.owed
    ensures InSync(nodes, q)
  {
    assert Inside(Standing, 0);
    assert Packets(queue, s.decode) + multiset{} == multiset{};
    forall id | id in r.state.nodes ensures r.state.nodes[id].scheduled == multiset{} {
      assert nodes[id].scheduled == [];
    }
    QuiescentMeansConverged(r, s.ref, s.fmt, q);
    assert r.state.nodes[q.reader].engine == nodes[q.reader].engine
        && r.state.nodes[q.owner].engine == nodes[q.owner].engine;
  }

  /** Whatever the network has done, what a node shows of another is a join placeholder or
      what that node published at that generation. */
  lemma ShownIsPublished<S(!new), V(!new)>(
      r: Record<S, V>, nodes: Nodes<S, V>, queue: seq<T.InFlight>, s: Setting<V>, n: NodeId, p: NodeId)
    requires Stands(r, nodes, queue, multiset{}, s, false, 0, 0)
    requires n in nodes && p in nodes[n].engine.views
    ensures Authentic(p, nodes[n].engine.views[p], r.state.published)
  {
    assert Inside(Standing, 0);
    ReachedAgrees(r, s.fmt);
    assert r.state.nodes[n].engine == nodes[n].engine;
    assert GoodNode(n, r.state.nodes[n], r.state.published, s.fmt);
  }

  lemma QuietAllInSync<S(!new), V(!new)>(r: Record<S, V>, nodes: Nodes<S, V>, queue: seq<T.InFlight>, s: Setting<V>)
    requires Stands(r, nodes, queue, multiset{}, s, false, 0, 0) && IsQuiet(nodes, queue)
    ensures Uniform(r.labels, s.ref) && RoundTrips(s.ref) ==> forall q :: q in r.owed ==> InSync(nodes, q)
  {
    if Uniform(r.labels, s.ref) && RoundTrips(s.ref) {
      forall q | q in r.owed ensures InSync(nodes, q) {
        QuietIsInSync(r, nodes, queue, s, q);
      }
    }
  }
}
