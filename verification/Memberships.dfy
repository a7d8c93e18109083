/** What nodes do on their own account, on values: mutate, and greet or forget each other. */
module Memberships {
  import opened Types
  import opened EngineSpec
  import opened Cluster
  import opened Convergence
  import opened History
  import opened Tracking
  import opened Deadlines
  import opened Rounds
  import T = Transports

  lemma NodeHasOwn<S(!new), V(!new)>(
      r: Record<S, V>, nodes: Nodes<S, V>, queue: seq<T.InFlight>, unsent: multiset<Packet>, s: Setting<V>, id: NodeId)
    requires Stands(r, nodes, queue, unsent, s, false, 0, 0) && id in nodes
    ensures HasOwn(nodes[id].engine) && nodes[id].engine.cfg.id == id
  {
    assert Inside(Standing, 0);
    ReachedHasOwn(r, s.fmt, id);
    assert r.state.nodes[id].engine == nodes[id].engine;
  }

  /** Neither node has marked the other as departed. */
  ghost predicate Linked<S, V>(nodes: Nodes<S, V>, n: NodeId, p: NodeId) {
    && n in nodes && p in nodes && n != p
    && p !in nodes[n].engine.departed && n !in nodes[p].engine.departed
  }

  /** The readers that are owed a node's generation once it has pushed it. */
  ghost function Readers<S, V>(nodes: Nodes<S, V>, owner: NodeId): set<Pair> {
    set n | n in nodes && Linked(nodes, n, owner) :: Pair(n, owner)
  }

  /** Who is owed what after an event at a node. */
  ghost function OwedAfter<S, V>(
      owed: set<Pair>, nodes: Nodes<S, V>, id: NodeId, ev: Event<S, V>, action: Option<Action>): set<Pair>
  {
    match ev
    case Mutation(_, _, _) => PushedBy(owed, nodes, id, action)
    case DeltaMutation(_, _, _, _) => PushedBy(owed, nodes, id, action)
    case Joined(p, _) =>
      owed + (if p in nodes && p != id && id !in nodes[p].engine.departed then {Pair(p, id)} else {})
    case Left(p) => owed - {Pair(p, id), Pair(id, p)}
    case _ => owed
  }

  /** A mutation makes everyone wait for the new generation, if it is pushed, and takes the
      old one off the books. */
  ghost function PushedBy<S, V>(owed: set<Pair>, nodes: Nodes<S, V>, id: NodeId, action: Option<Action>): set<Pair> {
    (set q | q in owed && q.owner != id) + (if action.Some? then Readers(nodes, id) else {})
  }

  /** What an event of a node's own may be: a leave, a join, or a mutation, whose delta, if
      it comes with one, keeps the delta law. */
  ghost predicate OwnEvent<S, V>(e: Engine<S, V>, ev: Event<S, V>, fmt: Format<V>)
    requires HasOwn(e)
  {
    (ev.Mutation? || ev.DeltaMutation? || ev.Joined? || ev.Left?) && DeltaLaw(e, ev, fmt)
  }

  lemma SameReaders<S, V>(c: State<S, V>, nodes: Nodes<S, V>, id: NodeId)
    requires c.nodes == Shadow(nodes)
    ensures Everyone(c, id) == Readers(nodes, id)
  {
    assert forall n :: n in nodes ==> c.nodes[n].engine == nodes[n].engine;
    assert forall n :: Connected(c, n, id) <==> Linked(nodes, n, id);
  }

  lemma NowOwed<S(!new), V(!new)>(
      c: State<S, V>, owed: set<Pair>, nodes: Nodes<S, V>, fmt: Format<V>, id: NodeId, ev: Event<S, V>, t: Time)
    requires Enabled(c, Local(id, ev, t), fmt) && c.nodes == Shadow(nodes)
    requires ev.Mutation? || ev.DeltaMutation? || ev.Joined? || ev.Left?
    ensures id in nodes && HasOwn(nodes[id].engine)
    ensures NowSent(c, owed, Local(id, ev, t), fmt)
            == OwedAfter(owed, nodes, id, ev, Step(nodes[id].engine, ev, t).action)
  {
    assert c.nodes[id].engine == nodes[id].engine;
    if ev.Joined? {
      assert ev.id in nodes ==> c.nodes[ev.id].engine == nodes[ev.id].engine;
    } else {
      SameReaders(c, nodes, id);
    }
  }

  lemma LocalStands<S(!new), V(!new)>(
      r: Record<S, V>, nodes: Nodes<S, V>, queue: seq<T.InFlight>, unsent: multiset<Packet>, s: Setting<V>,
      id: NodeId, ev: Event<S, V>, t: Time, timers: seq<Timer>) returns (r': Record<S, V>)
    requires Stands(r, nodes, queue, unsent, s, false, 0, 0) && id in nodes && HasOwn(nodes[id].engine)
    requires OwnEvent(nodes[id].engine, ev, s.fmt)
    requires Messages(timers) == Messages(nodes[id].scheduled) + Postponed(Step(nodes[id].engine, ev, t).action)
    ensures
      var out := Step(nodes[id].engine, ev, t);
      && Stands(r', nodes[id := nodes[id].(engine := out.engine, scheduled := timers)], queue,
                Sent(id, out.action, nodes.Keys) + unsent, s, false, 0, 0)
      && r'.owed == OwedAfter(r.owed, nodes, id, ev, out.action)
    ensures Uniform(r.labels, s.ref) ==> Uniform(r'.labels, s.ref)
  {
    assert Inside(Standing, 0);
    var out := Step(nodes[id].engine, ev, t);
    var net, sent := Packets(queue, s.decode), Sent(id, out.action, nodes.Keys);
    r' := TrackLocal(r, nodes, net + unsent, s.fmt, id, ev, t, timers);
    assert net + unsent + sent == net + (sent + unsent);
    NowOwed(r.state, r.owed, nodes, s.fmt, id, ev, t);
    if Uniform(r.labels, s.ref) {
      OneMoreUniform(r.labels, Local(id, ev, t), s.ref);
    }
  }

  /** A step that sends nothing later: no timer is added. */
  lemma PlainStands<S(!new), V(!new)>(
      r: Record<S, V>, nodes: Nodes<S, V>, queue: seq<T.InFlight>, unsent: multiset<Packet>, s: Setting<V>,
      id: NodeId, ev: Event<S, V>, t: Time) returns (r': Record<S, V>)
    requires Stands(r, nodes, queue, unsent, s, false, 0, 0) && id in nodes
    requires ev.Joined? || ev.Left?
    ensures HasOwn(nodes[id].engine) && nodes[id].engine.cfg.id == id
    ensures
      var out := Step(nodes[id].engine, ev, t);
      && Stands(r', nodes[id := nodes[id].(engine := out.engine)], queue,
                Sent(id, out.action, nodes.Keys) + unsent, s, false, 0, 0)
      && r'.owed == OwedAfter(r.owed, nodes, id, ev, out.action)
    ensures Uniform(r.labels, s.ref) ==> Uniform(r'.labels, s.ref)
  {
    NodeHasOwn(r, nodes, queue, unsent, s, id);
    var n, out := nodes[id], Step(nodes[id].engine, ev, t);
    assert Postponed(out.action) == multiset{};
    assert Messages(n.scheduled) + multiset{} == Messages(n.scheduled);
    r' := LocalStands(r, nodes, queue, unsent, s, id, ev, t, n.scheduled);
    assert n.(engine := out.engine, scheduled := n.scheduled) == n.(engine := out.engine);
  }

  // ── Ticks and durations ────────────────────────────────────────

  function DivCeil(a: nat, b: nat): nat
    requires b > 0
  {
    (a + b - 1) / b
  }

  /** A delay in ticks, rounded up; only a zero delay is no ticks. */
  function DelayTicks(delay: nat, tickDuration: nat): nat {
    if delay == 0 then 0 else Larger(DivCeil(delay, Larger(tickDuration, 1)), 1)
  }

  function FeedInterval(batchInterval: nat, tickDuration: nat): nat {
    Larger(DivCeil(batchInterval, Larger(tickDuration, 1)), 1)
  }

  /** Ticks of this length, of at least one millisecond, reach a delay and no further. */
  predicate Cover(ticks: int, tickDuration: nat, delay: nat) {
    var unit := if tickDuration == 0 then 1 else tickDuration;
    delay <= ticks * unit < delay + unit
  }

  lemma RoundedUp(a: nat, b: nat)
    requires b > 0
    ensures a <= DivCeil(a, b) * b < a + b
    ensures 0 < a ==> 1 <= DivCeil(a, b)
  {
    var q, r := (a + b - 1) / b, (a + b - 1) % b;
    assert a + b - 1 == q * b + r;
  }

  lemma DelayIsCovered(delay: nat, tickDuration: nat)
    ensures Cover(DelayTicks(delay, tickDuration), tickDuration, delay)
  {
    var unit := Larger(tickDuration, 1);
    RoundedUp(delay, unit);
  }

  /** A feed interval reaches the batch interval and no further, but for one tick at least. */
  lemma IntervalIsCovered(batchInterval: nat, tickDuration: nat)
    ensures
      var f := FeedInterval(batchInterval, tickDuration);
      && 1 <= f && (0 < batchInterval ==> Cover(f, tickDuration, batchInterval)) && (batchInterval == 0 ==> f == 1)
  {
    if 0 < batchInterval {
      DelayIsCovered(batchInterval, tickDuration);
    }
  }

  /** A delayed send became one timer more, for the first tick that its delay allows. */
  ghost predicate TimerAdded(
      before: seq<Timer>, after: seq<Timer>, delay: nat, message: SyncMessage, tick: nat, tickDuration: nat)
  {
    && |after| == |before| + 1 && after[..|before|] == before
    && after[|before|].message == message
    && Cover(after[|before|].deliverAt - tick, tickDuration, delay)
  }

  lemma TimerIsAdded(timers: seq<Timer>, delay: nat, message: SyncMessage, tick: nat, tickDuration: nat)
    ensures TimerAdded(timers, timers + [Timer(message, tick + DelayTicks(delay, tickDuration))], delay, message,
                       tick, tickDuration)
  {
    DelayIsCovered(delay, tickDuration);
  }

  lemma TimedAdds<S, V>(nodes: Nodes<S, V>, from: NodeId, action: Action, tick: nat, tickDuration: nat)
    requires action.ScheduleDelayed? && from in nodes
    ensures
      var after := Timed(nodes, from, action, tick, tickDuration);
      && after == nodes[from := nodes[from].(scheduled := after[from].scheduled)]
      && TimerAdded(nodes[from].scheduled, after[from].scheduled, action.delay, action.message, tick, tickDuration)
  {
    TimerIsAdded(nodes[from].scheduled, action.delay, action.message, tick, tickDuration);
  }

  /** The nodes after a node's delayed send became a timer. */
  function Timed<S, V>(nodes: Nodes<S, V>, from: NodeId, action: Action, tick: nat, tickDuration: nat): Nodes<S, V> {
    if action.ScheduleDelayed? && from in nodes then
      var timer := Timer(action.message, tick + DelayTicks(action.delay, tickDuration));
      nodes[from := nodes[from].(scheduled := nodes[from].scheduled + [timer])]
    else nodes
  }

  /** A node's timers, with the one that a delayed send adds. */
  function TimersAfter(timers: seq<Timer>, action: Option<Action>, tick: nat, tickDuration: nat): seq<Timer> {
    match action
    case Some(ScheduleDelayed(delay, message)) => timers + [Timer(message, tick + DelayTicks(delay, tickDuration))]
    case _ => timers
  }

  lemma TimersArePostponed(timers: seq<Timer>, action: Option<Action>, tick: nat, tickDuration: nat)
    ensures Messages(TimersAfter(timers, action, tick, tickDuration)) == Messages(timers) + Postponed(action)
  {
    if action.Some? && action.value.ScheduleDelayed? {
      OneMessage(timers, Timer(action.value.message, tick + DelayTicks(action.value.delay, tickDuration)));
    }
  }

  lemma TimedIs<S, V>(nodes: Nodes<S, V>, id: NodeId, e: Engine<S, V>, action: Action, tick: nat, tickDuration: nat)
    requires id in nodes
    ensures
      var timers := TimersAfter(nodes[id].scheduled, Some(action), tick, tickDuration);
      Timed(nodes[id := nodes[id].(engine := e)], id, action, tick, tickDuration)
      == nodes[id := nodes[id].(engine := e, scheduled := timers)]
  {
  }

  /** A node mutates its state, and its host is about to route the action, if there is one. */
  lemma MutationStands<S(!new), V(!new)>(
      r: Record<S, V>, nodes: Nodes<S, V>, queue: seq<T.InFlight>, s: Setting<V>,
      id: NodeId, ev: Event<S, V>, t: Time, tick: nat, tickDuration: nat) returns (r': Record<S, V>)
    requires Stands(r, nodes, queue, multiset{}, s, false, 0, 0) && id in nodes && HasOwn(nodes[id].engine)
    requires (ev.Mutation? || ev.DeltaMutation?) && DeltaLaw(nodes[id].engine, ev, s.fmt)
    ensures
      var out := Step(nodes[id].engine, ev, t);
      var next := nodes[id := nodes[id].(engine := out.engine)];
      && r'.owed == OwedAfter(r.owed, nodes, id, ev, out.action)
      && (out.action.None? ==> Stands(r', next, queue, multiset{}, s, false, 0, 0))
      && (out.action.Some? ==>
            Stands(r', Timed(next, id, out.action.value, tick, tickDuration), queue,
                   Sent(id, out.action, nodes.Keys) + multiset{}, s, false, tick + 1, 0))
    ensures Uniform(r.labels, s.ref) ==> Uniform(r'.labels, s.ref)
  {
    var n, out := nodes[id], Step(nodes[id].engine, ev, t);
    var timers := TimersAfter(n.scheduled, out.action, tick, tickDuration);
    TimersArePostponed(n.scheduled, out.action, tick, tickDuration);
    r' := LocalStands(r, nodes, queue, multiset{}, s, id, ev, t, timers);
    var after := nodes[id := n.(engine := out.engine, scheduled := timers)];
    if out.action.Some? {
      TimedIs(nodes, id, out.engine, out.action.value, tick, tickDuration);
      NowTimely(r', after, queue, Sent(id, out.action, nodes.Keys) + multiset{}, s, false, tick + 1, 0);
    } else {
      assert Sent(id, out.action, nodes.Keys) + multiset{} == multiset{};
      assert n.(engine := out.engine, scheduled := timers) == n.(engine := out.engine);
    }
  }

  // ── Joining ────────────────────────────────────────────────────

  /** Every node outside `left` has heard that `who` joined. */
  ghost predicate Welcomed<S, V>(
      before: Nodes<S, V>, after: Nodes<S, V>, left: set<NodeId>, who: NodeId, view: V, t: Time) {
    && after.Keys == before.Keys
    && forall k: nat {:trigger Inside(Welcoming, k)} :: Inside(Welcoming, k) ==> forall id :: id in before ==>
         && HasOwn(before[id].engine)
         && after[id] == if id in left then before[id]
                         else before[id].(engine := NodeJoined(before[id].engine, who, view, t).engine)
  }

  lemma SwapUpdates<S, V>(nodes: Nodes<S, V>, a: NodeId, na: MockNode<S, V>, b: NodeId, nb: MockNode<S, V>)
    requires a != b
    ensures nodes[a := na][b := nb] == nodes[b := nb][a := na]
  {
  }

  lemma MailGrows(mail: seq<Packet>, p: Packet)
    ensures multiset{p} + multiset(mail) == multiset(mail + [p])
  {
  }

  /** Tell one node that `who` joined, whose own node is `newcomer`. */
  method WelcomeOne<S(!new), V(!new)>(
      before: Nodes<S, V>, id: NodeId, who: NodeId, view: V, t: Time,
      ghost newcomer: MockNode<S, V>, ghost r: Record<S, V>, ghost queue: seq<T.InFlight>, ghost mail: seq<Packet>,
      ghost s: Setting<V>)
      returns (nodes: Nodes<S, V>, action: Action, ghost r': Record<S, V>)
    requires id in before && who !in before && newcomer.engine.departed == {}
    requires Stands(r, before[who := newcomer], queue, multiset(mail), s, false, 0, 0)
    ensures HasOwn(before[id].engine)
    ensures nodes == before[id := before[id].(engine := NodeJoined(before[id].engine, who, view, t).engine)]
    ensures Some(action) == NodeJoined(before[id].engine, who, view, t).action && action.SendSync?
    ensures Stands(r', nodes[who := newcomer], queue, multiset(mail + Letter(id, Some(action))), s, false, 0, 0)
    ensures r'.owed == r.owed + {Pair(who, id)}
    ensures Uniform(r.labels, s.ref) ==> Uniform(r'.labels, s.ref)
  {
    ghost var meant := before[who := newcomer];
    r' := PlainStands(r, meant, queue, multiset(mail), s, id, Joined(who, view), t);
    var out := NodeJoined(before[id].engine, who, view, t);
    nodes, action := before[id := before[id].(engine := out.engine)], out.action.value;
    SwapUpdates(before, who, newcomer, id, nodes[id]);
    MailGrows(mail, Packet(id, who, Sync(action.message)));
    assert Sent(id, out.action, meant.Keys) == multiset{Packet(id, who, Sync(action.message))};
  }

  lemma OneMoreWelcomed<S, V>(
      before: Nodes<S, V>, after: Nodes<S, V>, left: set<NodeId>, id: NodeId, who: NodeId, view: V, t: Time)
    requires Welcomed(before, after, left, who, view, t) && id in left && id in before
    ensures HasOwn(after[id].engine)
    ensures
      var next := after[id := after[id].(engine := NodeJoined(after[id].engine, who, view, t).engine)];
      Welcomed(before, next, left - {id}, who, view, t)
  {
    assert Inside(Welcoming, 0);
  }

  /** The pairs a newcomer makes as the reader of some nodes. */
  ghost function NewReader(who: NodeId, owners: set<NodeId>): set<Pair> {
    set id | id in owners :: Pair(who, id)
  }

  /** The pairs a newcomer makes as the owner that some nodes read. */
  ghost function NewOwner(who: NodeId, readers: set<NodeId>): set<Pair> {
    set id | id in readers :: Pair(id, who)
  }

  lemma OneMorePair(who: NodeId, all: set<NodeId>, left: set<NodeId>, id: NodeId)
    requires id in left && left <= all
    ensures NewReader(who, all - (left - {id})) == NewReader(who, all - left) + {Pair(who, id)}
    ensures NewOwner(who, all - (left - {id})) == NewOwner(who, all - left) + {Pair(id, who)}
  {
  }

  lemma WelcomeBegins<S(!new), V(!new)>(
      nodes: Nodes<S, V>, who: NodeId, view: V, t: Time,
      newcomer: MockNode<S, V>, r: Record<S, V>, queue: seq<T.InFlight>, s: Setting<V>)
    requires who !in nodes && Stands(r, nodes[who := newcomer], queue, multiset{}, s, false, 0, 0)
    ensures Welcomed(nodes, nodes, nodes.Keys, who, view, t)
    ensures NewReader(who, nodes.Keys - nodes.Keys) == {}
  {
    assert Inside(Welcoming, 0);
    forall id | id in nodes ensures HasOwn(nodes[id].engine) {
      NodeHasOwn(r, nodes[who := newcomer], queue, multiset{}, s, id);
    }
  }

  /** Announce a newcomer to every node that is already there. */
  method WelcomeAll<S(!new), V(!new)>(
      before: Nodes<S, V>, who: NodeId, view: V, t: Time,
      ghost newcomer: MockNode<S, V>, ghost r: Record<S, V>, ghost queue: seq<T.InFlight>, ghost s: Setting<V>)
      returns (nodes: Nodes<S, V>, pending: seq<(NodeId, Action)>, ghost mail: seq<Packet>, ghost r': Record<S, V>)
    requires who !in before && newcomer.engine.departed == {}
    requires Stands(r, before[who := newcomer], queue, multiset{}, s, false, 0, 0)
    ensures Stands(r', nodes[who := newcomer], queue, multiset(mail), s, false, 0, 0)
    ensures Welcomed(before, nodes, {}, who, view, t) && Mails(pending, mail)
    ensures r'.owed == r.owed + NewReader(who, before.Keys)
    ensures Uniform(r.labels, s.ref) ==> Uniform(r'.labels, s.ref)
  {
    nodes, pending, mail, r' := before, [], [], r;
    WelcomeBegins(before, who, view, t, newcomer, r, queue, s);
    assert multiset(mail) == multiset{};
    var left := before.Keys;
    while left != {}
      invariant left <= before.Keys && Welcomed(before, nodes, left, who, view, t) && Mails(pending, mail)
      invariant Stands(r', nodes[who := newcomer], queue, multiset(mail), s, false, 0, 0)
      invariant r'.owed == r.owed + NewReader(who, before.Keys - left)
      invariant Uniform(r.labels, s.ref) ==> Uniform(r'.labels, s.ref)
      decreases left
    {
      var id :| id in left;
      OneMoreWelcomed(before, nodes, left, id, who, view, t);
      OneMorePair(who, before.Keys, left, id);
      var action;
      nodes, action, r' := WelcomeOne(nodes, id, who, view, t, newcomer, r', queue, mail, s);
      OneMoreMail(pending, mail, id, action);
      pending, mail := pending + [(id, action)], mail + Letter(id, Some(action));
      left := left - {id};
    }
  }

  /** Nobody has marked `who` as departed. */
  ghost predicate NoneBars<S, V>(nodes: Nodes<S, V>, who: NodeId) {
    forall id :: id in nodes ==> who !in nodes[id].engine.departed
  }

  lemma WelcomedDoNotBar<S, V>(before: Nodes<S, V>, after: Nodes<S, V>, who: NodeId, view: V, t: Time)
    requires Welcomed(before, after, {}, who, view, t)
    ensures NoneBars(after, who)
  {
    assert Inside(Welcoming, 0);
  }

  /** A newcomer that has heard of the nodes outside `left`. */
  ghost predicate Greeted<S, V>(newcomer: MockNode<S, V>, node: MockNode<S, V>, ids: set<NodeId>) {
    && node == newcomer.(engine := node.engine)
    && node.engine.cfg == newcomer.engine.cfg && node.engine.state == newcomer.engine.state
    && node.engine.views.Keys == newcomer.engine.views.Keys + ids
  }

  lemma OneMoreGreeted<S, V>(
      newcomer: MockNode<S, V>, node: MockNode<S, V>, ids: set<NodeId>, id: NodeId, view: V, t: Time)
    requires Greeted(newcomer, node, ids) && HasOwn(node.engine)
    ensures Greeted(newcomer, node.(engine := NodeJoined(node.engine, id, view, t).engine), ids + {id})
  {
  }

  /** Tell a newcomer of one node. */
  method GreetOne<S(!new), V(!new)>(
      before: MockNode<S, V>, id: NodeId, view: V, t: Time,
      ghost others: Nodes<S, V>, ghost r: Record<S, V>, ghost queue: seq<T.InFlight>, ghost mail: seq<Packet>,
      ghost s: Setting<V>)
      returns (node: MockNode<S, V>, action: Action, ghost r': Record<S, V>)
    requires before.engine.cfg.id !in others && id in others && NoneBars(others, before.engine.cfg.id)
    requires Stands(r, others[before.engine.cfg.id := before], queue, multiset(mail), s, false, 0, 0)
    ensures HasOwn(before.engine) && node == before.(engine := NodeJoined(before.engine, id, view, t).engine)
    ensures action.SendSync?
    ensures
      var who := before.engine.cfg.id;
      && Stands(r', others[who := node], queue, multiset(mail + Letter(who, Some(action))), s, false, 0, 0)
      && r'.owed == r.owed + {Pair(id, who)}
    ensures Uniform(r.labels, s.ref) ==> Uniform(r'.labels, s.ref)
  {
    var who := before.engine.cfg.id;
    ghost var meant := others[who := before];
    r' := PlainStands(r, meant, queue, multiset(mail), s, who, Joined(id, view), t);
    var out := NodeJoined(before.engine, id, view, t);
    node, action := before.(engine := out.engine), out.action.value;
    MailGrows(mail, Packet(who, id, Sync(action.message)));
    Overwritten(others, who, before, node);
    assert Sent(who, out.action, meant.Keys) == multiset{Packet(who, id, Sync(action.message))};
  }

  lemma GreetingBegins<S, V>(newcomer: MockNode<S, V>, ids: set<NodeId>)
    ensures Greeted(newcomer, newcomer, ids - ids)
    ensures NewOwner(newcomer.engine.cfg.id, ids - ids) == {}
  {
  }

  /** Tell a newcomer of every node that is already there. */
  method GreetAll<S(!new), V(!new)>(
      newcomer: MockNode<S, V>, ids: set<NodeId>, view: V, t: Time,
      ghost others: Nodes<S, V>, ghost r: Record<S, V>, ghost queue: seq<T.InFlight>, ghost s: Setting<V>)
      returns (node: MockNode<S, V>, pending: seq<(NodeId, Action)>, ghost mail: seq<Packet>, ghost r': Record<S, V>)
    requires newcomer.engine.cfg.id !in others && ids == others.Keys && NoneBars(others, newcomer.engine.cfg.id)
    requires Stands(r, others[newcomer.engine.cfg.id := newcomer], queue, multiset{}, s, false, 0, 0)
    ensures Stands(r', others[newcomer.engine.cfg.id := node], queue, multiset(mail), s, false, 0, 0)
    ensures Mails(pending, mail) && Greeted(newcomer, node, ids)
    ensures r'.owed == r.owed + NewOwner(newcomer.engine.cfg.id, ids)
    ensures Uniform(r.labels, s.ref) ==> Uniform(r'.labels, s.ref)
  {
    var who := newcomer.engine.cfg.id;
    node, pending, mail, r' := newcomer, [], [], r;
    assert multiset(mail) == multiset{};
    GreetingBegins(newcomer, ids);
    var left := ids;
    while left != {}
      invariant left <= ids && Mails(pending, mail) && Greeted(newcomer, node, ids - left)
      invariant Stands(r', others[who := node], queue, multiset(mail), s, false, 0, 0)
      invariant r'.owed == r.owed + NewOwner(who, ids - left)
      invariant Uniform(r.labels, s.ref) ==> Uniform(r'.labels, s.ref)
      decreases left
    {
      var id :| id in left;
      OneMorePair(who, ids, left, id);
      ghost var was := node;
      var action;
      node, action, r' := GreetOne(node, id, view, t, others, r', queue, mail, s);
      OneMoreGreeted(newcomer, was, ids - left, id, view, t);
      OneMoreMail(pending, mail, who, action);
      pending, mail := pending + [(who, action)], mail + Letter(who, Some(action));
      OneFewer(ids, left, id);
      left := left - {id};
    }
  }

  lemma OneFewer(ids: set<NodeId>, left: set<NodeId>, id: NodeId)
    requires id in left && left <= ids
    ensures ids - (left - {id}) == ids - left + {id}
  {
  }

  /** A new life begins, before anyone has heard of it. */
  lemma NewcomerStands<S(!new), V(!new)>(
      r: Record<S, V>, nodes: Nodes<S, V>, queue: seq<T.InFlight>, s: Setting<V>, n: MockNode<S, V>)
      returns (r': Record<S, V>)
    requires Stands(r, nodes, queue, multiset{}, s, false, 0, 0) && n.scheduled == []
    requires NewLife(r.state, n.engine, s.fmt)
    ensures n.engine.cfg.id !in nodes && n.engine.departed == {}
    ensures Stands(r', nodes[n.engine.cfg.id := n], queue, multiset{}, s, false, 0, 0) && r'.owed == r.owed
    ensures SameRelease(n.engine.cfg, s.ref) && Uniform(r.labels, s.ref) ==> Uniform(r'.labels, s.ref)
  {
    assert Inside(Standing, 0);
    r' := TrackStart(r, nodes, Packets(queue, s.decode) + multiset{}, s.fmt, n);
    if SameRelease(n.engine.cfg, s.ref) && Uniform(r.labels, s.ref) {
      OneMoreUniform(r.labels, Start(n.engine), s.ref);
    }
  }

  /** What adding a node comes to: the others have heard of it, and it of them. */
  ghost predicate NodeAdded<S, V>(
      before: Nodes<S, V>, after: Nodes<S, V>, engine: Engine<S, V>, view: V, t: Time, tickDuration: nat)
  {
    var who := engine.cfg.id;
    && who !in before && after.Keys == before.Keys + {who}
    && Welcomed(before, after - {who}, {}, who, view, t)
    && after[who].engine.cfg == engine.cfg && after[who].engine.state == engine.state
    && after[who].engine.views.Keys == engine.views.Keys + before.Keys
    && after[who].scheduled == [] && after[who].feedCounter == 0
    && after[who].feedInterval == FeedInterval(engine.cfg.strategy.batchInterval, tickDuration)
    && 1 <= after[who].feedInterval
    && (0 < engine.cfg.strategy.batchInterval ==>
          Cover(after[who].feedInterval, tickDuration, engine.cfg.strategy.batchInterval))
  }

  lemma JoinIsDone<S, V>(
      before: Nodes<S, V>, others: Nodes<S, V>, node: MockNode<S, V>, engine: Engine<S, V>, view: V, t: Time,
      tickDuration: nat)
    requires engine.cfg.id !in others && Welcomed(before, others, {}, engine.cfg.id, view, t)
    requires Greeted(MockNode(engine, [], 0, FeedInterval(engine.cfg.strategy.batchInterval, tickDuration)), node,
             others.Keys)
    ensures NodeAdded(before, others[engine.cfg.id := node], engine, view, t, tickDuration)
  {
    assert others[engine.cfg.id := node] - {engine.cfg.id} == others;
    IntervalIsCovered(engine.cfg.strategy.batchInterval, tickDuration);
  }

  lemma SentIs(from: NodeId, action: Action, ids: set<NodeId>)
    ensures
      Sent(from, Some(action), ids) + multiset{} ==
      match action
      case BroadcastSync(m) => Cluster.Broadcast(from, Sync(m), ids) + multiset{}
      case SendSync(target, m) => multiset{Packet(from, target, Sync(m))} + multiset{}
      case ScheduleDelayed(_, _) => multiset{}
  {
  }

  // ── Leaving ────────────────────────────────────────────────────

  /** Every node outside `left` has heard that `who` left. */
  ghost predicate Forgotten<S, V>(before: Nodes<S, V>, after: Nodes<S, V>, left: set<NodeId>, who: NodeId) {
    && after.Keys == before.Keys
    && forall id :: id in before ==>
         after[id] == if id in left then before[id] else before[id].(engine := NodeLeft(before[id].engine, who))
  }

  lemma OneMoreForgotten<S, V>(before: Nodes<S, V>, after: Nodes<S, V>, left: set<NodeId>, id: NodeId, who: NodeId)
    requires Forgotten(before, after, left, who) && id in left && id in before
    ensures Forgotten(before, after[id := after[id].(engine := NodeLeft(after[id].engine, who))], left - {id}, who)
  {
  }

  /** Nothing is owed that was not, and what does not concern `who` is still owed. */
  ghost predicate OwedBut(before: set<Pair>, after: set<Pair>, who: NodeId) {
    after <= before && forall q :: q in before && q.reader != who && q.owner != who ==> q in after
  }

  lemma OwedButTwice(a: set<Pair>, b: set<Pair>, c: set<Pair>, who: NodeId)
    requires OwedBut(a, b, who) && OwedBut(b, c, who)
    ensures OwedBut(a, c, who)
  {
  }

  /** One node forgets another. */
  lemma ForgetStands<S(!new), V(!new)>(
      r: Record<S, V>, nodes: Nodes<S, V>, queue: seq<T.InFlight>, s: Setting<V>, id: NodeId, who: NodeId, t: Time)
      returns (r': Record<S, V>)
    requires Stands(r, nodes, queue, multiset{}, s, false, 0, 0) && id in nodes
    ensures
      Stands(r', nodes[id := nodes[id].(engine := NodeLeft(nodes[id].engine, who))], queue, multiset{}, s, false, 0, 0)
    ensures OwedBut(r.owed, r'.owed, who)
    ensures Uniform(r.labels, s.ref) ==> Uniform(r'.labels, s.ref)
  {
    r' := PlainStands(r, nodes, queue, multiset{}, s, id, Left(who), t);
    assert Sent(id, None, nodes.Keys) + multiset{} == multiset{};
  }

  method ForgetAll<S(!new), V(!new)>(
      before: Nodes<S, V>, who: NodeId, t: Time, ghost r: Record<S, V>, ghost queue: seq<T.InFlight>,
      ghost s: Setting<V>)
      returns (nodes: Nodes<S, V>, ghost r': Record<S, V>)
    requires Stands(r, before, queue, multiset{}, s, false, 0, 0)
    ensures Stands(r', nodes, queue, multiset{}, s, false, 0, 0) && Forgotten(before, nodes, {}, who)
    ensures OwedBut(r.owed, r'.owed, who)
    ensures Uniform(r.labels, s.ref) ==> Uniform(r'.labels, s.ref)
  {
    nodes, r' := before, r;
    var left := before.Keys;
    while left != {}
      invariant left <= before.Keys && Forgotten(before, nodes, left, who)
      invariant Stands(r', nodes, queue, multiset{}, s, false, 0, 0)
      invariant OwedBut(r.owed, r'.owed, who)
      invariant Uniform(r.labels, s.ref) ==> Uniform(r'.labels, s.ref)
      decreases left
    {
      var id :| id in left;
      OneMoreForgotten(before, nodes, left, id, who);
      ghost var was := r'.owed;
      r' := ForgetStands(r', nodes, queue, s, id, who, t);
      OwedButTwice(r.owed, was, r'.owed, who);
      nodes := nodes[id := nodes[id].(engine := NodeLeft(nodes[id].engine, who))];
      left := left - {id};
    }
  }

  lemma CrashStands<S(!new), V(!new)>(
      r: Record<S, V>, nodes: Nodes<S, V>, queue: seq<T.InFlight>, s: Setting<V>, id: NodeId) returns (r': Record<S, V>)
    requires Stands(r, nodes, queue, multiset{}, s, false, 0, 0)
    ensures Stands(r', nodes - {id}, queue, multiset{}, s, false, 0, 0)
    ensures OwedBut(r.owed, r'.owed, id)
    ensures Uniform(r.labels, s.ref) ==> Uniform(r'.labels, s.ref)
  {
    assert Inside(Standing, 0);
    if id in nodes {
      r' := TrackCrash(r, nodes, Packets(queue, s.decode) + multiset{}, s.fmt, s.ref, id);
    } else {
      r' := r;
      assert nodes - {id} == nodes;
    }
  }

  lemma PurgeStands<S(!new), V(!new)>(
      r: Record<S, V>, nodes: Nodes<S, V>, queue: seq<T.InFlight>, s: Setting<V>, id: NodeId) returns (r': Record<S, V>)
    requires Stands(r, nodes, queue, multiset{}, s, false, 0, 0)
    ensures Stands(r', nodes, T.Without(queue, id), multiset{}, s, false, 0, 0)
    ensures Uniform(r.labels, s.ref) ==> Uniform(r'.labels, s.ref)
  {
    assert Inside(Standing, 0);
    PurgeOnlyLoses(queue, id, s.decode);
    var kept := Packets(T.Without(queue, id), s.decode) + multiset{};
    assert kept <= Packets(queue, s.decode);
    r' := TrackLoss(r, nodes, Packets(queue, s.decode) + multiset{}, s.fmt, s.ref, kept);
  }
}
