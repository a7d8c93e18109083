/** The mock cluster: nodes, a transport and a clock, driven tick by tick. At every moment it
    is the last state of a run of the cluster model, so everything proved of runs holds of
    it; and without interceptors it settles within a bound that is known beforehand. */
module MockClusters {
  import opened Types
  import opened EngineSpec
  import opened Cluster
  import opened Convergence
  import opened History
  import opened Tracking
  import opened Deadlines
  import opened Rounds
  import opened Memberships
  import opened MutationLaws
  import ChangeFeed
  import T = Transports

  /** The terms of one tick: its number, whether no interceptor loses messages, whether there
      are none, and whether everything pending is to be over by a limit. */
  datatype Terms = Terms(tick: nat, kept: bool, direct: bool, timely: bool, limit: nat)

  class MockCluster<S(!new), V(!new)> {
    const transport: T.Transport
    const tickDuration: nat
    var nodes: Nodes<S, V>
    var time: Time
    var currentTick: nat
    var corruptedCount: nat

    ghost const setting: Setting<V>
    /** The run of the cluster model that has led here. */
    ghost var record: Record<S, V>

    constructor (transport: T.Transport, time: Time, tickDuration: nat, ghost setting: Setting<V>)
      requires T.Sound(transport.encode, transport.decode, []) && transport.interceptors == []
      requires transport.currentTick == 0 && transport.inFlight == [] && setting.decode == transport.decode
      ensures Valid() && nodes == map[] && record == NoRecord() && currentTick == 0
      ensures this.transport == transport && this.time == time && this.tickDuration == tickDuration
      ensures this.setting == setting
    {
      this.transport := transport;
      this.tickDuration := tickDuration;
      this.nodes := map[];
      this.time := time;
      this.currentTick := 0;
      this.corruptedCount := 0;
      this.setting := setting;
      this.record := NoRecord();
      NothingHappened<S, V>(setting.fmt);
    }

    /** The terms of the current tick, without a limit. */
    ghost function Untimed(): Terms
      reads this, transport
    {
      Terms(currentTick, T.AllKeep(transport.interceptors, transport.decode), transport.interceptors == [], false, 0)
    }

    /** The transport is in step, honest, and meets the terms. */
    ghost predicate Ready(p: Terms)
      reads this, transport
    {
      && transport.currentTick == currentTick == p.tick && transport.decode == setting.decode
      && T.Sound(transport.encode, transport.decode, transport.interceptors)
      && (p.kept <==> T.AllKeep(transport.interceptors, transport.decode))
      && (p.direct <==> transport.interceptors == []) && (p.timely ==> p.direct)
    }

    ghost predicate Valid()
      reads this, transport
    {
      && Ready(Untimed())
      && Stands(record, nodes, transport.inFlight, multiset{}, setting, false, 0, 0)
    }

    // ── Sending ──────────────────────────────────────────────────

    method BroadcastOut(from: NodeId, msg: WireMessage, ghost meant: Nodes<S, V>, ghost p: Terms)
        returns (ghost added: seq<T.InFlight>)
      requires Ready(p)
      requires Stands(record, meant, transport.inFlight, Cluster.Broadcast(from, msg, nodes.Keys) + multiset{}, setting,
                      p.timely, p.tick + 1, p.limit)
      modifies transport`inFlight, transport`messageCounter, this`record
      ensures Ready(p) && Stands(record, meant, transport.inFlight, multiset{}, setting, p.timely, p.tick + 1, p.limit)
      ensures Background(old(record), record, setting.ref, p.kept)
      ensures transport.inFlight == old(transport.inFlight) + added
      ensures T.Faithful(added, Cluster.Broadcast(from, msg, nodes.Keys), setting.decode)
    {
      ghost var queue := transport.inFlight;
      added := transport.Broadcast(from, msg, nodes.Keys);
      record := SendStands(record, meant, queue, added, Cluster.Broadcast(from, msg, nodes.Keys), multiset{}, setting,
                           p.kept, p.direct, p.timely, p.tick, p.limit);
    }

    method SendOut(
        from: NodeId, to: NodeId, msg: WireMessage, ghost meant: Nodes<S, V>, ghost unsent: multiset<Packet>,
        ghost p: Terms)
      requires Ready(p)
      requires Stands(record, meant, transport.inFlight, multiset{Packet(from, to, msg)} + unsent, setting,
                      p.timely, p.tick + 1, p.limit)
      modifies transport`inFlight, transport`messageCounter, this`record
      ensures Ready(p) && Stands(record, meant, transport.inFlight, unsent, setting, p.timely, p.tick + 1, p.limit)
      ensures Background(old(record), record, setting.ref, p.kept)
    {
      ghost var queue := transport.inFlight;
      ghost var added := transport.Send(from, to, msg);
      record := SendStands(record, meant, queue, added, multiset{Packet(from, to, msg)}, unsent, setting,
                           p.kept, p.direct, p.timely, p.tick, p.limit);
    }

    /** Route collected replies, in order. */
    method RouteAll(pending: seq<(NodeId, Action)>, ghost mail: seq<Packet>, ghost meant: Nodes<S, V>, ghost p: Terms)
      requires Ready(p) && Mails(pending, mail)
      requires Stands(record, meant, transport.inFlight, multiset(mail), setting, p.timely, p.tick + 1, p.limit)
      modifies transport`inFlight, transport`messageCounter, this`record
      ensures Ready(p) && Stands(record, meant, transport.inFlight, multiset{}, setting, p.timely, p.tick + 1, p.limit)
      ensures Background(old(record), record, setting.ref, p.kept)
    {
      var left := pending;
      ghost var unsent := mail;
      while left != []
        invariant Ready(p) && Mails(left, unsent)
        invariant Stands(record, meant, transport.inFlight, multiset(unsent), setting, p.timely, p.tick + 1, p.limit)
        invariant Background(old(record), record, setting.ref, p.kept)
        decreases |left|
      {
        NextMail(left, unsent);
        var (from, action) := left[0];
        SendOut(from, action.target, Sync(action.message), meant, multiset(unsent[1..]), p);
        left, unsent := left[1..], unsent[1..];
      }
    }

    /** Carry out one action of a node. A delayed send sends nothing yet: it becomes a timer. */
    method Route(from: NodeId, action: Action, ghost p: Terms)
      requires Ready(p)
      requires Stands(record, Timed(nodes, from, action, currentTick, tickDuration), transport.inFlight,
                      Sent(from, Some(action), nodes.Keys) + multiset{}, setting, p.timely, p.tick + 1, p.limit)
      modifies transport`inFlight, transport`messageCounter, this`record, this`nodes
      ensures Ready(p) && Stands(record, nodes, transport.inFlight, multiset{}, setting, p.timely, p.tick + 1, p.limit)
      ensures nodes == Timed(old(nodes), from, action, currentTick, tickDuration)
      ensures action.ScheduleDelayed? ==> transport.inFlight == old(transport.inFlight)
      ensures action.ScheduleDelayed? && from in old(nodes) ==>
                TimerAdded(old(nodes)[from].scheduled, nodes[from].scheduled, action.delay, action.message,
                           currentTick, tickDuration)
      ensures Background(old(record), record, setting.ref, p.kept)
    {
      if action.ScheduleDelayed? && from in nodes {
        TimedAdds(nodes, from, action, currentTick, tickDuration);
      }
      SentIs(from, action, nodes.Keys);
      match action {
        case BroadcastSync(m) => ghost var added := BroadcastOut(from, Sync(m), nodes, p);
        case SendSync(target, m) => SendOut(from, target, Sync(m), nodes, multiset{}, p);
        case ScheduleDelayed(delay, m) => Schedule(from, delay, m);
      }
    }

    /** Keep a message until its delay is over, if the node is there. */
    method Schedule(from: NodeId, delay: nat, m: SyncMessage)
      modifies this`nodes
      ensures nodes == Timed(old(nodes), from, ScheduleDelayed(delay, m), currentTick, tickDuration)
    {
      if from in nodes {
        var timer := Timer(m, currentTick + DelayTicks(delay, tickDuration));
        nodes := nodes[from := nodes[from].(scheduled := nodes[from].scheduled + [timer])];
      }
    }

    // ── Mutation and membership ──────────────────────────────────

    /** A node has mutated: put its new engine in place, and carry out what it asks for. */
    method CarryOut(id: NodeId, out: Outcome<S, V>, ghost ev: Event<S, V>)
      requires Valid() && id in nodes && HasOwn(nodes[id].engine)
      requires (ev.Mutation? || ev.DeltaMutation?) && DeltaLaw(nodes[id].engine, ev, setting.fmt)
      requires out == Step(nodes[id].engine, ev, time)
      modifies transport`inFlight, transport`messageCounter, this`record, this`nodes
      ensures Valid()
      ensures
        var next := old(nodes)[id := old(nodes)[id].(engine := out.engine)];
        nodes == if out.action.Some? then Timed(next, id, out.action.value, currentTick, tickDuration) else next
      ensures T.AllKeep(transport.interceptors, transport.decode) ==>
                record.owed == OwedAfter(old(record.owed), old(nodes), id, ev, out.action)
      ensures old(Uniform(record.labels, setting.ref)) ==> Uniform(record.labels, setting.ref)
      ensures out.action.None? || out.action.value.ScheduleDelayed? ==> transport.inFlight == old(transport.inFlight)
      ensures
        var timers := old(nodes)[id].scheduled;
        if out.action.Some? && out.action.value.ScheduleDelayed? then
          TimerAdded(timers, nodes[id].scheduled, out.action.value.delay, out.action.value.message, currentTick,
                     tickDuration)
        else nodes[id].scheduled == timers
    {
      ghost var p := Untimed();
      record := MutationStands(record, nodes, transport.inFlight, setting, id, ev, time, currentTick, tickDuration);
      ghost var keys := nodes.Keys;
      nodes := nodes[id := nodes[id].(engine := out.engine)];
      assert nodes.Keys == keys;
      if out.action.Some? {
        Route(id, out.action.value, p);
        NotTimely(record, nodes, transport.inFlight, multiset{}, setting, false, p.tick + 1, 0);
      }
    }

    /** Mutate a node's state and carry out what its engine asks for. Only what is pushed at
        once enters the queue; a delayed send becomes a timer for the first tick that its
        delay allows. */
    method Mutate(id: NodeId, mutate: S -> S, project: S -> V, urgency: Urgency)
      requires Valid() && id in nodes
      modifies transport`inFlight, transport`messageCounter, this`record, this`nodes
      ensures Valid() && HasOwn(old(nodes)[id].engine)
      ensures
        var before := old(nodes)[id];
        var value := mutate(before.engine.state.value);
        var out := EngineSpec.Mutate(before.engine, value, project(value), urgency, time);
        var next := old(nodes)[id := before.(engine := out.engine)];
        && nodes == (if out.action.Some? then Timed(next, id, out.action.value, currentTick, tickDuration) else next)
        && (T.AllKeep(transport.interceptors, transport.decode) ==>
              record.owed == OwedAfter(old(record.owed), old(nodes), id, Mutation(value, project(value), urgency),
                  out.action))
      ensures old(Uniform(record.labels, setting.ref)) ==> Uniform(record.labels, setting.ref)
      ensures !PushedNow(nodes[id].engine.cfg.strategy, urgency) ==> transport.inFlight == old(transport.inFlight)
      ensures
        var cfg, timers := nodes[id].engine.cfg, old(nodes)[id].scheduled;
        var value := mutate(old(nodes)[id].engine.state.value);
        if urgency.Delayed? then
          TimerAdded(timers, nodes[id].scheduled, urgency.delay,
                     FullSnapshot(cfg.name, cfg.id, nodes[id].engine.state.generation, cfg.wireVersion,
                                  cfg.serialize(project(value))), currentTick, tickDuration)
        else nodes[id].scheduled == timers
    {
      NodeHasOwn(record, nodes, transport.inFlight, multiset{}, setting, id);
      var value := mutate(nodes[id].engine.state.value);
      var out := EngineSpec.Mutate(nodes[id].engine, value, project(value), urgency, time);
      SnapshotRows(nodes[id].engine, value, project(value), urgency, time);
      CarryOut(id, out, Mutation(value, project(value), urgency));
    }

    /** The same with a delta, which is to turn the node's view into its new one. */
    method MutateWithDelta(id: NodeId, mutate: S -> (S, Bytes), project: S -> V, urgency: Urgency)
      requires Valid() && id in nodes
      requires
        var e := nodes[id].engine;
        var (value, delta) := mutate(e.state.value);
        HasOwn(e) ==> setting.fmt.delta(delta, e.cfg.wireVersion, e.views[e.cfg.id].value) == project(value)
      modifies transport`inFlight, transport`messageCounter, this`record, this`nodes
      ensures Valid() && HasOwn(old(nodes)[id].engine)
      ensures
        var before := old(nodes)[id];
        var (value, delta) := mutate(before.engine.state.value);
        var out := EngineSpec.MutateWithDelta(before.engine, value, project(value), delta, urgency, time);
        var next := old(nodes)[id := before.(engine := out.engine)];
        && nodes == (if out.action.Some? then Timed(next, id, out.action.value, currentTick, tickDuration) else next)
        && (T.AllKeep(transport.interceptors, transport.decode) ==>
              record.owed
              == OwedAfter(old(record.owed), old(nodes), id, DeltaMutation(value, project(value), delta, urgency),
                  out.action))
      ensures old(Uniform(record.labels, setting.ref)) ==> Uniform(record.labels, setting.ref)
      ensures !PushedNow(nodes[id].engine.cfg.strategy, urgency) ==> transport.inFlight == old(transport.inFlight)
      ensures
        var cfg, timers := nodes[id].engine.cfg, old(nodes)[id].scheduled;
        var (value, delta) := mutate(old(nodes)[id].engine.state.value);
        if urgency.Delayed? then
          TimerAdded(timers, nodes[id].scheduled, urgency.delay,
                     DeltaUpdate(cfg.name, cfg.id, nodes[id].engine.state.generation, cfg.wireVersion, delta),
                     currentTick, tickDuration)
        else nodes[id].scheduled == timers
    {
      NodeHasOwn(record, nodes, transport.inFlight, multiset{}, setting, id);
      var (value, delta) := mutate(nodes[id].engine.state.value);
      var out := EngineSpec.MutateWithDelta(nodes[id].engine, value, project(value), delta, urgency, time);
      DeltaRows(nodes[id].engine, value, project(value), delta, urgency, time);
      CarryOut(id, out, DeltaMutation(value, project(value), delta, urgency));
    }

    /** Route the greetings that a join has caused. */
    method RouteGreetings(pending: seq<(NodeId, Action)>, ghost mail: seq<Packet>, ghost meant: Nodes<S, V>)
      requires Ready(Untimed()) && Mails(pending, mail)
      requires Stands(record, meant, transport.inFlight, multiset(mail), setting, false, 0, 0)
      modifies transport`inFlight, transport`messageCounter, this`record
      ensures Ready(Untimed())
      ensures Stands(record, meant, transport.inFlight, multiset{}, setting, false, 0, 0)
      ensures Background(old(record), record, setting.ref, T.AllKeep(transport.interceptors, transport.decode))
    {
      ghost var p := Untimed();
      NowTimely(record, meant, transport.inFlight, multiset(mail), setting, false, p.tick + 1, 0);
      RouteAll(pending, mail, meant, p);
      NotTimely(record, meant, transport.inFlight, multiset{}, setting, false, p.tick + 1, 0);
    }

    /** Announce a newcomer to the nodes that are there, and collect their greetings. */
    method Announce(
        newcomer: MockNode<S, V>, view: V) returns (greetings: seq<(NodeId, Action)>, ghost mail: seq<Packet>)
      requires Valid() && newcomer.scheduled == [] && NewLife(record.state, newcomer.engine, setting.fmt)
      modifies this`record, this`nodes
      ensures Ready(Untimed()) && Mails(greetings, mail)
      ensures newcomer.engine.cfg.id !in nodes && Welcomed(old(nodes), nodes, {}, newcomer.engine.cfg.id, view, time)
      ensures
        Stands(record, nodes[newcomer.engine.cfg.id := newcomer], transport.inFlight, multiset(mail), setting,
               false, 0, 0)
      ensures record.owed == old(record.owed) + NewReader(newcomer.engine.cfg.id, nodes.Keys)
      ensures SameRelease(newcomer.engine.cfg, setting.ref) && old(Uniform(record.labels, setting.ref)) ==>
                Uniform(record.labels, setting.ref)
    {
      record := NewcomerStands(record, nodes, transport.inFlight, setting, newcomer);
      nodes, greetings, mail, record :=
        WelcomeAll(nodes, newcomer.engine.cfg.id, view, time, newcomer, record, transport.inFlight, setting);
    }

    /** Announce a newcomer to the nodes that are there, and route their greetings. */
    method Welcome(newcomer: MockNode<S, V>, view: V)
      requires Valid() && newcomer.scheduled == [] && NewLife(record.state, newcomer.engine, setting.fmt)
      modifies transport`inFlight, transport`messageCounter, this`record, this`nodes
      ensures Ready(Untimed())
      ensures newcomer.engine.cfg.id !in nodes && Welcomed(old(nodes), nodes, {}, newcomer.engine.cfg.id, view, time)
      ensures Stands(record, nodes[newcomer.engine.cfg.id := newcomer], transport.inFlight, multiset{}, setting,
                     false, 0, 0)
      ensures T.AllKeep(transport.interceptors, transport.decode) ==>
                record.owed == old(record.owed) + NewReader(newcomer.engine.cfg.id, nodes.Keys)
      ensures SameRelease(newcomer.engine.cfg, setting.ref) && old(Uniform(record.labels, setting.ref)) ==>
                Uniform(record.labels, setting.ref)
    {
      var greetings;
      ghost var mail;
      greetings, mail := Announce(newcomer, view);
      RouteGreetings(greetings, mail, nodes[newcomer.engine.cfg.id := newcomer]);
    }

    /** Announce the nodes that are there to a newcomer, add it, and route its greetings. */
    method Admit(newcomer: MockNode<S, V>, view: V) returns (ghost node: MockNode<S, V>)
      requires Ready(Untimed())
      requires newcomer.engine.cfg.id !in nodes && NoneBars(nodes, newcomer.engine.cfg.id)
      requires Stands(record, nodes[newcomer.engine.cfg.id := newcomer], transport.inFlight, multiset{}, setting,
                      false, 0, 0)
      modifies transport`inFlight, transport`messageCounter, this`record, this`nodes
      ensures Valid() && nodes == old(nodes)[newcomer.engine.cfg.id := node] && Greeted(newcomer, node, old(nodes).Keys)
      ensures T.AllKeep(transport.interceptors, transport.decode) ==>
                record.owed == old(record.owed) + NewOwner(newcomer.engine.cfg.id, old(nodes).Keys)
      ensures old(Uniform(record.labels, setting.ref)) ==> Uniform(record.labels, setting.ref)
    {
      var greeted, greetings;
      ghost var mail;
      greeted, greetings, mail, record :=
        GreetAll(newcomer, nodes.Keys, view, time, nodes, record, transport.inFlight, setting);
      nodes := nodes[newcomer.engine.cfg.id := greeted];
      node := greeted;
      RouteGreetings(greetings, mail, nodes);
    }

    /** Announce a new node to those that are there, and those to the new node. */
    method AddNode(engine: Engine<S, V>, view: V)
      requires Valid() && NewLife(record.state, engine, setting.fmt)
      modifies transport`inFlight, transport`messageCounter, this`record, this`nodes
      ensures Valid() && NodeAdded(old(nodes), nodes, engine, view, time, tickDuration)
      ensures T.AllKeep(transport.interceptors, transport.decode) ==>
                record.owed
                == old(record.owed) + NewReader(engine.cfg.id, old(nodes).Keys)
                    + NewOwner(engine.cfg.id, old(nodes).Keys)
      ensures SameRelease(engine.cfg, setting.ref) && old(Uniform(record.labels, setting.ref)) ==>
                Uniform(record.labels, setting.ref)
    {
      var newcomer := MockNode(engine, [], 0, FeedInterval(engine.cfg.strategy.batchInterval, tickDuration));
      Welcome(newcomer, view);
      ghost var others := nodes;
      WelcomedDoNotBar(old(nodes), others, engine.cfg.id, view, time);
      ghost var node := Admit(newcomer, view);
      JoinIsDone(old(nodes), others, node, engine, view, time, tickDuration);
    }

    /** Remove a node; what it sent may still arrive. */
    method RemoveNode(id: NodeId)
      requires Valid()
      modifies this`record, this`nodes
      ensures Valid() && Forgotten(old(nodes) - {id}, nodes, {}, id)
      ensures OwedBut(old(record.owed), record.owed, id)
      ensures old(Uniform(record.labels, setting.ref)) ==> Uniform(record.labels, setting.ref)
    {
      record := CrashStands(record, nodes, transport.inFlight, setting, id);
      ghost var was := record.owed;
      nodes, record := ForgetAll(nodes - {id}, id, time, record, transport.inFlight, setting);
      OwedButTwice(old(record.owed), was, record.owed, id);
    }

    /** Remove a node, with everything in flight from it or to it. */
    method RemoveNodeHard(id: NodeId)
      requires Valid()
      modifies this`record, this`nodes, transport`inFlight
      ensures Valid() && Forgotten(old(nodes) - {id}, nodes, {}, id)
      ensures transport.inFlight == T.Without(old(transport.inFlight), id)
      ensures old(Uniform(record.labels, setting.ref)) ==> Uniform(record.labels, setting.ref)
    {
      record := CrashStands(record, nodes, transport.inFlight, setting, id);
      nodes := nodes - {id};
      record := PurgeStands(record, nodes, transport.inFlight, setting, id);
      transport.DropInFlightFor(id);
      nodes, record := ForgetAll(nodes, id, time, record, transport.inFlight, setting);
    }

    // ── One tick ─────────────────────────────────────────────────

    method TakeDue(ghost p: Terms) returns (delivered: seq<Packet>)
      requires Ready(p)
      requires Stands(record, nodes, transport.inFlight, multiset{}, setting, p.timely, p.tick, p.limit)
      modifies transport`inFlight, this`corruptedCount
      ensures Ready(p) && Handling(record, nodes, transport.inFlight, delivered, [], setting, p.timely, p.tick, p.limit)
    {
      HandlingBegins(record, nodes, transport.inFlight, setting, p.timely, p.tick, p.limit);
      var corrupted;
      delivered, corrupted := transport.DeliverDue();
      corruptedCount := corruptedCount + |corrupted|;
    }

    /** Take what is due off the transport and hand it to the nodes. */
    method HandleDue(ghost p: Terms) returns (pending: seq<(NodeId, Action)>, ghost mail: seq<Packet>)
      requires Ready(p)
      requires Stands(record, nodes, transport.inFlight, multiset{}, setting, p.timely, p.tick, p.limit)
      modifies transport`inFlight, this`record, this`nodes, this`corruptedCount
      ensures Ready(p) && Mails(pending, mail) && Alike(old(nodes), nodes)
      ensures Stands(record, nodes, transport.inFlight, multiset(mail), setting, p.timely, p.tick + 1, p.limit)
      ensures Background(old(record), record, setting.ref, true)
    {
      var delivered := TakeDue(p);
      nodes, pending, mail, record :=
        HandleAll(nodes, delivered, time, record, transport.inFlight, setting, p.timely, p.tick, p.limit);
    }

    /** Deliver what is due, and then route the replies. */
    method DeliverPhase(ghost p: Terms)
      requires Ready(p)
      requires Stands(record, nodes, transport.inFlight, multiset{}, setting, p.timely, p.tick, p.limit)
      modifies transport`inFlight, transport`messageCounter, this`record, this`nodes, this`corruptedCount
      ensures Ready(p) && Stands(record, nodes, transport.inFlight, multiset{}, setting, p.timely, p.tick + 1, p.limit)
      ensures Alike(old(nodes), nodes)
      ensures Background(old(record), record, setting.ref, p.kept)
    {
      var pending;
      ghost var mail;
      pending, mail := HandleDue(p);
      RouteAll(pending, mail, nodes, p);
    }

    /** Broadcast the first due message of a node. */
    method FireNext(id: NodeId, due: seq<Timer>, ghost later: seq<Timer>, ghost before: Nodes<S, V>, ghost p: Terms)
      requires Ready(p) && id in before && nodes.Keys == before.Keys && due != []
      requires
        Stands(record, before[id := before[id].(scheduled := later + due)], transport.inFlight, multiset{}, setting,
               p.timely, p.tick + 1, p.limit)
      requires p.timely ==> AllTimersBy(due, p.tick + 1, p.limit)
      requires due[0] in before[id].scheduled && due[0].deliverAt <= p.tick
      modifies transport`inFlight, transport`messageCounter, this`record
      ensures Ready(p)
      ensures
        Stands(record, before[id := before[id].(scheduled := later + due[1..])], transport.inFlight, multiset{},
               setting, p.timely, p.tick + 1, p.limit)
      ensures Background(old(record), record, setting.ref, p.kept)
      ensures GainsDue(old(transport.inFlight), transport.inFlight, setting.decode, before, p.tick)
    {
      record := FireStands(record, before, transport.inFlight, setting, p.timely, p.tick, p.limit, id, due, later);
      ghost var meant := before[id := before[id].(scheduled := later + due[1..])];
      ghost var added := BroadcastOut(id, Sync(due[0].message), meant, p);
      BroadcastGains(old(transport.inFlight), added, setting.decode, before, p.tick, id, due[0], nodes.Keys);
    }

    /** Broadcast the due messages of a node, one after the other. */
    method FireAll(id: NodeId, dueTimers: seq<Timer>, ghost before: Nodes<S, V>, ghost p: Terms)
      requires Ready(p) && id in nodes && id in before && nodes.Keys == before.Keys
      requires
        Stands(record, before[id := before[id].(scheduled := nodes[id].scheduled + dueTimers)], transport.inFlight,
               multiset{}, setting, p.timely, p.tick + 1, p.limit)
      requires p.timely ==> AllTimersBy(dueTimers, p.tick + 1, p.limit)
      requires forall x :: x in dueTimers ==> x in before[id].scheduled && x.deliverAt <= p.tick
      modifies transport`inFlight, transport`messageCounter, this`record
      ensures Ready(p)
      ensures GainsDue(old(transport.inFlight), transport.inFlight, setting.decode, before, p.tick)
      ensures
        Stands(record, before[id := before[id].(scheduled := nodes[id].scheduled)], transport.inFlight, multiset{},
               setting, p.timely, p.tick + 1, p.limit)
      ensures Background(old(record), record, setting.ref, p.kept)
    {
      ghost var later := nodes[id].scheduled;
      var due := dueTimers;
      NothingGained(transport.inFlight, setting.decode, before, p.tick);
      while due != []
        invariant forall x :: x in due ==> x in before[id].scheduled && x.deliverAt <= p.tick
        invariant GainsDue(old(transport.inFlight), transport.inFlight, setting.decode, before, p.tick)
        invariant Ready(p)
        invariant Stands(record, before[id := before[id].(scheduled := later + due)], transport.inFlight, multiset{},
                         setting, p.timely, p.tick + 1, p.limit)
        invariant p.timely ==> AllTimersBy(due, p.tick + 1, p.limit)
        invariant Background(old(record), record, setting.ref, p.kept)
        decreases |due|
      {
        ghost var queue := transport.inFlight;
        FireNext(id, due, later, before, p);
        GainsTwice(old(transport.inFlight), queue, transport.inFlight, setting.decode, before, p.tick);
        due := due[1..];
      }
      assert later + [] == later;
    }

    /** Carry out a node's due timers. */
    method FireDue(id: NodeId, ghost p: Terms)
      requires Ready(p) && id in nodes
      requires Stands(record, nodes, transport.inFlight, multiset{}, setting, p.timely, p.tick + 1, p.limit)
      requires p.timely ==> TimersBy(nodes[id].scheduled, p.tick, p.limit)
      modifies transport`inFlight, transport`messageCounter, this`record, this`nodes
      ensures Ready(p) && Stands(record, nodes, transport.inFlight, multiset{}, setting, p.timely, p.tick + 1, p.limit)
      ensures nodes == old(nodes)[id := old(nodes)[id].(scheduled := LaterTimers(old(nodes)[id].scheduled, p.tick))]
      ensures GainsDue(old(transport.inFlight), transport.inFlight, setting.decode, old(nodes), p.tick)
      ensures Background(old(record), record, setting.ref, p.kept)
    {
      var due, later := SplitTimers(nodes[id].scheduled, currentTick);
      TimersSorted(nodes[id].scheduled, p.tick);
      FiringBegins(record, nodes, transport.inFlight, setting, p.timely, p.tick, p.limit, id, due, later);
      ghost var before := nodes;
      nodes := nodes[id := nodes[id].(scheduled := later)];
      assert nodes.Keys == before.Keys;
      FireAll(id, due, before, p);
    }

    /** Drain a node's feed into one batch, and broadcast it. */
    method FlushFeed(id: NodeId, ghost p: Terms)
      requires Ready(p) && id in nodes && nodes[id].engine.feed != map[]
      requires Stands(record, nodes, transport.inFlight, multiset{}, setting, p.timely, p.tick + 1, p.limit)
      requires p.timely ==> p.tick + 2 <= p.limit
      modifies transport`inFlight, transport`messageCounter, this`record, this`nodes
      ensures Ready(p) && Stands(record, nodes, transport.inFlight, multiset{}, setting, p.timely, p.tick + 1, p.limit)
      ensures nodes == old(nodes)[id := old(nodes)[id].(engine := FeedFlushed(old(nodes)[id].engine), feedCounter := 0)]
      ensures Background(old(record), record, setting.ref, p.kept)
    {
      var notes := ChangeFeed.Drain(nodes[id].engine.feed);
      record := FlushStands(record, nodes, transport.inFlight, setting, p.timely, p.tick, p.limit, id, notes);
      ghost var keys := nodes.Keys;
      nodes := nodes[id := nodes[id].(engine := FeedFlushed(nodes[id].engine), feedCounter := 0)];
      assert nodes.Keys == keys;
      ghost var added := BroadcastOut(id, Feed(Batch(id, notes)), nodes, p);
    }

    /** Count a tick against a node's feed, and flush it when its interval is over. */
    method TickFeed(id: NodeId, ghost p: Terms)
      requires Ready(p) && id in nodes
      requires Stands(record, nodes, transport.inFlight, multiset{}, setting, p.timely, p.tick + 1, p.limit)
      requires p.timely && nodes[id].engine.feed != map[] ==> p.tick + 2 <= p.limit
      modifies transport`inFlight, transport`messageCounter, this`record, this`nodes
      ensures Ready(p) && Stands(record, nodes, transport.inFlight, multiset{}, setting, p.timely, p.tick + 1, p.limit)
      ensures nodes == old(nodes)[id := FeedTicked(old(nodes)[id])]
      ensures Background(old(record), record, setting.ref, p.kept)
    {
      var n := nodes[id];
      if n.engine.feed != map[] && n.feedInterval <= n.feedCounter + 1 {
        FlushFeed(id, p);
      } else {
        var counter := if n.engine.feed == map[] then 0 else n.feedCounter + 1;
        CountStands(record, nodes, transport.inFlight, setting, p.timely, p.tick + 1, p.limit, id, counter);
        nodes := nodes[id := n.(feedCounter := counter)];
      }
    }

    /** Every node's due timers fire, and no others: nothing else enters the queue. */
    method TimerPhase(ghost p: Terms)
      requires Ready(p)
      requires Stands(record, nodes, transport.inFlight, multiset{}, setting, p.timely, p.tick + 1, p.limit)
      requires p.timely ==> MidTick(nodes, p.tick, p.tick, p.limit)
      modifies transport`inFlight, transport`messageCounter, this`record, this`nodes
      ensures Ready(p) && Stands(record, nodes, transport.inFlight, multiset{}, setting, p.timely, p.tick + 1, p.limit)
      ensures Fired(old(nodes), nodes, {}, p.tick)
      ensures GainsDue(old(transport.inFlight), transport.inFlight, setting.decode, old(nodes), p.tick)
      ensures Background(old(record), record, setting.ref, p.kept)
    {
      var left := nodes.Keys;
      NoneFired(nodes, p.tick);
      NothingGained(transport.inFlight, setting.decode, nodes, p.tick);
      while left != {}
        invariant Ready(p) && left <= nodes.Keys
        invariant Stands(record, nodes, transport.inFlight, multiset{}, setting, p.timely, p.tick + 1, p.limit)
        invariant Fired(old(nodes), nodes, left, p.tick)
        invariant GainsDue(old(transport.inFlight), transport.inFlight, setting.decode, old(nodes), p.tick)
        invariant Background(old(record), record, setting.ref, p.kept)
        decreases left
      {
        var id :| id in left;
        OneMoreFired(old(nodes), nodes, left, id, p.timely, p.tick, p.limit);
        ghost var queue, now := transport.inFlight, nodes;
        FireDue(id, p);
        FiredGains(old(nodes), now, left, p.tick, queue, transport.inFlight, setting.decode);
        GainsTwice(old(transport.inFlight), queue, transport.inFlight, setting.decode, old(nodes), p.tick);
        left := left - {id};
      }
    }

    method FeedPhase(ghost p: Terms)
      requires Ready(p)
      requires Stands(record, nodes, transport.inFlight, multiset{}, setting, p.timely, p.tick + 1, p.limit)
      requires p.timely ==> MidTick(nodes, p.tick + 1, p.tick, p.limit)
      modifies transport`inFlight, transport`messageCounter, this`record, this`nodes
      ensures Ready(p) && Stands(record, nodes, transport.inFlight, multiset{}, setting, p.timely, p.tick + 1, p.limit)
      ensures Fed(old(nodes), nodes, {})
      ensures Background(old(record), record, setting.ref, p.kept)
    {
      var left := nodes.Keys;
      NoneFired(nodes, p.tick);
      while left != {}
        invariant Ready(p) && left <= nodes.Keys
        invariant Stands(record, nodes, transport.inFlight, multiset{}, setting, p.timely, p.tick + 1, p.limit)
        invariant Fed(old(nodes), nodes, left)
        invariant Background(old(record), record, setting.ref, p.kept)
        decreases left
      {
        var id :| id in left;
        OneMoreFed(old(nodes), nodes, left, id, p.timely, p.tick, p.limit);
        TickFeed(id, p);
        left := left - {id};
      }
    }

    /** There are no interceptors, and everything pending is over by the limit. */
    ghost predicate By(limit: nat)
      reads this, transport
    {
      && transport.interceptors == []
      && QueueBy(transport.inFlight, setting.decode, currentTick, limit) && NodesBy(nodes, currentTick, limit)
    }

    method DeliverAndFire(ghost p: Terms)
      requires Ready(p)
      requires Stands(record, nodes, transport.inFlight, multiset{}, setting, p.timely, p.tick, p.limit)
      requires p.timely ==> NodesBy(nodes, p.tick, p.limit)
      modifies transport`inFlight, transport`messageCounter, this`record, this`nodes, this`corruptedCount
      ensures Ready(p) && Stands(record, nodes, transport.inFlight, multiset{}, setting, p.timely, p.tick + 1, p.limit)
      ensures p.timely ==> MidTick(nodes, p.tick + 1, p.tick, p.limit)
      ensures SameOwners(old(nodes), nodes) && OnlyDueFired(old(nodes), nodes, p.tick)
      ensures Background(old(record), record, setting.ref, p.kept)
    {
      DeliverPhase(p);
      ghost var n1 := nodes;
      DeliveryIsTimely(old(nodes), n1, p.timely, p.tick, p.limit);
      TimerPhase(p);
      FiringIsTimely(n1, nodes, p.timely, p.tick, p.limit);
      DeliveryKeepsOwners(old(nodes), n1, nodes, p.tick);
      PhasesFireDue(old(nodes), n1, nodes, p.tick);
    }

    /** Everything in a tick but the clock: deliveries and their replies, timers, feeds. */
    method RunPhases(ghost p: Terms)
      requires Ready(p)
      requires Stands(record, nodes, transport.inFlight, multiset{}, setting, p.timely, p.tick, p.limit)
      requires p.timely ==> NodesBy(nodes, p.tick, p.limit)
      modifies transport`inFlight, transport`messageCounter, this`record, this`nodes, this`corruptedCount
      ensures Ready(p) && Stands(record, nodes, transport.inFlight, multiset{}, setting, p.timely, p.tick + 1, p.limit)
      ensures p.timely ==> NodesBy(nodes, p.tick + 1, p.limit)
      ensures SameOwners(old(nodes), nodes) && OnlyDueFired(old(nodes), nodes, p.tick)
      ensures Background(old(record), record, setting.ref, p.kept)
    {
      DeliverAndFire(p);
      ghost var before := nodes;
      FeedPhase(p);
      FeedIsTimely(before, nodes, p.timely, p.tick, p.limit);
      FeedsKeepOwners(old(nodes), before, nodes);
      FeedsFireNothing(old(nodes), before, nodes, p.tick);
    }

    /** The phases of a tick, with what holds of all cluster states before and after. */
    method RunTick(ghost p: Terms)
      requires Ready(p) && Stands(record, nodes, transport.inFlight, multiset{}, setting, false, 0, 0)
      requires p.timely ==>
               QueueBy(transport.inFlight, setting.decode, p.tick, p.limit) && NodesBy(nodes, p.tick, p.limit)
      modifies transport`inFlight, transport`messageCounter, this`record, this`nodes, this`corruptedCount
      ensures Ready(p) && Stands(record, nodes, transport.inFlight, multiset{}, setting, false, 0, 0)
      ensures p.timely ==>
                QueueBy(transport.inFlight, setting.decode, p.tick + 1, p.limit) && NodesBy(nodes, p.tick + 1, p.limit)
      ensures SameOwners(old(nodes), nodes) && OnlyDueFired(old(nodes), nodes, p.tick)
      ensures Background(old(record), record, setting.ref, p.kept)
    {
      NowTimely(record, nodes, transport.inFlight, multiset{}, setting, p.timely, p.tick, p.limit);
      RunPhases(p);
      QueueInTime(record, nodes, transport.inFlight, setting, p.timely, p.tick + 1, p.limit);
      NotTimely(record, nodes, transport.inFlight, multiset{}, setting, p.timely, p.tick + 1, p.limit);
    }

    /** One tick: the phases, and then the clock. */
    method Tick(ghost limit: nat)
      requires Valid()
      modifies this`record, this`nodes, this`time, this`currentTick, this`corruptedCount
      modifies transport`inFlight, transport`messageCounter, transport`currentTick
      ensures Valid() && currentTick == old(currentTick) + 1
      ensures time == Time(old(time).now + tickDuration, old(time).unixMs + tickDuration)
      ensures SameOwners(old(nodes), nodes) && OnlyDueFired(old(nodes), nodes, old(currentTick))
      ensures old(By(limit)) ==> By(limit)
      ensures Background(old(record), record, setting.ref, T.AllKeep(transport.interceptors, transport.decode))
    {
      ghost var p := Untimed().(timely := By(limit), limit := limit);
      RunTick(p);
      AdvanceClocks();
    }

    /** The time moves on by one tick, for the cluster and for the transport. */
    method AdvanceClocks()
      requires transport.currentTick == currentTick
      modifies this`time, this`currentTick, transport`currentTick
      ensures transport.currentTick == currentTick == old(currentTick) + 1
      ensures time == Time(old(time).now + tickDuration, old(time).unixMs + tickDuration)
    {
      time := Time(time.now + tickDuration, time.unixMs + tickDuration);
      transport.AdvanceTick();
      currentTick := currentTick + 1;
    }

    /** One tick more since the nodes and the run were as in `start` and `first`. */
    method TickAgain(ghost start: Nodes<S, V>, ghost first: Record<S, V>, ghost limit: nat)
      requires Valid() && SameOwners(start, nodes) && NoneEarly(start, nodes, currentTick)
      requires Background(first, record, setting.ref, T.AllKeep(transport.interceptors, transport.decode))
      modifies this`record, this`nodes, this`time, this`currentTick, this`corruptedCount
      modifies transport`inFlight, transport`messageCounter, transport`currentTick
      ensures Valid() && currentTick == old(currentTick) + 1
      ensures SameOwners(start, nodes) && NoneEarly(start, nodes, currentTick)
      ensures old(By(limit)) ==> By(limit)
      ensures Background(first, record, setting.ref, T.AllKeep(transport.interceptors, transport.decode))
    {
      ghost var was, now, tick := record, nodes, currentTick;
      Tick(limit);
      TickPassed(start, now, nodes, tick, first, was, record, setting.ref,
                 T.AllKeep(transport.interceptors, transport.decode));
    }

    /** Nothing is in flight, scheduled, or waiting in a feed. */
    method IsSettled() returns (settled: bool)
      ensures settled <==> IsQuiet(nodes, transport.inFlight)
    {
      settled :=
        && transport.inFlight == []
        && forall id | id in nodes :: nodes[id].scheduled == [] && nodes[id].engine.feed == map[];
    }

    /** Tick until settled, or until the ticks are used up. */
    method TickUntilSettled(maxTicks: nat, ghost limit: nat) returns (r: Option<nat>)
      requires Valid()
      modifies this`record, this`nodes, this`time, this`currentTick, this`corruptedCount
      modifies transport`inFlight, transport`messageCounter, transport`currentTick
      ensures Valid() && SameOwners(old(nodes), nodes) && NoneEarly(old(nodes), nodes, currentTick)
      ensures r.Some? <==> IsQuiet(nodes, transport.inFlight)
      ensures currentTick == old(currentTick) + if r.Some? then r.value else maxTicks
      ensures r.Some? ==> r.value <= maxTicks
      ensures old(By(limit)) && old(currentTick) <= limit <= old(currentTick) + maxTicks ==>
              r.Some? && currentTick <= limit
      ensures Background(old(record), record, setting.ref, T.AllKeep(transport.interceptors, transport.decode))
    {
      ghost var timely := By(limit) && currentTick <= limit;
      r := Some(0);
      var settled := IsSettled();
      NoneYet(nodes, currentTick);
      while !settled && r.value < maxTicks
        invariant Valid() && SameOwners(old(nodes), nodes) && NoneEarly(old(nodes), nodes, currentTick)
        invariant transport.interceptors == old(transport.interceptors)
        invariant r.Some? && r.value <= maxTicks && currentTick == old(currentTick) + r.value
        invariant settled <==> IsQuiet(nodes, transport.inFlight)
        invariant timely ==> By(limit) && currentTick <= limit
        invariant Background(old(record), record, setting.ref, T.AllKeep(transport.interceptors, transport.decode))
        decreases maxTicks - r.value
      {
        NotYetQuiet(limit);
        TickAgain(old(nodes), old(record), limit);
        r := Some(r.value + 1);
        settled := IsSettled();
      }
      NotYetQuiet(limit);
      if !settled {
        r := None;
      }
    }

    lemma NotYetQuiet(limit: nat)
      ensures By(limit) && !IsQuiet(nodes, transport.inFlight) ==> currentTick < limit
    {
      if By(limit) && limit <= currentTick {
        LimitIsQuiet(nodes, transport.inFlight, setting.decode, currentTick, limit);
      }
    }

    /** Tick until settled; the source panics when the limit is exceeded, which is None. */
    method SettleWithLimit(maxTicks: nat, ghost d: nat, ghost f: nat) returns (r: Option<nat>)
      requires Valid()
      modifies this`record, this`nodes, this`time, this`currentTick, this`corruptedCount
      modifies transport`inFlight, transport`messageCounter, transport`currentTick
      ensures Valid() && SameOwners(old(nodes), nodes) && NoneEarly(old(nodes), nodes, currentTick)
      ensures r.Some? <==> IsQuiet(nodes, transport.inFlight)
      ensures currentTick == old(currentTick) + if r.Some? then r.value else maxTicks
      ensures r.Some? ==> r.value <= maxTicks
      ensures transport.interceptors == [] && old(Within(nodes, transport.inFlight, currentTick, d, f))
              && SettlingBound(d, f) <= maxTicks ==>
                r.Some? && r.value <= SettlingBound(d, f)
      ensures Background(old(record), record, setting.ref, T.AllKeep(transport.interceptors, transport.decode))
      ensures r.Some? && Uniform(record.labels, setting.ref) && RoundTrips(setting.ref) ==>
                forall q :: q in record.owed ==> InSync(nodes, q)
    {
      if Within(nodes, transport.inFlight, currentTick, d, f) {
        WithinIsBy(nodes, transport.inFlight, setting.decode, currentTick, d, f);
      }
      r := TickUntilSettled(maxTicks, currentTick + SettlingBound(d, f));
      if r.Some? {
        QuietAllInSync(record, nodes, transport.inFlight, setting);
      }
    }
  }
}
