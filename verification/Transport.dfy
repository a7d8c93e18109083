/** The mock transport: a queue of encoded messages with delivery ticks, fed through a chain
    of interceptors that may drop, delay, duplicate or damage messages. */
module Transports {
  import opened Types
  import Cluster

  datatype InFlight = InFlight(from: NodeId, to: NodeId, data: Bytes, deliverAt: nat)

  datatype InterceptAction =
    | Deliver(data: Bytes)
    | Drop
    | Delay(data: Bytes, ticks: nat)
    | DeliverMany(copies: seq<Bytes>)

  /** What an interceptor may base its decision on. An interceptor with state of its own is a
      function of the invocation, which the message id and the copy's position identify. */
  datatype Context = Context(tick: nat, messageId: nat, seed: nat, copy: nat)

  type Interceptor = (NodeId, NodeId, Bytes, Context) -> InterceptAction

  // ── The interceptor chain ──────────────────────────────────────

  /** What an action passes on to the next interceptor. */
  function Onward(a: InterceptAction): seq<Bytes> {
    match a
    case Deliver(data) => [data]
    case DeliverMany(copies) => copies
    case _ => []
  }

  /** What an action delays, which no later interceptor sees. */
  function Held(a: InterceptAction): seq<InterceptAction> {
    if a.Delay? then [a] else []
  }

  /** What one interceptor passes on, of the first k pending copies. */
  function PassedOn(i: Interceptor, from: NodeId, to: NodeId, pending: seq<Bytes>, ctx: Context, k: nat): seq<Bytes>
    requires k <= |pending|
  {
    if k == 0 then []
    else PassedOn(i, from, to, pending, ctx, k - 1) + Onward(i(from, to, pending[k - 1], ctx.(copy := k - 1)))
  }

  /** What one interceptor delays, of the first k pending copies. */
  function HeldBack(
      i: Interceptor, from: NodeId, to: NodeId, pending: seq<Bytes>, ctx: Context, k: nat): seq<InterceptAction>
    requires k <= |pending|
  {
    if k == 0 then []
    else HeldBack(i, from, to, pending, ctx, k - 1) + Held(i(from, to, pending[k - 1], ctx.(copy := k - 1)))
  }

  function Chain(
      chain: seq<Interceptor>, from: NodeId, to: NodeId, pending: seq<Bytes>, ctx: Context): seq<InterceptAction>
    decreases |chain|
  {
    if chain == [] then seq(|pending|, k requires 0 <= k < |pending| => Deliver(pending[k]))
    else HeldBack(chain[0], from, to, pending, ctx, |pending|)
         + Chain(chain[1..], from, to, PassedOn(chain[0], from, to, pending, ctx, |pending|), ctx)
  }

  // ── The queue ──────────────────────────────────────────────────

  /** The copies one action puts in the queue. Extra delay is added to the one-tick latency. */
  function Copies(a: InterceptAction, from: NodeId, to: NodeId, tick: nat): seq<InFlight> {
    match a
    case Deliver(data) => [InFlight(from, to, data, tick + 1)]
    case Drop => []
    case Delay(data, ticks) => [InFlight(from, to, data, tick + 1 + ticks)]
    case DeliverMany(copies) => seq(|copies|, k requires 0 <= k < |copies| => InFlight(from, to, copies[k], tick + 1))
  }

  function AllCopies(actions: seq<InterceptAction>, from: NodeId, to: NodeId, tick: nat): seq<InFlight>
    decreases |actions|
  {
    if actions == [] then []
    else AllCopies(actions[..|actions| - 1], from, to, tick) + Copies(actions[|actions| - 1], from, to, tick)
  }

  function Due(queue: seq<InFlight>, tick: nat): seq<InFlight> {
    if queue == [] then []
    else Due(queue[..|queue| - 1], tick) + if queue[|queue| - 1].deliverAt <= tick then [queue[|queue| - 1]] else []
  }

  function Waiting(queue: seq<InFlight>, tick: nat): seq<InFlight> {
    if queue == [] then []
    else Waiting(queue[..|queue| - 1], tick) + if queue[|queue| - 1].deliverAt <= tick then [] else [queue[|queue| - 1]]
  }

  /** The queue without any message from or to a node. */
  function Without(queue: seq<InFlight>, id: NodeId): seq<InFlight> {
    if queue == [] then []
    else
      var m := queue[|queue| - 1];
      Without(queue[..|queue| - 1], id) + if m.from != id && m.to != id then [m] else []
  }

  /** The readable packets of a queue, decoded. */
  function Readable(queue: seq<InFlight>, decode: Bytes -> Option<WireMessage>): seq<Packet> {
    if queue == [] then []
    else
      var m := queue[|queue| - 1];
      Readable(queue[..|queue| - 1], decode)
      + if decode(m.data).Some? then [Packet(m.from, m.to, decode(m.data).value)] else []
  }

  /** The links of the messages in a queue that cannot be decoded. */
  function Damaged(queue: seq<InFlight>, decode: Bytes -> Option<WireMessage>): seq<(NodeId, NodeId)> {
    if queue == [] then []
    else
      var m := queue[|queue| - 1];
      Damaged(queue[..|queue| - 1], decode) + if decode(m.data).None? then [(m.from, m.to)] else []
  }

  // ── Honest interceptors ────────────────────────────────────────

  /** Bytes that are damaged, or still mean what the original means. */
  predicate Genuine(data: Bytes, original: Bytes, decode: Bytes -> Option<WireMessage>) {
    decode(data) == None || decode(data) == decode(original)
  }

  predicate GenuineAction(a: InterceptAction, original: Bytes, decode: Bytes -> Option<WireMessage>) {
    match a
    case Deliver(data) => Genuine(data, original, decode)
    case Drop => true
    case Delay(data, _) => Genuine(data, original, decode)
    case DeliverMany(copies) => forall k :: 0 <= k < |copies| ==> Genuine(copies[k], original, decode)
  }

  /** An interceptor that may lose, delay, repeat and damage messages, but never turns one
      message into another. */
  ghost predicate Honest(i: Interceptor, decode: Bytes -> Option<WireMessage>) {
    forall from, to, data, ctx :: GenuineAction(i(from, to, data, ctx), data, decode)
  }

  /** Every message survives encoding, and no interceptor forges messages. */
  ghost predicate Sound(
      encode: WireMessage -> Bytes, decode: Bytes -> Option<WireMessage>, chain: seq<Interceptor>) {
    forall k: nat {:trigger Inside(Soundness, k)} :: Inside(Soundness, k) ==>
      && (forall m :: decode(encode(m)) == Some(m))
      && (forall i :: i in chain ==> Honest(i, decode))
  }

  /** The action passes at least one copy on, now or later, that still means the original. */
  predicate KeepsAction(a: InterceptAction, original: Bytes, decode: Bytes -> Option<WireMessage>) {
    match a
    case Deliver(data) => decode(data) == decode(original)
    case Drop => false
    case Delay(data, _) => decode(data) == decode(original)
    case DeliverMany(copies) => exists k :: 0 <= k < |copies| && decode(copies[k]) == decode(original)
  }

  /** An interceptor that delays and repeats messages, but never loses one. */
  ghost predicate Keeps(i: Interceptor, decode: Bytes -> Option<WireMessage>) {
    forall from, to, data, ctx :: KeepsAction(i(from, to, data, ctx), data, decode)
  }

  ghost predicate AllKeep(chain: seq<Interceptor>, decode: Bytes -> Option<WireMessage>) {
    forall k: nat {:trigger Inside(Keeping, k)} :: Inside(Keeping, k) ==> forall i :: i in chain ==> Keeps(i, decode)
  }

  /** All that can be read from these copies is packets of this multiset. */
  ghost predicate Faithful(added: seq<InFlight>, packets: multiset<Packet>, decode: Bytes -> Option<WireMessage>) {
    forall p :: p in Readable(added, decode) ==> p in packets
  }

  /** These copies are exactly these packets, undamaged and due at the next tick. */
  ghost predicate Direct(
      added: seq<InFlight>, packets: multiset<Packet>, decode: Bytes -> Option<WireMessage>, tick: nat) {
    && multiset(Readable(added, decode)) == packets
    && forall k :: 0 <= k < |added| ==> added[k].deliverAt == tick + 1 && decode(added[k].data).Some?
  }

  // ── The transport ──────────────────────────────────────────────

  class Transport {
    const encode: WireMessage -> Bytes
    const decode: Bytes -> Option<WireMessage>
    const seed: nat
    var inFlight: seq<InFlight>
    var interceptors: seq<Interceptor>
    var messageCounter: nat
    var currentTick: nat

    constructor (encode: WireMessage -> Bytes, decode: Bytes -> Option<WireMessage>, seed: nat)
      ensures this.encode == encode && this.decode == decode && this.seed == seed
      ensures inFlight == [] && interceptors == [] && messageCounter == 0 && currentTick == 0
    {
      this.encode := encode;
      this.decode := decode;
      this.seed := seed;
      inFlight := [];
      interceptors := [];
      messageCounter := 0;
      currentTick := 0;
    }

    /** Run a message through all interceptors in sequence. */
    method ApplyInterceptors(
        from: NodeId, to: NodeId, bytes: Bytes, ctx: Context) returns (actions: seq<InterceptAction>)
      ensures actions == Chain(interceptors, from, to, [bytes], ctx)
    {
      var pending := [bytes];
      var finalized := [];
      var left := interceptors;
      while left != []
        invariant finalized + Chain(left, from, to, pending, ctx) == Chain(interceptors, from, to, [bytes], ctx)
        decreases |left|
      {
        var next, held := RunStage(left[0], from, to, pending, ctx);
        ghost var rest := Chain(left[1..], from, to, next, ctx);
        assert finalized + (held + rest) == (finalized + held) + rest;
        finalized := finalized + held;
        pending := next;
        left := left[1..];
      }
      actions := finalized + seq(|pending|, k requires 0 <= k < |pending| => Deliver(pending[k]));
    }

    method AddInterceptor(i: Interceptor)
      modifies this`interceptors
      ensures interceptors == old(interceptors) + [i]
    {
      interceptors := interceptors + [i];
    }

    method ClearInterceptors()
      modifies this`interceptors
      ensures interceptors == []
    {
      interceptors := [];
    }

    method Send(from: NodeId, to: NodeId, msg: WireMessage) returns (ghost added: seq<InFlight>)
      requires Sound(encode, decode, interceptors)
      modifies this`inFlight, this`messageCounter
      ensures inFlight == old(inFlight) + added
      ensures
        SentAs(added, multiset{Packet(from, to, msg)}, decode, AllKeep(interceptors, decode), interceptors == [],
            currentTick)
    {
      ghost var ctx := Context(currentTick, messageCounter, seed, 0);
      SendBytes(from, to, encode(msg));
      added := AllCopies(Chain(interceptors, from, to, [encode(msg)], ctx), from, to, currentTick);
      WhatIsSent(encode, decode, interceptors, from, to, msg, ctx);
    }

    /** Send to one node more, unless it is the sender. */
    method SendNext(
        from: NodeId, to: NodeId, msg: WireMessage,
        ghost start: seq<InFlight>, ghost before: seq<InFlight>, ghost done: set<NodeId>, ghost kept: bool)
        returns (ghost added: seq<InFlight>)
      requires Sound(encode, decode, interceptors) && inFlight == start + before && to !in done
      requires kept == AllKeep(interceptors, decode)
      requires SentTo(before, from, msg, done, decode, kept, interceptors == [], currentTick)
      modifies this`inFlight, this`messageCounter
      ensures inFlight == start + added
      ensures SentTo(added, from, msg, done + {to}, decode, kept, interceptors == [], currentTick)
    {
      assert Inside(Sending, 0);
      added := before;
      BroadcastOneMore(from, msg, done, to);
      if to != from {
        ghost var more := Send(from, to, msg);
        BothSent(before, Cluster.Broadcast(from, msg, done), more, multiset{Packet(from, to, msg)},
                 decode, kept, interceptors == [], currentTick);
        QueueGrows(start, before, more);
        added := before + more;
      }
    }

    /** Send a message to every node but its sender. */
    method Broadcast(from: NodeId, msg: WireMessage, ids: set<NodeId>) returns (ghost added: seq<InFlight>)
      requires Sound(encode, decode, interceptors)
      modifies this`inFlight, this`messageCounter
      ensures inFlight == old(inFlight) + added
      ensures
        SentAs(added, Cluster.Broadcast(from, msg, ids), decode, AllKeep(interceptors, decode), interceptors == [],
            currentTick)
    {
      added := [];
      var left := ids;
      ghost var kept := AllKeep(interceptors, decode);
      ghost var done: set<NodeId> := {};
      NothingSent(from, msg, decode, kept, interceptors == [], currentTick);
      while left != {}
        invariant done !! left && done + left == ids
        invariant inFlight == old(inFlight) + added
        invariant SentTo(added, from, msg, done, decode, kept, interceptors == [], currentTick)
        decreases left
      {
        var to :| to in left;
        added := SendNext(from, to, msg, old(inFlight), added, done, kept);
        left, done := left - {to}, done + {to};
      }
      AllSent(added, from, msg, ids, decode, kept, interceptors == [], currentTick);
    }

    method SendBytes(from: NodeId, to: NodeId, bytes: Bytes)
      modifies this`inFlight, this`messageCounter
      ensures
        var ctx := Context(currentTick, old(messageCounter), seed, 0);
        inFlight == old(inFlight) + AllCopies(Chain(interceptors, from, to, [bytes], ctx), from, to, currentTick)
      ensures messageCounter == old(messageCounter) + 1
    {
      var ctx := Context(currentTick, messageCounter, seed, 0);
      messageCounter := messageCounter + 1;
      var actions := ApplyInterceptors(from, to, bytes, ctx);
      var copies := Collect(actions, from, to, currentTick);
      inFlight := inFlight + copies;
    }

    /** Hand out what is due, in queue order, split into readable and damaged messages. */
    method DeliverDue() returns (delivered: seq<Packet>, corrupted: seq<(NodeId, NodeId)>)
      modifies this`inFlight
      ensures inFlight == Waiting(old(inFlight), currentTick)
      ensures delivered == Readable(Due(old(inFlight), currentTick), decode)
      ensures corrupted == Damaged(Due(old(inFlight), currentTick), decode)
    {
      var waiting;
      delivered, corrupted, waiting := Split(inFlight, currentTick, decode);
      inFlight := waiting;
    }

    method AdvanceTick()
      modifies this`currentTick
      ensures currentTick == old(currentTick) + 1
    {
      currentTick := currentTick + 1;
    }

    method DropInFlightFor(id: NodeId)
      modifies this`inFlight
      ensures inFlight == Without(old(inFlight), id)
    {
      var kept := [];
      for i := 0 to |inFlight|
        invariant inFlight == old(inFlight) && kept == Without(inFlight[..i], id)
      {
        assert inFlight[..i + 1][..i] == inFlight[..i];
        if inFlight[i].from != id && inFlight[i].to != id {
          kept := kept + [inFlight[i]];
        }
      }
      assert inFlight[..|inFlight|] == inFlight;
      inFlight := kept;
    }
  }

  lemma OneMoreAction(actions: seq<InterceptAction>, i: nat, from: NodeId, to: NodeId, tick: nat)
    requires i < |actions|
    ensures AllCopies(actions[..i + 1], from, to, tick)
         == AllCopies(actions[..i], from, to, tick) + Copies(actions[i], from, to, tick)
  {
    assert actions[..i + 1][..i] == actions[..i];
  }

  /** The copies that a list of actions puts into the queue. */
  method Collect(actions: seq<InterceptAction>, from: NodeId, to: NodeId, tick: nat) returns (copies: seq<InFlight>)
    ensures copies == AllCopies(actions, from, to, tick)
  {
    copies := [];
    for i := 0 to |actions|
      invariant copies == AllCopies(actions[..i], from, to, tick)
    {
      OneMoreAction(actions, i, from, to, tick);
      copies := copies + Copies(actions[i], from, to, tick);
    }
    assert actions[..|actions|] == actions;
  }

  /** What a front part of the queue has been split into. */
  ghost predicate SplitUp(
      front: seq<InFlight>, tick: nat, decode: Bytes -> Option<WireMessage>,
      delivered: seq<Packet>, corrupted: seq<(NodeId, NodeId)>, waiting: seq<InFlight>)
  {
    && waiting == Waiting(front, tick)
    && delivered == Readable(Due(front, tick), decode)
    && corrupted == Damaged(Due(front, tick), decode)
  }

  lemma OneMoreInQueue(
      queue: seq<InFlight>, m: InFlight, tick: nat, decode: Bytes -> Option<WireMessage>)
    ensures Due(queue + [m], tick) == if m.deliverAt <= tick then Due(queue, tick) + [m] else Due(queue, tick)
    ensures Waiting(queue + [m], tick)
         == if m.deliverAt <= tick then Waiting(queue, tick) else Waiting(queue, tick) + [m]
    ensures Readable(queue + [m], decode)
         == if decode(m.data).Some? then Readable(queue, decode) + [Packet(m.from, m.to, decode(m.data).value)]
            else Readable(queue, decode)
    ensures Damaged(queue + [m], decode)
         == if decode(m.data).None? then Damaged(queue, decode) + [(m.from, m.to)] else Damaged(queue, decode)
  {
    assert (queue + [m])[..|queue|] == queue;
  }

  /** One message more at the end of the front part. */
  lemma SplitOneMore(
      front: seq<InFlight>, m: InFlight, tick: nat, decode: Bytes -> Option<WireMessage>,
      delivered: seq<Packet>, corrupted: seq<(NodeId, NodeId)>, waiting: seq<InFlight>)
    requires SplitUp(front, tick, decode, delivered, corrupted, waiting)
    ensures m.deliverAt > tick ==> SplitUp(front + [m], tick, decode, delivered, corrupted, waiting + [m])
    ensures m.deliverAt <= tick && decode(m.data).Some? ==>
              SplitUp(front + [m], tick, decode, delivered + [Packet(m.from, m.to, decode(m.data).value)], corrupted,
                  waiting)
    ensures m.deliverAt <= tick && decode(m.data).None? ==>
              SplitUp(front + [m], tick, decode, delivered, corrupted + [(m.from, m.to)], waiting)
  {
    OneMoreInQueue(front, m, tick, decode);
    OneMoreInQueue(Due(front, tick), m, tick, decode);
  }

  /** Pop a queue from the front: what is due is decoded, the rest keeps its order. */
  method Split(inFlight: seq<InFlight>, tick: nat, decode: Bytes -> Option<WireMessage>)
      returns (delivered: seq<Packet>, corrupted: seq<(NodeId, NodeId)>, waiting: seq<InFlight>)
    ensures SplitUp(inFlight, tick, decode, delivered, corrupted, waiting)
  {
    delivered, corrupted, waiting := [], [], [];
    var queue := inFlight;
    ghost var front := [];
    while queue != []
      invariant front + queue == inFlight
      invariant SplitUp(front, tick, decode, delivered, corrupted, waiting)
      decreases |queue|
    {
      var m := queue[0];
      SplitOneMore(front, m, tick, decode, delivered, corrupted, waiting);
      if m.deliverAt <= tick {
        match decode(m.data) {
          case Some(message) => delivered := delivered + [Packet(m.from, m.to, message)];
          case None => corrupted := corrupted + [(m.from, m.to)];
        }
      } else {
        waiting := waiting + [m];
      }
      FrontMoves(front, queue);
      front, queue := front + [m], queue[1..];
    }
    assert front == inFlight;
  }

  lemma FrontMoves(front: seq<InFlight>, queue: seq<InFlight>)
    requires queue != []
    ensures front + [queue[0]] + queue[1..] == front + queue
  {
  }

  /** Show every pending copy to one interceptor. */
  method RunStage(i: Interceptor, from: NodeId, to: NodeId, pending: seq<Bytes>, ctx: Context)
      returns (next: seq<Bytes>, held: seq<InterceptAction>)
    ensures next == PassedOn(i, from, to, pending, ctx, |pending|)
    ensures held == HeldBack(i, from, to, pending, ctx, |pending|)
  {
    next, held := [], [];
    for k := 0 to |pending|
      invariant next == PassedOn(i, from, to, pending, ctx, k)
      invariant held == HeldBack(i, from, to, pending, ctx, k)
    {
      match i(from, to, pending[k], ctx.(copy := k)) {
        case Deliver(data) => next := next + [data];
        case Drop =>
        case Delay(data, ticks) => held := held + [Delay(data, ticks)];
        case DeliverMany(copies) => next := next + copies;
      }
    }
  }

  // ── What a send puts in the queue ──────────────────────────────

  lemma {:induction false} ReadableAppend(a: seq<InFlight>, b: seq<InFlight>, decode: Bytes -> Option<WireMessage>)
    ensures Readable(a + b, decode) == Readable(a, decode) + Readable(b, decode)
  {
    if b == [] {
      assert a + b == a;
    } else {
      assert (a + b)[..|a + b| - 1] == a + b[..|b| - 1];
      ReadableAppend(a, b[..|b| - 1], decode);
    }
  }

  /** What sending some packets has put in the queue. */
  ghost predicate SentAs(
      added: seq<InFlight>, packets: multiset<Packet>, decode: Bytes -> Option<WireMessage>,
      kept: bool, direct: bool, tick: nat)
  {
    && Faithful(added, packets, decode)
    && (kept ==> packets <= multiset(Readable(added, decode)))
    && (direct ==> Direct(added, packets, decode, tick))
  }

  ghost predicate SentTo(
      added: seq<InFlight>, from: NodeId, msg: WireMessage, ids: set<NodeId>,
      decode: Bytes -> Option<WireMessage>, kept: bool, direct: bool, tick: nat)
  {
    forall k: nat {:trigger Inside(Sending, k)} :: Inside(Sending, k) ==>
      SentAs(added, Cluster.Broadcast(from, msg, ids), decode, kept, direct, tick)
  }

  lemma NothingSent(
      from: NodeId, msg: WireMessage, decode: Bytes -> Option<WireMessage>, kept: bool, direct: bool, tick: nat)
    ensures SentTo([], from, msg, {}, decode, kept, direct, tick)
  {
    assert Cluster.Broadcast(from, msg, {}) == multiset{};
  }

  lemma AllSent(
      added: seq<InFlight>, from: NodeId, msg: WireMessage, ids: set<NodeId>,
      decode: Bytes -> Option<WireMessage>, kept: bool, direct: bool, tick: nat)
    requires SentTo(added, from, msg, ids, decode, kept, direct, tick)
    ensures SentAs(added, Cluster.Broadcast(from, msg, ids), decode, kept, direct, tick)
  {
    assert Inside(Sending, 0);
  }

  lemma QueueGrows(queue: seq<InFlight>, added: seq<InFlight>, more: seq<InFlight>)
    ensures queue + added + more == queue + (added + more)
  {
  }

  lemma FaithfulBoth(
      a: seq<InFlight>, pa: multiset<Packet>, b: seq<InFlight>, pb: multiset<Packet>,
      decode: Bytes -> Option<WireMessage>)
    requires Faithful(a, pa, decode) && Faithful(b, pb, decode)
    ensures Faithful(a + b, pa + pb, decode)
  {
    ReadableAppend(a, b, decode);
  }

  lemma KeptBoth(
      a: seq<InFlight>, pa: multiset<Packet>, b: seq<InFlight>, pb: multiset<Packet>,
      decode: Bytes -> Option<WireMessage>)
    requires pa <= multiset(Readable(a, decode)) && pb <= multiset(Readable(b, decode))
    ensures pa + pb <= multiset(Readable(a + b, decode))
  {
    ReadableAppend(a, b, decode);
    var ra, rb := Readable(a, decode), Readable(b, decode);
    assert multiset(ra + rb) == multiset(ra) + multiset(rb);
  }

  lemma DirectBoth(
      a: seq<InFlight>, pa: multiset<Packet>, b: seq<InFlight>, pb: multiset<Packet>,
      decode: Bytes -> Option<WireMessage>, tick: nat)
    requires Direct(a, pa, decode, tick) && Direct(b, pb, decode, tick)
    ensures Direct(a + b, pa + pb, decode, tick)
  {
    ReadableAppend(a, b, decode);
  }

  lemma BothSent(
      a: seq<InFlight>, pa: multiset<Packet>, b: seq<InFlight>, pb: multiset<Packet>,
      decode: Bytes -> Option<WireMessage>, kept: bool, direct: bool, tick: nat)
    requires SentAs(a, pa, decode, kept, direct, tick) && SentAs(b, pb, decode, kept, direct, tick)
    ensures SentAs(a + b, pa + pb, decode, kept, direct, tick)
  {
    FaithfulBoth(a, pa, b, pb, decode);
    if kept {
      KeptBoth(a, pa, b, pb, decode);
    }
    if direct {
      DirectBoth(a, pa, b, pb, decode, tick);
    }
  }

  lemma BroadcastOneMore(from: NodeId, msg: WireMessage, done: set<NodeId>, to: NodeId)
    requires to !in done
    ensures
      Cluster.Broadcast(from, msg, done + {to})
      == Cluster.Broadcast(from, msg, done) + if to == from then multiset{} else multiset{Packet(from, to, msg)}
  {
    var before := set id | id in done && id != from :: Packet(from, id, msg);
    var after := set id | id in done + {to} && id != from :: Packet(from, id, msg);
    assert after == if to == from then before else before + {Packet(from, to, msg)};
  }

  ghost predicate AllGenuine(pending: seq<Bytes>, original: Bytes, decode: Bytes -> Option<WireMessage>) {
    forall k :: 0 <= k < |pending| ==> Genuine(pending[k], original, decode)
  }

  lemma {:induction false} StageIsGenuine(
      i: Interceptor, from: NodeId, to: NodeId, pending: seq<Bytes>, ctx: Context, k: nat,
      original: Bytes, decode: Bytes -> Option<WireMessage>)
    requires Honest(i, decode) && k <= |pending| && AllGenuine(pending, original, decode)
    ensures AllGenuine(PassedOn(i, from, to, pending, ctx, k), original, decode)
    ensures forall a :: a in HeldBack(i, from, to, pending, ctx, k) ==> GenuineAction(a, original, decode)
  {
    if k > 0 {
      StageIsGenuine(i, from, to, pending, ctx, k - 1, original, decode);
      assert GenuineAction(i(from, to, pending[k - 1], ctx.(copy := k - 1)), pending[k - 1], decode);
    }
  }

  /** Honest interceptors in any number are honest together. */
  lemma {:induction false} ChainIsGenuine(
      chain: seq<Interceptor>, from: NodeId, to: NodeId, pending: seq<Bytes>, ctx: Context,
      original: Bytes, decode: Bytes -> Option<WireMessage>)
    requires forall i :: i in chain ==> Honest(i, decode)
    requires AllGenuine(pending, original, decode)
    ensures forall a :: a in Chain(chain, from, to, pending, ctx) ==> GenuineAction(a, original, decode)
    decreases |chain|
  {
    if chain != [] {
      StageIsGenuine(chain[0], from, to, pending, ctx, |pending|, original, decode);
      ChainIsGenuine(chain[1..], from, to, PassedOn(chain[0], from, to, pending, ctx, |pending|), ctx, original,
          decode);
    }
  }

  lemma {:induction false} CopiesAreFaithful(
      actions: seq<InterceptAction>, from: NodeId, to: NodeId, tick: nat,
      original: Bytes, decode: Bytes -> Option<WireMessage>)
    requires decode(original).Some? && forall a :: a in actions ==> GenuineAction(a, original, decode)
    ensures Faithful(AllCopies(actions, from, to, tick), multiset{Packet(from, to, decode(original).value)}, decode)
    decreases |actions|
  {
    if actions != [] {
      var init, last := actions[..|actions| - 1], actions[|actions| - 1];
      CopiesAreFaithful(init, from, to, tick, original, decode);
      assert GenuineAction(last, original, decode);
      ReadableIsDecoded(Copies(last, from, to, tick), from, to, original, decode);
      ReadableAppend(AllCopies(init, from, to, tick), Copies(last, from, to, tick), decode);
    }
  }

  lemma {:induction false} ReadableIsDecoded(
      queue: seq<InFlight>, from: NodeId, to: NodeId, original: Bytes, decode: Bytes -> Option<WireMessage>)
    requires decode(original).Some?
    requires forall m :: m in queue ==> m.from == from && m.to == to && Genuine(m.data, original, decode)
    ensures Faithful(queue, multiset{Packet(from, to, decode(original).value)}, decode)
  {
    if queue != [] {
      ReadableIsDecoded(queue[..|queue| - 1], from, to, original, decode);
    }
  }

  lemma SentIsFaithful(
      chain: seq<Interceptor>, from: NodeId, to: NodeId, bytes: Bytes, ctx: Context,
      decode: Bytes -> Option<WireMessage>)
    requires decode(bytes).Some? && forall i :: i in chain ==> Honest(i, decode)
    ensures Faithful(AllCopies(Chain(chain, from, to, [bytes], ctx), from, to, ctx.tick),
                     multiset{Packet(from, to, decode(bytes).value)}, decode)
  {
    ChainIsGenuine(chain, from, to, [bytes], ctx, bytes, decode);
    CopiesAreFaithful(Chain(chain, from, to, [bytes], ctx), from, to, ctx.tick, bytes, decode);
  }

  /** A pending copy that an interceptor sees is passed on or held back in some form. */
  ghost predicate Survives(
      original: Bytes, passed: seq<Bytes>, held: seq<InterceptAction>, decode: Bytes -> Option<WireMessage>) {
    || (exists k :: 0 <= k < |passed| && decode(passed[k]) == decode(original))
    || (exists k :: 0 <= k < |held| && held[k].Delay? && decode(held[k].data) == decode(original))
  }

  lemma SurvivesOneMore(
      original: Bytes, passed: seq<Bytes>, held: seq<InterceptAction>, decode: Bytes -> Option<WireMessage>,
      more: seq<Bytes>, moreHeld: seq<InterceptAction>)
    requires Survives(original, passed, held, decode)
    ensures Survives(original, passed + more, held + moreHeld, decode)
  {
    if k :| 0 <= k < |passed| && decode(passed[k]) == decode(original) {
      assert (passed + more)[k] == passed[k];
    } else {
      var k :| 0 <= k < |held| && held[k].Delay? && decode(held[k].data) == decode(original);
      assert (held + moreHeld)[k] == held[k];
    }
  }

  lemma ActionSurvives(
      a: InterceptAction, original: Bytes, passed: seq<Bytes>, held: seq<InterceptAction>,
      decode: Bytes -> Option<WireMessage>)
    requires KeepsAction(a, original, decode)
    ensures Survives(original, passed + Onward(a), held + Held(a), decode)
  {
    match a {
      case Deliver(data) => assert (passed + Onward(a))[|passed|] == data;
      case Delay(data, _) => assert (held + Held(a))[|held|] == a;
      case DeliverMany(copies) =>
        var c :| 0 <= c < |copies| && decode(copies[c]) == decode(original);
        assert (passed + Onward(a))[|passed| + c] == copies[c];
    }
  }

  lemma {:induction false} PassedOrHeld(
      i: Interceptor, from: NodeId, to: NodeId, pending: seq<Bytes>, ctx: Context, k: nat, j: nat,
      decode: Bytes -> Option<WireMessage>)
    requires Keeps(i, decode) && j < k <= |pending|
    ensures Survives(pending[j], PassedOn(i, from, to, pending, ctx, k), HeldBack(i, from, to, pending, ctx, k), decode)
  {
    var a := i(from, to, pending[k - 1], ctx.(copy := k - 1));
    var passed, held := PassedOn(i, from, to, pending, ctx, k - 1), HeldBack(i, from, to, pending, ctx, k - 1);
    assert PassedOn(i, from, to, pending, ctx, k) == passed + Onward(a);
    assert HeldBack(i, from, to, pending, ctx, k) == held + Held(a);
    if j < k - 1 {
      PassedOrHeld(i, from, to, pending, ctx, k - 1, j, decode);
      SurvivesOneMore(pending[j], passed, held, decode, Onward(a), Held(a));
    } else {
      assert KeepsAction(a, pending[j], decode);
      ActionSurvives(a, pending[j], passed, held, decode);
    }
  }

  /** If no interceptor loses messages, a pending copy leaves the chain in some form. */
  lemma {:induction false} ChainKeeps(
      chain: seq<Interceptor>, from: NodeId, to: NodeId, pending: seq<Bytes>, ctx: Context, j: nat,
      decode: Bytes -> Option<WireMessage>)
    requires (forall i :: i in chain ==> Keeps(i, decode)) && j < |pending|
    ensures
      exists a :: a in Chain(chain, from, to, pending, ctx)
                  && !a.Drop? && !a.DeliverMany? && decode(a.data) == decode(pending[j])
    decreases |chain|
  {
    if chain == [] {
      assert Chain(chain, from, to, pending, ctx)[j] == Deliver(pending[j]);
    } else {
      var passed := PassedOn(chain[0], from, to, pending, ctx, |pending|);
      var held := HeldBack(chain[0], from, to, pending, ctx, |pending|);
      var rest := Chain(chain[1..], from, to, passed, ctx);
      PassedOrHeld(chain[0], from, to, pending, ctx, |pending|, j, decode);
      if k :| 0 <= k < |passed| && decode(passed[k]) == decode(pending[j]) {
        ChainKeeps(chain[1..], from, to, passed, ctx, k, decode);
        var a :| a in rest && !a.Drop? && !a.DeliverMany? && decode(a.data) == decode(passed[k]);
        assert a in held + rest;
      } else {
        var k :| 0 <= k < |held| && held[k].Delay? && decode(held[k].data) == decode(pending[j]);
        assert held[k] in held + rest;
      }
    }
  }

  lemma {:induction false} CopyIsSent(
      actions: seq<InterceptAction>, from: NodeId, to: NodeId, tick: nat, a: InterceptAction,
      decode: Bytes -> Option<WireMessage>)
    requires a in actions && !a.Drop? && !a.DeliverMany? && decode(a.data).Some?
    ensures Packet(from, to, decode(a.data).value) in Readable(AllCopies(actions, from, to, tick), decode)
    decreases |actions|
  {
    var init, last := actions[..|actions| - 1], actions[|actions| - 1];
    ReadableAppend(AllCopies(init, from, to, tick), Copies(last, from, to, tick), decode);
    if a in init {
      CopyIsSent(init, from, to, tick, a, decode);
    } else {
      var copies := Copies(last, from, to, tick);
      assert copies == [copies[0]] && copies[0].data == a.data;
      assert Readable(copies[..0], decode) == [];
      assert Readable(copies, decode) == [Packet(from, to, decode(a.data).value)];
    }
  }

  lemma SentIsKept(
      chain: seq<Interceptor>, from: NodeId, to: NodeId, bytes: Bytes, ctx: Context,
      decode: Bytes -> Option<WireMessage>)
    requires decode(bytes).Some? && AllKeep(chain, decode)
    ensures multiset{Packet(from, to, decode(bytes).value)}
         <= multiset(Readable(AllCopies(Chain(chain, from, to, [bytes], ctx), from, to, ctx.tick), decode))
  {
    assert Inside(Keeping, 0);
    ChainKeeps(chain, from, to, [bytes], ctx, 0, decode);
    var actions := Chain(chain, from, to, [bytes], ctx);
    var a :| a in actions && !a.Drop? && !a.DeliverMany? && decode(a.data) == decode(bytes);
    CopyIsSent(actions, from, to, ctx.tick, a, decode);
  }

  lemma SentIsDirect(from: NodeId, to: NodeId, bytes: Bytes, ctx: Context, decode: Bytes -> Option<WireMessage>)
    requires decode(bytes).Some?
    ensures Direct(AllCopies(Chain([], from, to, [bytes], ctx), from, to, ctx.tick),
                   multiset{Packet(from, to, decode(bytes).value)}, decode, ctx.tick)
  {
    var actions := Chain([], from, to, [bytes], ctx);
    assert actions == [Deliver(bytes)];
    assert AllCopies(actions[..0], from, to, ctx.tick) == [];
    var queue := AllCopies(actions, from, to, ctx.tick);
    assert queue == [InFlight(from, to, bytes, ctx.tick + 1)];
    assert Readable(queue[..0], decode) == [];
    assert Readable(queue, decode) == [Packet(from, to, decode(bytes).value)];
  }

  lemma WhatIsSent(
      encode: WireMessage -> Bytes, decode: Bytes -> Option<WireMessage>, chain: seq<Interceptor>,
      from: NodeId, to: NodeId, msg: WireMessage, ctx: Context)
    requires Sound(encode, decode, chain)
    ensures
      SentAs(AllCopies(Chain(chain, from, to, [encode(msg)], ctx), from, to, ctx.tick), multiset{Packet(from, to, msg)},
             decode, AllKeep(chain, decode), chain == [], ctx.tick)
  {
    assert Inside(Soundness, 0);
    SentIsFaithful(chain, from, to, encode(msg), ctx, decode);
    if AllKeep(chain, decode) {
      SentIsKept(chain, from, to, encode(msg), ctx, decode);
    }
    if chain == [] {
      SentIsDirect(from, to, encode(msg), ctx, decode);
    }
  }
}
