/** Deadlines: by which tick a pending item, and everything it can still set off, is over.
    A delta may be answered with a request, a request with a snapshot, and a snapshot or a
    feed batch with nothing, so every answer ranks below the message it answers. */
module Deadlines {
  import opened Types
  import opened EngineSpec
  import opened Tracking
  import T = Transports

  function Larger(a: nat, b: nat): nat {
    if a < b then b else a
  }

  function Rank(msg: WireMessage): nat {
    match msg
    case Feed(_) => 1
    case Sync(m) =>
      match m
      case FullSnapshot(_, _, _, _, _) => 1
      case RequestSnapshot(_, _) => 2
      case DeltaUpdate(_, _, _, _, _) => 3
  }

  /** Every handler answers with at most one message, of a strictly lower rank. */
  lemma AnswersRankLower<S, V>(e: Engine<S, V>, msg: WireMessage, t: Time)
    requires HasOwn(e) && HandleInbound(e, msg, t).action.Some?
    ensures
      var action := HandleInbound(e, msg, t).action.value;
      action.SendSync? && Rank(Sync(action.message)) < Rank(msg)
  {
  }

  /** An item in the queue is over once it, and a chain of answers to it, was delivered. */
  ghost predicate CopyBy(m: T.InFlight, decode: Bytes -> Option<WireMessage>, tick: nat, limit: nat) {
    Larger(m.deliverAt, tick) + (if decode(m.data).Some? then Rank(decode(m.data).value) else 1) <= limit
  }

  ghost predicate QueueBy(queue: seq<T.InFlight>, decode: Bytes -> Option<WireMessage>, tick: nat, limit: nat) {
    queue == [] || (QueueBy(queue[..|queue| - 1], decode, tick, limit)
        && CopyBy(queue[|queue| - 1], decode, tick, limit))
  }

  ghost predicate TimersBy(timers: seq<Timer>, tick: nat, limit: nat) {
    timers == []
    || (TimersBy(timers[..|timers| - 1], tick, limit)
        && Larger(timers[|timers| - 1].deliverAt, tick) + 1 + Rank(Sync(timers[|timers| - 1].message)) <= limit)
  }

  /** A feed that is not empty is flushed when its counter reaches the interval. */
  ghost predicate FeedBy<S, V>(n: MockNode<S, V>, tick: nat, limit: nat) {
    n.engine.feed != map[] ==> tick + Larger(n.feedInterval - Smaller(n.feedInterval, n.feedCounter), 1) + 1 <= limit
  }

  function Smaller(a: nat, b: nat): nat {
    if a < b then a else b
  }

  ghost predicate MessagesBy(packets: multiset<Packet>, tick: nat, limit: nat) {
    forall p :: p in packets ==> tick + Rank(p.msg) <= limit
  }

  lemma OneMoreCopy(queue: seq<T.InFlight>, m: T.InFlight, decode: Bytes -> Option<WireMessage>, tick: nat, limit: nat)
    ensures QueueBy(queue + [m], decode, tick, limit) <==>
            QueueBy(queue, decode, tick, limit) && CopyBy(m, decode, tick, limit)
  {
    assert (queue + [m])[..|queue|] == queue;
  }

  lemma OneMoreTimer(timers: seq<Timer>, x: Timer, tick: nat, limit: nat)
    ensures TimersBy(timers + [x], tick, limit) <==>
              TimersBy(timers, tick, limit) && Larger(x.deliverAt, tick) + 1 + Rank(Sync(x.message)) <= limit
  {
    assert (timers + [x])[..|timers|] == timers;
  }

  lemma {:induction false} WaitingBy(
      queue: seq<T.InFlight>, decode: Bytes -> Option<WireMessage>, tick: nat, limit: nat)
    requires QueueBy(queue, decode, tick, limit)
    ensures QueueBy(T.Waiting(queue, tick), decode, tick + 1, limit)
  {
    if queue != [] {
      var init, last := queue[..|queue| - 1], queue[|queue| - 1];
      WaitingBy(init, decode, tick, limit);
      assert queue == init + [last];
      T.OneMoreInQueue(init, last, tick, decode);
      OneMoreCopy(T.Waiting(init, tick), last, decode, tick + 1, limit);
    }
  }

  lemma {:induction false} DueMessagesBy(
      queue: seq<T.InFlight>, decode: Bytes -> Option<WireMessage>, tick: nat, limit: nat)
    requires QueueBy(queue, decode, tick, limit)
    ensures MessagesBy(Packets(T.Due(queue, tick), decode), tick, limit)
  {
    if queue != [] {
      var init, last := queue[..|queue| - 1], queue[|queue| - 1];
      DueMessagesBy(init, decode, tick, limit);
      assert queue == init + [last];
      T.OneMoreInQueue(init, last, tick, decode);
      if last.deliverAt <= tick {
        PacketsAppend(T.Due(init, tick), [last], decode);
        OnePacket(last, decode);
      }
    }
  }

  /** What a tick delivers is in time, and so is what it leaves in the queue. */
  lemma DueBy(queue: seq<T.InFlight>, decode: Bytes -> Option<WireMessage>, tick: nat, limit: nat)
    requires QueueBy(queue, decode, tick, limit)
    ensures QueueBy(T.Waiting(queue, tick), decode, tick + 1, limit)
    ensures MessagesBy(Packets(T.Due(queue, tick), decode), tick, limit)
  {
    WaitingBy(queue, decode, tick, limit);
    DueMessagesBy(queue, decode, tick, limit);
  }

  lemma OnePacket(m: T.InFlight, decode: Bytes -> Option<WireMessage>)
    ensures Packets([m], decode)
         == if decode(m.data).Some? then multiset{Packet(m.from, m.to, decode(m.data).value)} else multiset{}
  {
    assert T.Readable([m][..0], decode) == [];
  }

  /** What is sent during a tick, without interceptors, is due at the next. */
  lemma {:induction false} SentBy(
      queue: seq<T.InFlight>, added: seq<T.InFlight>, packets: multiset<Packet>,
      decode: Bytes -> Option<WireMessage>, tick: nat, limit: nat)
    requires QueueBy(queue, decode, tick + 1, limit)
    requires forall k :: 0 <= k < |added| ==> added[k].deliverAt == tick + 1 && decode(added[k].data).Some?
    requires T.Faithful(added, packets, decode) && MessagesBy(packets, tick + 1, limit)
    ensures QueueBy(queue + added, decode, tick + 1, limit)
  {
    if added == [] {
      assert queue + added == queue;
    } else {
      var init, last := added[..|added| - 1], added[|added| - 1];
      assert (queue + added)[..|queue + added| - 1] == queue + init;
      SentBy(queue, init, packets, decode, tick, limit);
      assert Packet(last.from, last.to, decode(last.data).value) in T.Readable(added, decode);
    }
  }

  lemma OneMoreDueTimer(timers: seq<Timer>, x: Timer, tick: nat)
    ensures LaterTimers(timers + [x], tick)
         == if x.deliverAt <= tick then LaterTimers(timers, tick) else LaterTimers(timers, tick) + [x]
    ensures DueTimers(timers + [x], tick)
         == if x.deliverAt <= tick then DueTimers(timers, tick) + [x] else DueTimers(timers, tick)
  {
    assert (timers + [x])[..|timers|] == timers;
  }

  /** Each due timer's message, broadcast now, is in time, and so is every other timer. */
  lemma {:induction false} LaterBy(timers: seq<Timer>, tick: nat, limit: nat)
    requires TimersBy(timers, tick, limit)
    ensures TimersBy(LaterTimers(timers, tick), tick + 1, limit)
    ensures AllTimersBy(DueTimers(timers, tick), tick + 1, limit)
  {
    if timers != [] {
      var init, last := timers[..|timers| - 1], timers[|timers| - 1];
      LaterBy(init, tick, limit);
      assert timers == init + [last];
      OneMoreDueTimer(init, last, tick);
      OneMoreTimer(LaterTimers(init, tick), last, tick + 1, limit);
    }
  }

  ghost predicate AllTimersBy(due: seq<Timer>, tick: nat, limit: nat) {
    forall k :: 0 <= k < |due| ==> tick + Rank(Sync(due[k].message)) <= limit
  }
}
