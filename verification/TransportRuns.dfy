/** Whole runs of the transport: every copy is accounted for, arrives on time and, without
    interceptors, in order. The steps are the functions that the class Transport is
    verified against. */
module TransportRuns {
  import opened Types
  import opened Transports

  /** What a host can do to the transport. A send carries what the interceptors made of it. */
  datatype Op =
    | SendOp(from: NodeId, to: NodeId, actions: seq<InterceptAction>)
    | DeliverOp
    | TickOp
    | PurgeOp(id: NodeId)

  datatype Handed = Handed(copy: InFlight, tick: nat)

  /** The queue, with a record of everything that ever entered and left it. */
  datatype Ledger = Ledger(
    queue: seq<InFlight>,
    tick: nat,
    launched: seq<InFlight>,
    handed: seq<Handed>,
    purged: seq<InFlight>)

  /** The record after some copies were handed out at a tick. */
  function HandOut(handed: seq<Handed>, due: seq<InFlight>, tick: nat): seq<Handed> {
    if due == [] then handed
    else HandOut(handed, due[..|due| - 1], tick) + [Handed(due[|due| - 1], tick)]
  }

  /** What a purge takes out of a queue. */
  function Involving(queue: seq<InFlight>, id: NodeId): seq<InFlight> {
    if queue == [] then []
    else
      var m := queue[|queue| - 1];
      Involving(queue[..|queue| - 1], id) + if m.from != id && m.to != id then [] else [m]
  }

  function Apply(l: Ledger, op: Op): Ledger {
    match op
    case SendOp(from, to, actions) =>
      var copies := AllCopies(actions, from, to, l.tick);
      l.(queue := l.queue + copies, launched := l.launched + copies)
    case DeliverOp =>
      l.(queue := Waiting(l.queue, l.tick), handed := HandOut(l.handed, Due(l.queue, l.tick), l.tick))
    case TickOp => l.(tick := l.tick + 1)
    case PurgeOp(id) => l.(queue := Without(l.queue, id), purged := l.purged + Involving(l.queue, id))
  }

  function After(ops: seq<Op>): Ledger {
    if ops == [] then Ledger([], 0, [], [], [])
    else Apply(After(ops[..|ops| - 1]), ops[|ops| - 1])
  }

  // ── Conservation ───────────────────────────────────────────────

  /** The copies that were handed out and could, or could not, be decoded. */
  function Outcome(handed: seq<Handed>, decode: Bytes -> Option<WireMessage>, readable: bool): multiset<InFlight> {
    if handed == [] then multiset{}
    else
      var h := handed[|handed| - 1];
      Outcome(handed[..|handed| - 1], decode, readable)
      + if decode(h.copy.data).Some? == readable then multiset{h.copy} else multiset{}
  }

  function Accounted(l: Ledger, decode: Bytes -> Option<WireMessage>): multiset<InFlight> {
    multiset(l.queue) + Outcome(l.handed, decode, true) + Outcome(l.handed, decode, false) + multiset(l.purged)
  }

  /** Every copy that left the interceptor chain is in exactly one place: still in flight,
      delivered, undecodable, or purged. */
  lemma {:induction false} Conservation(ops: seq<Op>, decode: Bytes -> Option<WireMessage>)
    ensures multiset(After(ops).launched) == Accounted(After(ops), decode)
  {
    if ops != [] {
      Conservation(ops[..|ops| - 1], decode);
      StepConserves(After(ops[..|ops| - 1]), ops[|ops| - 1], decode);
    }
  }

  lemma StepConserves(l: Ledger, op: Op, decode: Bytes -> Option<WireMessage>)
    requires multiset(l.launched) == Accounted(l, decode)
    ensures multiset(Apply(l, op).launched) == Accounted(Apply(l, op), decode)
  {
    match op {
      case SendOp(from, to, actions) => SendConserves(l, AllCopies(actions, from, to, l.tick), decode);
      case DeliverOp => DeliveryConserves(l, decode);
      case TickOp =>
      case PurgeOp(id) => PurgeConserves(l, id, decode);
    }
  }

  lemma SendConserves(l: Ledger, copies: seq<InFlight>, decode: Bytes -> Option<WireMessage>)
    requires multiset(l.launched) == Accounted(l, decode)
    ensures multiset(l.launched + copies) == Accounted(l.(queue := l.queue + copies), decode)
  {
  }

  lemma DeliveryConserves(l: Ledger, decode: Bytes -> Option<WireMessage>)
    ensures Accounted(Apply(l, DeliverOp), decode) == Accounted(l, decode)
  {
    var due, waiting := Due(l.queue, l.tick), Waiting(l.queue, l.tick);
    assert multiset(due) + multiset(waiting) == multiset(l.queue) by {
      DueOrWaiting(l.queue, l.tick);
    }
    CopiesHandedOut(l.handed, due, l.tick);
    ReadableOrNot(l.handed, decode);
    ReadableOrNot(HandOut(l.handed, due, l.tick), decode);
    SumsAgree(l, due, waiting, decode);
  }

  lemma SumsAgree(l: Ledger, due: seq<InFlight>, waiting: seq<InFlight>, decode: Bytes -> Option<WireMessage>)
    requires multiset(due) + multiset(waiting) == multiset(l.queue)
    requires Outcome(l.handed, decode, true) + Outcome(l.handed, decode, false) == multiset(CopiesOf(l.handed))
    ensures multiset(waiting) + multiset(CopiesOf(l.handed) + due) + multiset(l.purged) == Accounted(l, decode)
  {
    var q, d, w, y, n, p :=
      multiset(l.queue), multiset(due), multiset(waiting),
      Outcome(l.handed, decode, true), Outcome(l.handed, decode, false), multiset(l.purged);
    assert multiset(CopiesOf(l.handed) + due) == (y + n) + d;
    assert w + ((y + n) + d) + p == (d + w) + y + n + p;
  }

  lemma PurgeConserves(l: Ledger, id: NodeId, decode: Bytes -> Option<WireMessage>)
    ensures Accounted(Apply(l, PurgeOp(id)), decode) == Accounted(l, decode)
  {
    var kept, gone := Without(l.queue, id), Involving(l.queue, id);
    assert multiset(kept) + multiset(gone) == multiset(l.queue) by {
      KeptOrPurged(l.queue, id);
    }
    assert multiset(l.purged + gone) == multiset(l.purged) + multiset(gone);
  }

  lemma {:induction false} DueOrWaiting(queue: seq<InFlight>, tick: nat)
    ensures multiset(Due(queue, tick)) + multiset(Waiting(queue, tick)) == multiset(queue)
    ensures forall m :: m in Due(queue, tick) <==> m in queue && m.deliverAt <= tick
    ensures forall m :: m in Waiting(queue, tick) <==> m in queue && m.deliverAt > tick
  {
    if queue != [] {
      DueOrWaiting(queue[..|queue| - 1], tick);
      assert queue == queue[..|queue| - 1] + [queue[|queue| - 1]];
    }
  }

  lemma {:induction false} KeptOrPurged(queue: seq<InFlight>, id: NodeId)
    ensures multiset(Without(queue, id)) + multiset(Involving(queue, id)) == multiset(queue)
    ensures forall m :: m in Without(queue, id) <==> m in queue && m.from != id && m.to != id
  {
    if queue != [] {
      KeptOrPurged(queue[..|queue| - 1], id);
      assert queue == queue[..|queue| - 1] + [queue[|queue| - 1]];
    }
  }

  /** What was handed out was readable or it was not. */
  lemma {:induction false} ReadableOrNot(handed: seq<Handed>, decode: Bytes -> Option<WireMessage>)
    ensures Outcome(handed, decode, true) + Outcome(handed, decode, false) == multiset(CopiesOf(handed))
  {
    if handed != [] {
      var init, copy := handed[..|handed| - 1], handed[|handed| - 1].copy;
      ReadableOrNot(init, decode);
      assert multiset(CopiesOf(handed)) == multiset(CopiesOf(init)) + multiset{copy};
      var yes, no := Outcome(init, decode, true), Outcome(init, decode, false);
      if decode(copy.data).Some? {
        assert Outcome(handed, decode, true) == yes + multiset{copy} && Outcome(handed, decode, false) == no;
      } else {
        assert Outcome(handed, decode, true) == yes && Outcome(handed, decode, false) == no + multiset{copy};
      }
    }
  }

  // ── Timing ─────────────────────────────────────────────────────

  function ExtraDelay(a: InterceptAction): nat {
    if a.Delay? then a.ticks else 0
  }

  /** A copy queued at tick t with extra delay d is stamped for t + 1 + d. */
  lemma CopiesAreStamped(a: InterceptAction, from: NodeId, to: NodeId, tick: nat)
    ensures forall m :: m in Copies(a, from, to, tick) ==> m.deliverAt == tick + 1 + ExtraDelay(a)
  {
  }

  lemma {:induction false} NothingIsDueAtOnce(actions: seq<InterceptAction>, from: NodeId, to: NodeId, tick: nat)
    ensures forall m :: m in AllCopies(actions, from, to, tick) ==> tick < m.deliverAt
    decreases |actions|
  {
    if actions != [] {
      NothingIsDueAtOnce(actions[..|actions| - 1], from, to, tick);
      CopiesAreStamped(actions[|actions| - 1], from, to, tick);
    }
  }

  /** No delivery has happened yet at the current tick. */
  predicate Undrained(ops: seq<Op>) {
    ops == [] || ops[|ops| - 1].TickOp? || (!ops[|ops| - 1].DeliverOp? && Undrained(ops[..|ops| - 1]))
  }

  /** The host delivers what is due before it moves the clock on, as a cluster tick does. */
  predicate Disciplined(ops: seq<Op>) {
    ops == []
    || (Disciplined(ops[..|ops| - 1]) && (ops[|ops| - 1].TickOp? ==> !Undrained(ops[..|ops| - 1])))
  }

  lemma {:induction false} HandedOutNow(handed: seq<Handed>, due: seq<InFlight>, tick: nat)
    ensures forall h :: h in HandOut(handed, due, tick) ==> h in handed || (h.copy in due && h.tick == tick)
  {
    if due != [] {
      HandedOutNow(handed, due[..|due| - 1], tick);
    }
  }

  /** Under any host nothing is ever handed out early; under a disciplined host everything
      is handed out at exactly its tick, and nothing overdue is left in the queue. */
  lemma {:induction false} OnTime(ops: seq<Op>)
    ensures forall h :: h in After(ops).handed ==> h.copy.deliverAt <= h.tick
    ensures Disciplined(ops) ==> forall h :: h in After(ops).handed ==> h.tick == h.copy.deliverAt
    ensures Disciplined(ops) ==>
              forall m :: m in After(ops).queue ==>
                            After(ops).tick <= m.deliverAt && (Undrained(ops) || After(ops).tick < m.deliverAt)
  {
    if ops != [] {
      OnTime(ops[..|ops| - 1]);
      var l, op := After(ops[..|ops| - 1]), ops[|ops| - 1];
      match op {
        case SendOp(from, to, actions) => NothingIsDueAtOnce(actions, from, to, l.tick);
        case DeliverOp =>
          DueOrWaiting(l.queue, l.tick);
          HandedOutNow(l.handed, Due(l.queue, l.tick), l.tick);
        case TickOp =>
        case PurgeOp(id) => KeptOrPurged(l.queue, id);
      }
    }
  }

  // ── Order ──────────────────────────────────────────────────────

  function OnLink(queue: seq<InFlight>, from: NodeId, to: NodeId): seq<InFlight> {
    if queue == [] then []
    else
      var m := queue[|queue| - 1];
      OnLink(queue[..|queue| - 1], from, to) + if m.from == from && m.to == to then [m] else []
  }

  function CopiesOf(handed: seq<Handed>): seq<InFlight> {
    if handed == [] then [] else CopiesOf(handed[..|handed| - 1]) + [handed[|handed| - 1].copy]
  }

  /** No interceptor is installed: each message enters the queue once and unchanged. */
  predicate Uninterrupted(op: Op) {
    op.SendOp? ==> |op.actions| == 1 && op.actions[0].Deliver?
  }

  /** In order of delivery, and none after `last`. */
  predicate Sorted(queue: seq<InFlight>, last: nat) {
    queue == []
    || (queue[|queue| - 1].deliverAt <= last && Sorted(queue[..|queue| - 1], queue[|queue| - 1].deliverAt))
  }

  /** Without interceptors each link is first in, first out: what was handed out on a link,
      followed by what is still in flight on it, is what was sent on it, in order. */
  lemma {:induction false} LinksAreFifo(ops: seq<Op>, a: NodeId, b: NodeId)
    requires forall i :: 0 <= i < |ops| ==> Uninterrupted(ops[i]) && ops[i] != PurgeOp(a) && ops[i] != PurgeOp(b)
    ensures
      var l := After(ops);
      OnLink(CopiesOf(l.handed), a, b) + OnLink(l.queue, a, b) == OnLink(l.launched, a, b)
    ensures Sorted(After(ops).queue, After(ops).tick + 1)
  {
    if ops != [] {
      LinksAreFifo(ops[..|ops| - 1], a, b);
      StepKeepsOrder(After(ops[..|ops| - 1]), ops[|ops| - 1], a, b);
    }
  }

  ghost predicate InOrder(l: Ledger, a: NodeId, b: NodeId) {
    && OnLink(CopiesOf(l.handed), a, b) + OnLink(l.queue, a, b) == OnLink(l.launched, a, b)
    && Sorted(l.queue, l.tick + 1)
  }

  lemma StepKeepsOrder(l: Ledger, op: Op, a: NodeId, b: NodeId)
    requires InOrder(l, a, b) && Uninterrupted(op) && op != PurgeOp(a) && op != PurgeOp(b)
    ensures InOrder(Apply(l, op), a, b)
  {
    match op {
      case SendOp(from, to, actions) => SendKeepsOrder(l, op, a, b);
      case DeliverOp => DeliveryKeepsOrder(l, a, b);
      case TickOp =>
      case PurgeOp(id) => PurgeSparesLink(l.queue, id, a, b, l.tick + 1);
    }
  }

  lemma SendKeepsOrder(l: Ledger, op: Op, a: NodeId, b: NodeId)
    requires InOrder(l, a, b) && Uninterrupted(op) && op.SendOp?
    ensures InOrder(Apply(l, op), a, b)
  {
    SingleCopy(op.actions, op.from, op.to, l.tick);
    var copies := AllCopies(op.actions, op.from, op.to, l.tick);
    OnLinkAppend(l.queue, copies, a, b);
    OnLinkAppend(l.launched, copies, a, b);
    assert (l.queue + copies)[..|l.queue|] == l.queue;
  }

  lemma DeliveryKeepsOrder(l: Ledger, a: NodeId, b: NodeId)
    requires InOrder(l, a, b)
    ensures InOrder(Apply(l, DeliverOp), a, b)
  {
    var was, due, waiting := CopiesOf(l.handed), Due(l.queue, l.tick), Waiting(l.queue, l.tick);
    SortedSplits(l.queue, l.tick, l.tick + 1);
    CopiesHandedOut(l.handed, due, l.tick);
    calc {
      OnLink(was + due, a, b) + OnLink(waiting, a, b);
      { OnLinkAppend(was, due, a, b); }
      (OnLink(was, a, b) + OnLink(due, a, b)) + OnLink(waiting, a, b);
      OnLink(was, a, b) + (OnLink(due, a, b) + OnLink(waiting, a, b));
      { OnLinkAppend(due, waiting, a, b); }
      OnLink(was, a, b) + OnLink(l.queue, a, b);
    }
  }

  lemma {:induction false} CopiesHandedOut(handed: seq<Handed>, due: seq<InFlight>, tick: nat)
    ensures CopiesOf(HandOut(handed, due, tick)) == CopiesOf(handed) + due
  {
    if due != [] {
      var init, m := due[..|due| - 1], due[|due| - 1];
      CopiesHandedOut(handed, init, tick);
      var before := HandOut(handed, init, tick);
      assert (before + [Handed(m, tick)])[..|before|] == before;
    }
  }

  lemma SingleCopy(actions: seq<InterceptAction>, from: NodeId, to: NodeId, tick: nat)
    requires |actions| == 1 && actions[0].Deliver?
    ensures AllCopies(actions, from, to, tick) == [InFlight(from, to, actions[0].data, tick + 1)]
  {
    assert AllCopies(actions[..0], from, to, tick) == [];
  }

  lemma {:induction false} OnLinkAppend(p: seq<InFlight>, q: seq<InFlight>, a: NodeId, b: NodeId)
    ensures OnLink(p + q, a, b) == OnLink(p, a, b) + OnLink(q, a, b)
  {
    if q == [] {
      assert p + q == p;
    } else {
      assert (p + q)[..|p + q| - 1] == p + q[..|q| - 1];
      OnLinkAppend(p, q[..|q| - 1], a, b);
    }
  }

  lemma {:induction false} AllDue(queue: seq<InFlight>, tick: nat, last: nat)
    requires Sorted(queue, last) && last <= tick
    ensures Due(queue, tick) == queue && Waiting(queue, tick) == []
  {
    if queue != [] {
      AllDue(queue[..|queue| - 1], tick, queue[|queue| - 1].deliverAt);
    }
  }

  /** What is due of a sorted queue is a prefix of it. */
  lemma {:induction false} SortedSplits(queue: seq<InFlight>, tick: nat, last: nat)
    requires Sorted(queue, last)
    ensures Due(queue, tick) + Waiting(queue, tick) == queue
    ensures Sorted(Waiting(queue, tick), last)
  {
    if queue != [] {
      var init, m := queue[..|queue| - 1], queue[|queue| - 1];
      if m.deliverAt <= tick {
        AllDue(init, tick, m.deliverAt);
      } else {
        SortedSplits(init, tick, m.deliverAt);
        var waiting := Waiting(init, tick);
        assert (waiting + [m])[..|waiting|] == waiting;
      }
    }
  }

  lemma {:induction false} PurgeSparesLink(queue: seq<InFlight>, id: NodeId, a: NodeId, b: NodeId, last: nat)
    requires id != a && id != b && Sorted(queue, last)
    ensures OnLink(Without(queue, id), a, b) == OnLink(queue, a, b)
    ensures Sorted(Without(queue, id), last)
  {
    if queue != [] {
      var init, m := queue[..|queue| - 1], queue[|queue| - 1];
      PurgeSparesLink(init, id, a, b, m.deliverAt);
      var kept := Without(init, id);
      if m.from != id && m.to != id {
        assert Without(queue, id) == kept + [m];
        assert (kept + [m])[..|kept|] == kept;
      } else {
        assert Without(queue, id) == kept;
        assert OnLink(queue, a, b) == OnLink(init, a, b);
      }
    }
  }
}
