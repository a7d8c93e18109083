/** Two-phase mutation: for any interleaving of prepares, commits and direct mutations no
    update is lost. */
module TwoPhase {
  import opened Types
  import opened ShardSpec

  /** A mutation closure with its projection and the time it runs at. */
  datatype Update<!S, !V> = Update(apply: S -> S, project: S -> V, t: Time)

  datatype Prepared<S, V> = Prepared(base: Generation, newState: StateObject<S>, view: V)

  function Applied<S, V>(state: StateObject<S>, u: Update<S, V>): StateObject<S> {
    Mutated(state, u.apply(state.value), u.t)
  }

  function Prepare<S, V>(state: StateObject<S>, u: Update<S, V>): Prepared<S, V> {
    var next := Applied(state, u);
    Prepared(state.generation, next, u.project(next.value))
  }

  /** Direct mutations, one after the other. */
  function Fold<S, V>(state: StateObject<S>, us: seq<Update<S, V>>): StateObject<S>
    decreases |us|
  {
    if us == [] then state else Applied(Fold(state, us[..|us| - 1]), us[|us| - 1])
  }

  /** Every update advances the age by one and keeps the incarnation. */
  lemma {:induction false} FoldGeneration<S, V>(state: StateObject<S>, us: seq<Update<S, V>>)
    ensures Fold(state, us).generation == Generation(state.generation.incarnation, state.generation.age + |us|)
    decreases |us|
  {
    if us != [] {
      FoldGeneration(state, us[..|us| - 1]);
    }
  }

  /** The value of updates one after the other is that of their closures one after the other. */
  function ValueAfter<S, V>(value: S, us: seq<Update<S, V>>): S
    decreases |us|
  {
    if us == [] then value else us[|us| - 1].apply(ValueAfter(value, us[..|us| - 1]))
  }

  /** Updates change the value by their closures and the modification time to that of the last
      one, and leave the rest of the state alone. */
  lemma {:induction false} FoldIs<S, V>(state: StateObject<S>, us: seq<Update<S, V>>)
    ensures
      Fold(state, us) ==
      StateObject(Generation(state.generation.incarnation, state.generation.age + |us|), state.storageVersion,
                  ValueAfter(state.value, us), state.createdTime,
                  if us == [] then state.modifiedTime else us[|us| - 1].t.unixMs)
    decreases |us|
  {
    if us != [] {
      FoldIs(state, us[..|us| - 1]);
    }
  }

  // ── Interleavings ──────────────────────────────────────────────

  datatype Op<!S, !V> = PrepareOp(u: Update<S, V>) | CommitOp(ticket: nat) | ApplyOp(u: Update<S, V>)

  /** A prepared mutation together with the closure it was prepared from. */
  datatype Ticket<!S, !V> = Ticket(u: Update<S, V>, prepared: Prepared<S, V>)

  /** The owned state, all mutations prepared so far, and the updates that took effect. */
  datatype Core<!S, !V> = Core(state: StateObject<S>, tickets: seq<Ticket<S, V>>, log: seq<Update<S, V>>)

  /** The guard of a commit: the prepared mutation was derived from the current generation. */
  predicate Passes<S, V>(c: Core<S, V>, ticket: nat) {
    ticket < |c.tickets| && c.tickets[ticket].prepared.base == c.state.generation
  }

  /** A commit that fails its guard panics before it changes anything. */
  function Exec<S, V>(c: Core<S, V>, op: Op<S, V>): Core<S, V> {
    match op
    case PrepareOp(u) => c.(tickets := c.tickets + [Ticket(u, Prepare(c.state, u))])
    case CommitOp(k) =>
      if Passes(c, k) then c.(state := c.tickets[k].prepared.newState, log := c.log + [c.tickets[k].u]) else c
    case ApplyOp(u) => c.(state := Applied(c.state, u), log := c.log + [u])
  }

  function ExecAll<S, V>(state: StateObject<S>, ops: seq<Op<S, V>>): Core<S, V>
    decreases |ops|
  {
    if ops == [] then Core(state, [], []) else Exec(ExecAll(state, ops[..|ops| - 1]), ops[|ops| - 1])
  }

  /** Every ticket was prepared from the state some prefix of the log had produced. */
  ghost predicate FromPast<S, V>(start: StateObject<S>, c: Core<S, V>, k: nat)
    requires k < |c.tickets|
  {
    exists n :: 0 <= n <= |c.log| && c.tickets[k].prepared == Prepare(Fold(start, c.log[..n]), c.tickets[k].u)
  }

  ghost predicate Faithful<S, V>(start: StateObject<S>, c: Core<S, V>) {
    && c.state == Fold(start, c.log)
    && forall k :: 0 <= k < |c.tickets| ==> FromPast(start, c, k)
  }

  /** A commit that passes its guard started from exactly the current state. */
  lemma GuardMeansCurrentState<S, V>(start: StateObject<S>, c: Core<S, V>, k: nat)
    requires Faithful(start, c) && Passes(c, k)
    ensures c.tickets[k].prepared == Prepare(c.state, c.tickets[k].u)
  {
    assert FromPast(start, c, k);
    var n :| 0 <= n <= |c.log| && c.tickets[k].prepared == Prepare(Fold(start, c.log[..n]), c.tickets[k].u);
    FoldGeneration(start, c.log[..n]);
    FoldGeneration(start, c.log);
    assert c.log[..n] == c.log;
  }

  /** A longer log keeps every ticket's past. */
  lemma PastGrows<S, V>(start: StateObject<S>, c: Core<S, V>, c': Core<S, V>, k: nat)
    requires k < |c.tickets| <= |c'.tickets| && c'.tickets[k] == c.tickets[k] && c.log <= c'.log
    requires FromPast(start, c, k)
    ensures FromPast(start, c', k)
  {
    var n :| 0 <= n <= |c.log| && c.tickets[k].prepared == Prepare(Fold(start, c.log[..n]), c.tickets[k].u);
    assert c'.log[..n] == c.log[..n];
  }

  lemma ExecFaithful<S, V>(start: StateObject<S>, c: Core<S, V>, op: Op<S, V>)
    requires Faithful(start, c)
    ensures Faithful(start, Exec(c, op))
  {
    var c' := Exec(c, op);
    forall k | 0 <= k < |c.tickets| ensures FromPast(start, c', k) {
      PastGrows(start, c, c', k);
    }
    match op {
      case PrepareOp(u) =>
        assert c.log[..|c.log|] == c.log;
        assert FromPast(start, c', |c.tickets|);
      case CommitOp(k) =>
        if Passes(c, k) {
          GuardMeansCurrentState(start, c, k);
          assert c'.log[..|c'.log| - 1] == c.log;
        }
      case ApplyOp(u) =>
        assert c'.log[..|c'.log| - 1] == c.log;
    }
  }

  /** No lost updates: after any interleaving the state is what the committed and directly
      applied updates, in the order they took effect, produce by plain mutation. */
  lemma {:induction false} NoLostUpdates<S, V>(start: StateObject<S>, ops: seq<Op<S, V>>)
    ensures
      var c := ExecAll(start, ops);
      Faithful(start, c) && c.state == Fold(start, c.log)
    decreases |ops|
  {
    if ops != [] {
      NoLostUpdates(start, ops[..|ops| - 1]);
      ExecFaithful(start, ExecAll(start, ops[..|ops| - 1]), ops[|ops| - 1]);
    }
  }

  /** Time only moves on: tickets stay, and the generation never returns to a base it left. */
  lemma {:induction false} LaterCore<S, V>(start: StateObject<S>, ops: seq<Op<S, V>>, more: seq<Op<S, V>>)
    ensures
      var c, c' := ExecAll(start, ops), ExecAll(start, ops + more);
      c.tickets <= c'.tickets && c.state.generation.Le(c'.state.generation)
    decreases |more|
  {
    if more == [] {
      assert ops + more == ops;
    } else {
      var before := ops + more[..|more| - 1];
      assert (ops + more)[..|ops + more| - 1] == before;
      LaterCore(start, ops, more[..|more| - 1]);
      NoLostUpdates(start, before);
      var c := ExecAll(start, before);
      match (ops + more)[|ops + more| - 1] {
        case CommitOp(k) => if Passes(c, k) { GuardMeansCurrentState(start, c, k); }
        case _ =>
      }
    }
  }

  /** At most one prepare per base commits: once a ticket has been committed no ticket that
      was prepared from the same base ever passes its guard again. */
  lemma OneCommitPerBase<S, V>(start: StateObject<S>, ops: seq<Op<S, V>>, i: nat, more: seq<Op<S, V>>, j: nat)
    requires Passes(ExecAll(start, ops), i)
    requires Passes(ExecAll(start, ops + [CommitOp(i)] + more), j)
    ensures
      var c, c' := ExecAll(start, ops), ExecAll(start, ops + [CommitOp(i)] + more);
      c.tickets[i].prepared.base.Lt(c'.tickets[j].prepared.base)
  {
    var c := ExecAll(start, ops);
    var ops' := ops + [CommitOp(i)];
    assert ops'[..|ops'| - 1] == ops;
    NoLostUpdates(start, ops);
    GuardMeansCurrentState(start, c, i);
    LaterCore(start, ops', more);
  }
}
