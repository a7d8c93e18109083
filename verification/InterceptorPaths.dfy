/** The interceptor chain works through all pending copies stage by stage. For interceptors
    that do not look at a copy's position this is the same as following each copy on its own:
    dropping, delaying or repeating one never touches the others. */
module InterceptorPaths {
  import opened Types
  import opened Transports

  /** An interceptor that decides by the message and the invocation, not by the position. */
  ghost predicate Plain(i: Interceptor) {
    forall from, to, data, a: Context, b: Context :: a.(copy := b.copy) == b ==>
      i(from, to, data, a) == i(from, to, data, b)
  }

  ghost predicate AllPlain(chain: seq<Interceptor>) {
    forall i :: i in chain ==> Plain(i)
  }

  /** What becomes of one copy: a drop ends it, a delay sends it past the rest of the chain,
      and everything else goes on to the next interceptor, each copy by itself. */
  function Path(chain: seq<Interceptor>, from: NodeId, to: NodeId, data: Bytes, ctx: Context)
    : multiset<InterceptAction>
    decreases |chain|, 0, 0
  {
    if chain == [] then multiset{Deliver(data)}
    else
      match chain[0](from, to, data, ctx)
      case Drop => multiset{}
      case Delay(bytes, ticks) => multiset{Delay(bytes, ticks)}
      case Deliver(bytes) => Path(chain[1..], from, to, bytes, ctx)
      case DeliverMany(copies) => Paths(chain[1..], from, to, copies, ctx)
  }

  function Paths(chain: seq<Interceptor>, from: NodeId, to: NodeId, pending: seq<Bytes>, ctx: Context)
    : multiset<InterceptAction>
    decreases |chain|, 1, |pending|
  {
    if pending == [] then multiset{}
    else Paths(chain, from, to, pending[..|pending| - 1], ctx) + Path(chain, from, to, pending[|pending| - 1], ctx)
  }

  lemma {:induction false} PathsAppend(
      chain: seq<Interceptor>, from: NodeId, to: NodeId, a: seq<Bytes>, b: seq<Bytes>, ctx: Context)
    ensures Paths(chain, from, to, a + b, ctx) == Paths(chain, from, to, a, ctx) + Paths(chain, from, to, b, ctx)
    decreases |b|
  {
    if b == [] {
      assert a + b == a;
    } else {
      assert (a + b)[..|a + b| - 1] == a + b[..|b| - 1];
      PathsAppend(chain, from, to, a, b[..|b| - 1], ctx);
    }
  }

  lemma OnePath(chain: seq<Interceptor>, from: NodeId, to: NodeId, data: Bytes, ctx: Context)
    ensures Paths(chain, from, to, [data], ctx) == Path(chain, from, to, data, ctx)
  {
    assert [data][..0] == [];
  }

  lemma {:induction false} EndOfPaths(from: NodeId, to: NodeId, pending: seq<Bytes>, ctx: Context)
    ensures multiset(seq(|pending|, k requires 0 <= k < |pending| => Deliver(pending[k])))
         == Paths([], from, to, pending, ctx)
    decreases |pending|
  {
    if pending != [] {
      var init := pending[..|pending| - 1];
      EndOfPaths(from, to, init, ctx);
      assert seq(|pending|, k requires 0 <= k < |pending| => Deliver(pending[k]))
          == seq(|init|, k requires 0 <= k < |init| => Deliver(init[k])) + [Deliver(pending[|pending| - 1])];
    }
  }

  /** One interceptor's part in the paths of one copy. */
  lemma OneStage(chain: seq<Interceptor>, from: NodeId, to: NodeId, data: Bytes, ctx: Context, k: nat)
    requires chain != [] && Plain(chain[0])
    ensures
      var a := chain[0](from, to, data, ctx.(copy := k));
      multiset(Held(a)) + Paths(chain[1..], from, to, Onward(a), ctx) == Path(chain, from, to, data, ctx)
  {
    var a := chain[0](from, to, data, ctx);
    if a.Deliver? {
      OnePath(chain[1..], from, to, a.data, ctx);
    }
  }

  lemma StageOneMore(
      rest: seq<Interceptor>, from: NodeId, to: NodeId, ctx: Context,
      held: seq<InterceptAction>, passed: seq<Bytes>, moreHeld: seq<InterceptAction>, more: seq<Bytes>,
      soFar: multiset<InterceptAction>, one: multiset<InterceptAction>)
    requires multiset(held) + Paths(rest, from, to, passed, ctx) == soFar
    requires multiset(moreHeld) + Paths(rest, from, to, more, ctx) == one
    ensures multiset(held + moreHeld) + Paths(rest, from, to, passed + more, ctx) == soFar + one
  {
    PathsAppend(rest, from, to, passed, more, ctx);
  }

  lemma OneMorePath(chain: seq<Interceptor>, from: NodeId, to: NodeId, pending: seq<Bytes>, ctx: Context, k: nat)
    requires 0 < k <= |pending|
    ensures Paths(chain, from, to, pending[..k], ctx)
         == Paths(chain, from, to, pending[..k - 1], ctx) + Path(chain, from, to, pending[k - 1], ctx)
  {
    assert pending[..k][..k - 1] == pending[..k - 1];
  }

  /** What has come of some copies at a stage, and where they go on, is all their paths. */
  ghost predicate StageDone(
      chain: seq<Interceptor>, from: NodeId, to: NodeId, pending: seq<Bytes>, ctx: Context,
      held: seq<InterceptAction>, passed: seq<Bytes>)
    requires chain != []
  {
    multiset(held) + Paths(chain[1..], from, to, passed, ctx) == Paths(chain, from, to, pending, ctx)
  }

  lemma StageStep(
      chain: seq<Interceptor>, from: NodeId, to: NodeId, pending: seq<Bytes>, ctx: Context, k: nat,
      held: seq<InterceptAction>, passed: seq<Bytes>)
    requires chain != [] && Plain(chain[0]) && 0 < k <= |pending|
    requires StageDone(chain, from, to, pending[..k - 1], ctx, held, passed)
    ensures
      var a := chain[0](from, to, pending[k - 1], ctx.(copy := k - 1));
      StageDone(chain, from, to, pending[..k], ctx, held + Held(a), passed + Onward(a))
  {
    var a := chain[0](from, to, pending[k - 1], ctx.(copy := k - 1));
    OneStage(chain, from, to, pending[k - 1], ctx, k - 1);
    OneMorePath(chain, from, to, pending, ctx, k);
    StageOneMore(chain[1..], from, to, ctx, held, passed, Held(a), Onward(a),
                 Paths(chain, from, to, pending[..k - 1], ctx), Path(chain, from, to, pending[k - 1], ctx));
  }

  /** One interceptor's part in the paths of the first k copies. */
  lemma {:induction false} Stage(
      chain: seq<Interceptor>, from: NodeId, to: NodeId, pending: seq<Bytes>, ctx: Context, k: nat)
    requires chain != [] && Plain(chain[0]) && k <= |pending|
    ensures StageDone(chain, from, to, pending[..k], ctx, HeldBack(chain[0], from, to, pending, ctx, k),
                      PassedOn(chain[0], from, to, pending, ctx, k))
  {
    if k > 0 {
      Stage(chain, from, to, pending, ctx, k - 1);
      StageStep(chain, from, to, pending, ctx, k, HeldBack(chain[0], from, to, pending, ctx, k - 1),
                PassedOn(chain[0], from, to, pending, ctx, k - 1));
    }
  }

  /** The chain is all its paths: what comes out of it is what comes out of each copy that goes
      in, followed on its own. */
  lemma {:induction false} ChainIsPaths(
      chain: seq<Interceptor>, from: NodeId, to: NodeId, pending: seq<Bytes>, ctx: Context)
    requires AllPlain(chain)
    ensures multiset(Chain(chain, from, to, pending, ctx)) == Paths(chain, from, to, pending, ctx)
    decreases |chain|
  {
    if chain == [] {
      EndOfPaths(from, to, pending, ctx);
    } else {
      ChainIsPaths(chain[1..], from, to, PassedOn(chain[0], from, to, pending, ctx, |pending|), ctx);
      Stage(chain, from, to, pending, ctx, |pending|);
      assert pending[..|pending|] == pending;
    }
  }
}
