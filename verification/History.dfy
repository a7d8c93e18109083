/** Cluster runs that are grown one label at a time, as a program that simulates a cluster
    grows them, and what the theorems about runs say of their last state. */
module History {
  import opened Types
  import opened ShardSpec
  import opened EngineSpec
  import opened Cluster
  import opened Agreement
  import opened RestartSafety
  import opened Convergence

  /** A run so far: its labels, the state they have led to, and the pairs that are owed
      their owner's current generation. */
  datatype Record<!S, !V> = Record(labels: seq<Label<S, V>>, state: State<S, V>, owed: set<Pair>)

  ghost predicate IsOwed<S(!new), V(!new)>(
      states: seq<State<S, V>>, labels: seq<Label<S, V>>, sent: seq<set<Pair>>, fmt: Format<V>)
    requires IsRun(states, labels, fmt)
  {
    && |sent| == |states| && sent[0] == {}
    && forall i :: 0 <= i < |labels| ==> Owes(states, labels, sent, fmt, i)
  }

  /** The record's labels do lead from the empty cluster to its state. */
  ghost predicate IsRecord<S(!new), V(!new)>(r: Record<S, V>, fmt: Format<V>) {
    exists states, sent ::
      && IsRun(states, r.labels, fmt) && IsOwed(states, r.labels, sent, fmt)
      && states[|r.labels|] == r.state && sent[|r.labels|] == r.owed
  }

  ghost function NoRecord<S, V>(): Record<S, V> {
    Record([], Empty(), {})
  }

  lemma NothingHappened<S(!new), V(!new)>(fmt: Format<V>)
    ensures IsRecord(NoRecord<S, V>(), fmt)
  {
    var states: seq<State<S, V>>, sent: seq<set<Pair>> := [Empty()], [{}];
    assert IsRun(states, [], fmt) && IsOwed(states, [], sent, fmt);
  }

  lemma OneMore<S(!new), V(!new)>(r: Record<S, V>, l: Label<S, V>, fmt: Format<V>) returns (r': Record<S, V>)
    requires IsRecord(r, fmt) && Enabled(r.state, l, fmt)
    ensures IsRecord(r', fmt) && r'.labels == r.labels + [l]
    ensures r'.state == Next(r.state, l, fmt) && r'.owed == NowSent(r.state, r.owed, l, fmt)
  {
    var states, sent :|
      && IsRun(states, r.labels, fmt) && IsOwed(states, r.labels, sent, fmt)
      && states[|r.labels|] == r.state && sent[|r.labels|] == r.owed;
    r' := Record(r.labels + [l], Next(r.state, l, fmt), NowSent(r.state, r.owed, l, fmt));
    LongerRun(states, r.labels, sent, l, fmt);
    assert (states + [r'.state])[|r'.labels|] == r'.state && (sent + [r'.owed])[|r'.labels|] == r'.owed;
  }

  lemma LongerRun<S(!new), V(!new)>(
      states: seq<State<S, V>>, labels: seq<Label<S, V>>, sent: seq<set<Pair>>, l: Label<S, V>, fmt: Format<V>)
    requires IsRun(states, labels, fmt) && IsOwed(states, labels, sent, fmt) && Enabled(states[|labels|], l, fmt)
    ensures
      var c, owed := states[|labels|], sent[|labels|];
      && IsRun(states + [Next(c, l, fmt)], labels + [l], fmt)
      && IsOwed(states + [Next(c, l, fmt)], labels + [l], sent + [NowSent(c, owed, l, fmt)], fmt)
  {
    var n := |labels|;
    var longer, states', sent' :=
        labels + [l], states + [Next(states[n], l, fmt)], sent + [NowSent(states[n], sent[n], l, fmt)];
    forall i | 0 <= i < |longer|
      ensures Leads(states', longer, fmt, i)
    {
      if i < n {
        assert Leads(states, labels, fmt, i);
        assert states'[i] == states[i] && longer[i] == labels[i] && states'[i + 1] == states[i + 1];
      } else {
        assert states'[i] == states[n] && longer[i] == l;
      }
    }
    forall i | 0 <= i < |longer| ensures Owes(states', longer, sent', fmt, i) {
      assert Leads(states', longer, fmt, i);
      if i < n {
        assert Owes(states, labels, sent, fmt, i);
        assert states'[i] == states[i] && longer[i] == labels[i] && sent'[i + 1] == sent[i + 1] && sent'[i] == sent[i];
      } else {
        assert states'[i] == states[n] && longer[i] == l && sent'[i] == sent[n];
      }
    }
  }

  /** Agreement holds of every state that is reached. */
  lemma ReachedAgrees<S(!new), V(!new)>(r: Record<S, V>, fmt: Format<V>)
    requires IsRecord(r, fmt)
    ensures Agree(r.state, fmt)
  {
    var states, sent :|
      && IsRun(states, r.labels, fmt) && IsOwed(states, r.labels, sent, fmt)
      && states[|r.labels|] == r.state && sent[|r.labels|] == r.owed;
    AgreementAlways(states, r.labels, fmt, |r.labels|);
  }

  lemma ReachedHasOwn<S(!new), V(!new)>(r: Record<S, V>, fmt: Format<V>, id: NodeId)
    requires IsRecord(r, fmt) && id in r.state.nodes
    ensures HasOwn(r.state.nodes[id].engine) && r.state.nodes[id].engine.cfg.id == id
  {
    ReachedAgrees(r, fmt);
    assert GoodNode(id, r.state.nodes[id], r.state.published, fmt);
  }

  // ── Convergence ────────────────────────────────────────────────

  /** Every life in the run was built from the reference release. */
  ghost predicate Uniform<S, V>(labels: seq<Label<S, V>>, ref: Config<V>) {
    forall k: nat {:trigger Inside(Uniformity, k)} :: Inside(Uniformity, k) ==>
      forall i :: 0 <= i < |labels| ==> OneRelease(labels[i], ref)
  }

  lemma OneMoreUniform<S, V>(labels: seq<Label<S, V>>, l: Label<S, V>, ref: Config<V>)
    requires Uniform(labels, ref) && OneRelease(l, ref)
    ensures Uniform(labels + [l], ref)
  {
    assert Inside(Uniformity, 0);
  }

  /** What goes on by itself: no life begins, and if `kept` what is owed stays owed. */
  ghost predicate Background<S, V>(r: Record<S, V>, r': Record<S, V>, ref: Config<V>, kept: bool) {
    (kept ==> r'.owed == r.owed) && (Uniform(r.labels, ref) ==> Uniform(r'.labels, ref))
  }

  /** One label of what goes on by itself. */
  lemma OneMoreInBackground<S, V>(r: Record<S, V>, r': Record<S, V>, l: Label<S, V>, ref: Config<V>, kept: bool)
    requires r'.labels == r.labels + [l] && !l.Start? && (kept ==> r'.owed == r.owed)
    ensures Background(r, r', ref, kept)
  {
    if Uniform(r.labels, ref) {
      OneMoreUniform(r.labels, l, ref);
    }
  }

  /** The reader shows the owner's current generation and view. */
  ghost predicate UpToDate<S, V>(c: State<S, V>, q: Pair) {
    && Holds(c, q.reader, q.owner) && Holds(c, q.owner, q.owner)
    && Entry(c, q.reader, q.owner).generation == c.nodes[q.owner].engine.state.generation
    && Entry(c, q.reader, q.owner).value == Entry(c, q.owner, q.owner).value
  }

  /** Once a cluster of one release is quiescent, every pair that is owed is up to date. */
  lemma QuiescentMeansConverged<S(!new), V(!new)>(r: Record<S, V>, ref: Config<V>, fmt: Format<V>, q: Pair)
    requires IsRecord(r, fmt) && Uniform(r.labels, ref) && RoundTrips(ref)
    requires Quiescent(r.state) && q in r.owed
    ensures UpToDate(r.state, q)
  {
    var states, sent :|
      && IsRun(states, r.labels, fmt) && IsOwed(states, r.labels, sent, fmt)
      && states[|r.labels|] == r.state && sent[|r.labels|] == r.owed;
    assert Inside(Uniformity, 0);
    forall i | 0 <= i < |r.labels| ensures OwesInRelease(states, r.labels, sent, ref, fmt, i) {
      assert OneRelease(r.labels[i], ref) && Owes(states, r.labels, sent, fmt, i);
    }
    Converges(states, r.labels, sent, ref, fmt, |r.labels|, q);
  }
}
