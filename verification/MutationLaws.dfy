/** What the host sees of a mutation: the new state and own entry, and what the urgency and
    the push mode make of it, field by field. */
module MutationLaws {
  import opened Types
  import opened ShardSpec
  import opened DiagnosticsSpec
  import opened EngineSpec
  import opened EngineRuns

  // ── The rows of the decision matrix ────────────────────────────

  /** A mutation that goes out at once. */
  predicate PushedNow(s: Strategy, u: Urgency) {
    u.Immediate? || (u.Default? && s.pushMode == Some(ActivePush))
  }

  /** A mutation that is held back altogether. */
  predicate HeldBack(s: Strategy, u: Urgency) {
    u.Suppressed? || (u.Default? && s.pushMode == None)
  }

  /** The owned state and the own entry after a mutation, and what it leaves alone. */
  lemma MutationMovesOn<S, V>(e: Engine<S, V>, ev: Event<S, V>, t: Time)
    requires HasOwn(e) && IsMutation(ev)
    ensures
      var e', g := Step(e, ev, t).engine, Generation(e.state.generation.incarnation, e.state.generation.age + 1);
      && e'.state == StateObject(g, e.state.storageVersion, ev.value, e.state.createdTime, t.unixMs)
      && e'.views == e.views[e.cfg.id := ViewObject(g, e.state.storageVersion, ev.view, e.state.createdTime,
                                                    t.unixMs, t.now, None, e.cfg.id)]
      && e'.departed == e.departed && e'.diag.peers == e.diag.peers
  {
  }

  /** The matrix for a mutation without a delta: whatever goes out is the full new view. */
  lemma SnapshotRows<S, V>(e: Engine<S, V>, value: S, view: V, u: Urgency, t: Time)
    requires HasOwn(e)
    ensures
      var out := Step(e, Mutation(value, view, u), t);
      var s, m, m' := e.cfg.strategy, e.diag.metrics, out.engine.diag.metrics;
      var snapshot := FullSnapshot(e.cfg.name, e.cfg.id, out.engine.state.generation, e.cfg.wireVersion,
                                   e.cfg.serialize(view));
      && (PushedNow(s, u) ==>
            && out.action == Some(BroadcastSync(snapshot)) && out.engine.feed == e.feed
            && m' == m.(totalMutations := m.totalMutations + 1, snapshotsSent := m.snapshotsSent + 1))
      && (u.Delayed? ==>
            && out.action == Some(ScheduleDelayed(u.delay, snapshot)) && out.engine.feed == e.feed
            && m' == m.(totalMutations := m.totalMutations + 1, snapshotsSent := m.snapshotsSent + 1))
      && (HeldBack(s, u) ==>
            && out.action == None && out.engine.feed == e.feed
            && m' == m.(totalMutations := m.totalMutations + 1, deltasSuppressed := m.deltasSuppressed + 1))
      && (LeftToFeed(s, u) ==> out.action == None && m' == m.(totalMutations := m.totalMutations + 1))
  {
  }

  /** The matrix for a mutation with a delta: a delayed send carries the delta, and an
      immediate one exactly when the state supports deltas. */
  lemma DeltaRows<S, V>(e: Engine<S, V>, value: S, view: V, data: Bytes, u: Urgency, t: Time)
    requires HasOwn(e)
    ensures
      var out := Step(e, DeltaMutation(value, view, data, u), t);
      var s, g, m, m' := e.cfg.strategy, out.engine.state.generation, e.diag.metrics, out.engine.diag.metrics;
      var delta := DeltaUpdate(e.cfg.name, e.cfg.id, g, e.cfg.wireVersion, data);
      var snapshot := FullSnapshot(e.cfg.name, e.cfg.id, g, e.cfg.wireVersion, e.cfg.serialize(view));
      && (PushedNow(s, u) && e.cfg.applier.Some? ==>
            && out.action == Some(BroadcastSync(delta)) && out.engine.feed == e.feed
            && m' == m.(totalMutations := m.totalMutations + 1, deltasSent := m.deltasSent + 1,
                        deltasImmediate := m.deltasImmediate + 1))
      && (PushedNow(s, u) && e.cfg.applier.None? ==>
            && out.action == Some(BroadcastSync(snapshot)) && out.engine.feed == e.feed
            && m' == m.(totalMutations := m.totalMutations + 1, snapshotsSent := m.snapshotsSent + 1))
      && (u.Delayed? ==>
            && out.action == Some(ScheduleDelayed(u.delay, delta)) && out.engine.feed == e.feed
            && m' == m.(totalMutations := m.totalMutations + 1, deltasSent := m.deltasSent + 1))
      && (HeldBack(s, u) ==>
            && out.action == None && out.engine.feed == e.feed
            && m' == m.(totalMutations := m.totalMutations + 1, deltasSuppressed := m.deltasSuppressed + 1))
      && (LeftToFeed(s, u) ==> out.action == None && m' == m.(totalMutations := m.totalMutations + 1))
  {
  }

  /** A mutation that is left to the feed announces its own generation there, unless a higher
      one waits already; nothing else changes in the feed. */
  lemma FeedRow<S, V>(e: Engine<S, V>, ev: Event<S, V>, t: Time)
    requires HasOwn(e) && IsMutation(ev) && LeftToFeed(e.cfg.strategy, ev.urgency)
    ensures
      var e', key := Step(e, ev, t).engine, (e.cfg.name, e.cfg.id);
      && key in e'.feed && e'.feed == e.feed[key := e'.feed[key]]
      && e'.state.generation.Le(e'.feed[key])
      && (e'.feed[key] == e'.state.generation || (key in e.feed && e'.feed[key] == e.feed[key]))
  {
  }

  // ── Whole runs ─────────────────────────────────────────────────

  /** What is announced in the feed: the node's own state, and no generation it has not reached. */
  ghost predicate FeedIsOwn<S, V>(e: Engine<S, V>) {
    forall k :: k in e.feed ==> k == (e.cfg.name, e.cfg.id) && e.feed[k].Le(e.state.generation)
  }

  lemma StepKeepsFeedOwn<S, V>(e: Engine<S, V>, ev: Event<S, V>, t: Time)
    requires HasOwn(e) && FeedIsOwn(e)
    ensures FeedIsOwn(Step(e, ev, t).engine)
  {
    if IsMutation(ev) && LeftToFeed(e.cfg.strategy, ev.urgency) {
      FeedRow(e, ev, t);
    }
  }

  /** The mutations since the last flush that were left to the feed have told it of the newest. */
  function NewestLeft<S, V>(e: Engine<S, V>, evs: seq<Timed<S, V>>): Option<Generation>
    requires HasOwn(e)
    decreases |evs|
  {
    if evs == [] then None
    else
      var before, ev := evs[..|evs| - 1], evs[|evs| - 1].ev;
      if ev.Flush? then None
      else if IsMutation(ev) && LeftToFeed(e.cfg.strategy, ev.urgency) then Some(After(e, evs).state.generation)
      else NewestLeft(e, before)
  }

  /** Over any run of an engine whose feed is empty at first: the feed holds exactly the
      generation of the last mutation that was left to it since the last flush, or nothing
      if there is none. */
  lemma {:induction false} FeedHoldsNewest<S, V>(e: Engine<S, V>, evs: seq<Timed<S, V>>)
    requires HasOwn(e) && e.feed == map[]
    ensures
      var r, newest := After(e, evs), NewestLeft(e, evs);
      && FeedIsOwn(r)
      && r.feed == (if newest.None? then map[] else map[(e.cfg.name, e.cfg.id) := newest.value])
    decreases |evs|
  {
    if evs != [] {
      var before, last := evs[..|evs| - 1], evs[|evs| - 1];
      FeedHoldsNewest(e, before);
      StepKeepsFeedOwn(After(e, before), last.ev, last.t);
      FeedStep(After(e, before), last.ev, last.t, NewestLeft(e, before));
    }
  }

  lemma FeedStep<S, V>(e: Engine<S, V>, ev: Event<S, V>, t: Time, newest: Option<Generation>)
    requires HasOwn(e) && FeedIsOwn(e)
    requires e.feed == (if newest.None? then map[] else map[(e.cfg.name, e.cfg.id) := newest.value])
    ensures
      var e' := Step(e, ev, t).engine;
      e'.feed ==
      if ev.Flush? then map[]
      else if IsMutation(ev) && LeftToFeed(e.cfg.strategy, ev.urgency) then
        map[(e.cfg.name, e.cfg.id) := e'.state.generation]
      else e.feed
  {
    if IsMutation(ev) {
      MutationMovesOn(e, ev, t);
      if LeftToFeed(e.cfg.strategy, ev.urgency) {
        FeedRow(e, ev, t);
      }
    }
  }
}
