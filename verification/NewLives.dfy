/** New lives of a node: an engine that is built while the clock is ahead starts above
    everything its node has published, however long the lives before it went on. */
module NewLives {
  import opened Types
  import opened ShardSpec
  import opened DiagnosticsSpec
  import opened EngineSpec
  import opened Cluster
  import opened EngineRuns
  import opened MutationLaws

  /** A new engine shows its own state and nothing else, at the clock's incarnation. */
  lemma NewEngineIs<S, V>(cfg: Config<V>, value: S, view: V, t: Time)
    ensures
      var e, g := NewEngine(cfg, value, view, t), Generation(t.unixMs, 0);
      && e.cfg == cfg && e.state == StateObject(g, 0, value, t.unixMs, t.unixMs)
      && e.views == map[cfg.id := ViewObject(g, 0, view, t.unixMs, t.unixMs, t.now, None, cfg.id)]
      && e.departed == {} && e.feed == map[] && e.diag.peers == map[] && e.diag.metrics == NO_METRICS
  {
  }

  function Mutations<S, V>(evs: seq<Timed<S, V>>): nat
    decreases |evs|
  {
    if evs == [] then 0 else Mutations(evs[..|evs| - 1]) + if IsMutation(evs[|evs| - 1].ev) then 1 else 0
  }

  /** Over any run the incarnation stays, and the age counts the mutations. */
  lemma {:induction false} AgeCountsMutations<S, V>(e: Engine<S, V>, evs: seq<Timed<S, V>>)
    requires HasOwn(e)
    ensures After(e, evs).state.generation
            == Generation(e.state.generation.incarnation, e.state.generation.age + Mutations(evs))
    decreases |evs|
  {
    if evs != [] {
      var before, last := evs[..|evs| - 1], evs[|evs| - 1];
      AgeCountsMutations(e, before);
      if IsMutation(last.ev) {
        MutationMovesOn(After(e, before), last.ev, last.t);
      } else {
        OthersKeepState(After(e, before), last.ev, last.t);
      }
    }
  }

  lemma OthersKeepState<S, V>(e: Engine<S, V>, ev: Event<S, V>, t: Time)
    requires HasOwn(e) && !IsMutation(ev)
    ensures Step(e, ev, t).engine.state == e.state
  {
  }

  /** Whatever happens to an engine, one that is built for its node when the clock reads more
      is newer than all of it. */
  lemma LaterEngineIsNewer<S, V>(
      cfg: Config<V>, value: S, view: V, t: Time, evs: seq<Timed<S, V>>,
      cfg': Config<V>, value': S, view': V, t': Time)
    requires t.unixMs < t'.unixMs
    ensures
      var before, after := After(NewEngine(cfg, value, view, t), evs), NewEngine(cfg', value', view', t');
      && before.state.generation.incarnation < after.state.generation.incarnation
      && before.state.generation.Lt(after.state.generation)
  {
    AgeCountsMutations(NewEngine(cfg, value, view, t), evs);
    NewEngineIs(cfg, value, view, t);
    NewEngineIs(cfg', value', view', t');
  }

  /** An engine that is built for a node that is down is a new life of it if and only if the
      clock is positive and reads more than every incarnation the node has published. */
  lemma NewEngineIsNewLifeIff<S, V(!new)>(
      c: State<S, V>, cfg: Config<V>, value: S, view: V, t: Time, fmt: Format<V>)
    requires cfg.id !in c.nodes && Speaks(cfg, fmt)
    ensures NewLife(c, NewEngine(cfg, value, view, t), fmt)
            <==> && 0 < t.unixMs
                 && forall s :: s in c.published && s.node == cfg.id ==> s.generation.incarnation < t.unixMs
  {
    NewEngineIs(cfg, value, view, t);
  }
}
