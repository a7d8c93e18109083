/** Startup from persisted state, and what a node publishes over all its lives. */
module Startup {
  import opened Types
  import opened ShardSpec
  import opened TwoPhase

  datatype PersistError = StorageUnavailable(text: string) | DeserializationFailed(text: string) | Io(text: string)

  datatype StartupOutcome<S> =
    | Fresh(state: StateObject<S>)
    | Restored(state: StateObject<S>)
    | Migrated(state: StateObject<S>, fromVersion: nat)
    | FallbackToEmpty(state: StateObject<S>, reason: string)

  type LoadResult<S> = Result<Option<StateObject<S>>, PersistError>

  function FreshState<S>(version: nat, value: S, t: Time): StateObject<S> {
    StateObject(Generation(t.unixMs, 0), version, value, t.unixMs, t.unixMs)
  }

  function FreshStateAtLeast<S>(version: nat, value: S, t: Time, oldIncarnation: nat): StateObject<S> {
    var incarnation := if t.unixMs < oldIncarnation + 1 then oldIncarnation + 1 else t.unixMs;
    StateObject(Generation(incarnation, 0), version, value, t.unixMs, t.unixMs)
  }

  function Initialize<S>(
      version: nat, loaded: LoadResult<S>, default: S, t: Time, migrate: (S, nat) -> Result<S, string>)
    : StartupOutcome<S>
  {
    match loaded
    case Err(e) => FallbackToEmpty(FreshState(version, default, t), e.text)
    case Ok(None) => Fresh(FreshState(version, default, t))
    case Ok(Some(s)) =>
      if s.storageVersion == version then Restored(s)
      else
        match migrate(s.value, s.storageVersion)
        case Ok(value) => Migrated(s.(storageVersion := version, value := value), s.storageVersion)
        case Err(reason) => FallbackToEmpty(FreshStateAtLeast(version, default, t, s.generation.incarnation), reason)
  }

  // ── A node over all its lives ──────────────────────────────────

  /** A generation shown to the cluster, with its view. */
  datatype Shown<V> = Shown(generation: Generation, view: V)

  /** A node: its durable store, its running state if it is up, the mutations prepared in
      this life, everything it has ever shown in order, and whether the store was left
      behind by a start that fell back to an empty state. */
  datatype Host<!S, !V> = Host(
    store: Option<StateObject<S>>,
    life: Option<StateObject<S>>,
    prepared: seq<Prepared<S, V>>,
    shown: seq<Shown<V>>,
    behind: bool)

  datatype Act<!S, !V> =
    | Plan(u: Update<S, V>)
    | Save(ticket: nat)
    | Commit(ticket: nat)
    | Crash
    | Boot(version: nat, loadError: Option<PersistError>, default: S, t: Time, migrate: (S, nat) -> Result<S, string>)

  function Load<S, V>(h: Host<S, V>, a: Act<S, V>): LoadResult<S>
    requires a.Boot?
  {
    if a.loadError.Some? then Err(a.loadError.value) else Ok(h.store)
  }

  function Outcome<S, V>(h: Host<S, V>, a: Act<S, V>): StartupOutcome<S>
    requires a.Boot?
  {
    Initialize(a.version, Load(h, a), a.default, a.t, a.migrate)
  }

  predicate UsesStore<S, V>(h: Host<S, V>, a: Act<S, V>)
    requires a.Boot?
  {
    Outcome(h, a).Restored? || Outcome(h, a).Migrated?
  }

  /** What the code itself asks for: planning, saving and committing need a running node
      and a mutation prepared in this life, and a commit needs its base to be the current
      generation. Nothing ties a commit to the store, or a save to the current state. */
  ghost predicate Allowed<S, V(!new)>(h: Host<S, V>, a: Act<S, V>, project: S -> V) {
    match a
    case Plan(u) => h.life.Some? && u.project == project
    case Save(k) => h.life.Some? && k < |h.prepared|
    case Commit(k) => h.life.Some? && k < |h.prepared| && h.prepared[k].base == h.life.value.generation
    case Crash => h.life.Some?
    case Boot(_, _, _, _, _) => h.life.None?
  }

  function Apply<S, V>(h: Host<S, V>, a: Act<S, V>, project: S -> V): Host<S, V>
    requires (a.Plan? || a.Save? || a.Commit?) ==> h.life.Some?
    requires (a.Save? || a.Commit?) ==> a.ticket < |h.prepared|
  {
    match a
    case Plan(u) => h.(prepared := h.prepared + [Prepare(h.life.value, u)])
    case Save(k) => h.(store := Some(h.prepared[k].newState), behind := false)
    case Commit(k) =>
      var p := h.prepared[k];
      h.(life := Some(p.newState), shown := h.shown + [Shown(p.newState.generation, p.view)])
    case Crash => h.(life := None, prepared := [])
    case Boot(_, _, _, _, _) =>
      var out := Outcome(h, a);
      h.(life := Some(out.state),
         shown := h.shown + [Shown(out.state.generation, project(out.state.value))],
         behind := h.behind || (out.FallbackToEmpty? && h.store.Some?))
  }

  /** Published generations never go down, and none is published with two views. */
  ghost predicate Sound<V>(shown: seq<Shown<V>>) {
    forall i, j :: 0 <= i < j < |shown| ==> shown[i].generation.Lt(shown[j].generation) || shown[i] == shown[j]
  }

  /** One publication may follow another: it is newer, or the same once more. */
  predicate MayFollow<V(==)>(last: Shown<V>, next: Shown<V>) {
    last.generation.Lt(next.generation) || last == next
  }

  function Last<V>(shown: seq<Shown<V>>): Shown<V>
    requires shown != []
  {
    shown[|shown| - 1]
  }

  function Publication<S, V>(state: StateObject<S>, project: S -> V): Shown<V> {
    Shown(state.generation, project(state.value))
  }

  /** Publications are checked one by one, each against the one before it. */
  lemma SoundOneMore<V>(shown: seq<Shown<V>>, next: Shown<V>)
    ensures Sound(shown + [next]) <==> Sound(shown) && (shown == [] || MayFollow(Last(shown), next))
  {
    var longer := shown + [next];
    if Sound(longer) {
      forall i, j | 0 <= i < j < |shown| ensures shown[i].generation.Lt(shown[j].generation) || shown[i] == shown[j] {
        assert longer[i] == shown[i] && longer[j] == shown[j];
      }
      if shown != [] {
        assert longer[|shown| - 1] == Last(shown) && longer[|shown|] == next;
      }
    }
  }

  /** What every run keeps, sound or not: the running state is what was published last, and
      everything prepared belongs to this life. */
  ghost predicate Coherent<S, V>(h: Host<S, V>, project: S -> V) {
    && (h.life.Some? ==> h.shown != [] && Last(h.shown) == Publication(h.life.value, project))
    && (h.life.None? ==> h.prepared == [])
    && (forall k :: 0 <= k < |h.prepared| ==>
          && h.prepared[k].newState.generation == h.prepared[k].base.Next()
          && h.prepared[k].base.incarnation == h.life.value.generation.incarnation
          && h.prepared[k].view == project(h.prepared[k].newState.value))
    && (h.store.Some? ==>
          exists i :: 0 <= i < |h.shown| && h.store.value.generation.incarnation == h.shown[i].generation.incarnation)
  }

  lemma StepKeepsCoherent<S, V(!new)>(h: Host<S, V>, a: Act<S, V>, project: S -> V)
    requires Coherent(h, project) && Allowed(h, a, project)
    ensures Coherent(Apply(h, a, project), project)
  {
    var h' := Apply(h, a, project);
    if a.Save? {
      assert h'.store.value.generation.incarnation == h'.shown[|h.shown| - 1].generation.incarnation;
    } else if h.store.Some? {
      var i :| 0 <= i < |h.shown| && h.store.value.generation.incarnation == h.shown[i].generation.incarnation;
      assert h'.shown[i] == h.shown[i];
    }
  }

  /** What a start publishes may follow what was published last. */
  predicate StartFollows<S, V(==)>(h: Host<S, V>, a: Act<S, V>, project: S -> V)
    requires a.Boot?
  {
    h.shown == [] || MayFollow(Last(h.shown), Publication(Outcome(h, a).state, project))
  }

  /** Only starts can break soundness: the guard of commit is enough for commits. */
  lemma StepIsSoundIff<S, V(!new)>(h: Host<S, V>, a: Act<S, V>, project: S -> V)
    requires Coherent(h, project) && Allowed(h, a, project)
    ensures Sound(Apply(h, a, project).shown) <==> Sound(h.shown) && (a.Boot? ==> StartFollows(h, a, project))
  {
    if a.Boot? {
      SoundOneMore(h.shown, Publication(Outcome(h, a).state, project));
    } else if a.Commit? {
      var p := h.prepared[a.ticket];
      SoundOneMore(h.shown, Shown(p.newState.generation, p.view));
    }
  }

  ghost predicate IsHistory<S, V(!new)>(hs: seq<Host<S, V>>, acts: seq<Act<S, V>>, project: S -> V) {
    && |hs| == |acts| + 1
    && hs[0] == Host(None, None, [], [], false)
    && forall i :: 0 <= i < |acts| ==> Allowed(hs[i], acts[i], project) && hs[i + 1] == Apply(hs[i], acts[i], project)
  }

  /** Over every history of prepares, atomic saves, commits, crashes and starts that the code
      allows: the published generations never go down, and none is published with two
      views, if and only if each start publishes what may follow the last publication. */
  lemma {:induction false} PublishedSoundlyIff<S, V(!new)>(
      hs: seq<Host<S, V>>, acts: seq<Act<S, V>>, project: S -> V, i: nat)
    requires IsHistory(hs, acts, project) && i < |hs|
    ensures Coherent(hs[i], project)
    ensures Sound(hs[i].shown) <==> forall k :: 0 <= k < i && acts[k].Boot? ==> StartFollows(hs[k], acts[k], project)
  {
    if i > 0 {
      PublishedSoundlyIff(hs, acts, project, i - 1);
      StepKeepsCoherent(hs[i - 1], acts[i - 1], project);
      StepIsSoundIff(hs[i - 1], acts[i - 1], project);
    }
  }

  // ── Which starts follow ────────────────────────────────────────

  /** The store as it stands is enough for a restart after this publication: it holds
      something newer, or the very same. A host can test this before it commits. */
  predicate Backs<S, V(==)>(store: Option<StateObject<S>>, last: Shown<V>, project: S -> V) {
    store.Some? && MayFollow(last, Publication(store.value, project))
  }

  /** A commit that passes its guard, followed by a crash and a start that restores the
      store, is published soundly if and only if the store backed the commit. */
  lemma CommitSurvivesIff<S, V(!new)>(h: Host<S, V>, k: nat, boot: Act<S, V>, project: S -> V)
    requires Coherent(h, project) && Sound(h.shown) && Allowed(h, Commit(k), project)
    requires boot.Boot? && UsesStore(Apply(Apply(h, Commit(k), project), Crash, project), boot)
    requires KeepsProjection(h.store, boot, project)
    ensures
      var p := h.prepared[k];
      Sound(Apply(Apply(Apply(h, Commit(k), project), Crash, project), boot, project).shown)
      <==> Backs(h.store, Shown(p.newState.generation, p.view), project)
  {
    StepKeepsCoherent(h, Commit(k), project);
    StepIsSoundIff(h, Commit(k), project);
    RestartIsSoundIff(Apply(h, Commit(k), project), boot, project);
  }

  /** A migration, if the start runs one that succeeds, does not change the projection. */
  ghost predicate KeepsProjection<S, V>(store: Option<StateObject<S>>, boot: Act<S, V>, project: S -> V)
    requires boot.Boot?
  {
    store.Some? && store.value.storageVersion != boot.version
    && boot.migrate(store.value.value, store.value.storageVersion).Ok? ==>
      project(boot.migrate(store.value.value, store.value.storageVersion).value) == project(store.value.value)
  }

  /** At any moment of a running node: a crash now, and a start from the store as it is now,
      keep the publications sound if and only if the store backs the current state. */
  lemma RestartIsSoundIff<S, V(!new)>(h: Host<S, V>, boot: Act<S, V>, project: S -> V)
    requires Coherent(h, project) && Sound(h.shown) && h.life.Some?
    requires boot.Boot? && UsesStore(Apply(h, Crash, project), boot) && KeepsProjection(h.store, boot, project)
    ensures
      Sound(Apply(Apply(h, Crash, project), boot, project).shown)
      <==> Backs(h.store, Publication(h.life.value, project), project)
  {
    StepKeepsCoherent(h, Crash, project);
    StepIsSoundIff(Apply(h, Crash, project), boot, project);
  }

  /** The clock reads more than every incarnation shown so far. */
  ghost predicate ClockAhead<S, V>(h: Host<S, V>, t: Time) {
    forall i :: 0 <= i < |h.shown| ==> h.shown[i].generation.incarnation < t.unixMs
  }

  /** A start that takes its incarnation from a clock that is ahead always follows. */
  lemma ClockStartsFollow<S, V(!new)>(h: Host<S, V>, a: Act<S, V>, project: S -> V)
    requires a.Boot? && !UsesStore(h, a) && ClockAhead(h, a.t)
    ensures StartFollows(h, a, project)
  {
  }

  // ── Persist before publish ─────────────────────────────────────

  /** A host that persists before it publishes: it saves what is based on the current state,
      and commits what the store holds. Its clock is ahead when a start takes its
      incarnation from the clock alone, and its migrations keep the projection. */
  ghost predicate Careful<S, V>(h: Host<S, V>, a: Act<S, V>, project: S -> V)
    requires h.life.None? ==> !a.Save? && !a.Commit?
    requires (a.Save? || a.Commit?) ==> a.ticket < |h.prepared|
  {
    match a
    case Save(k) => h.prepared[k].base == h.life.value.generation
    case Commit(k) => h.store == Some(h.prepared[k].newState)
    case Boot(_, _, _, t, _) =>
      && (Outcome(h, a).Fresh? || a.loadError.Some? || (Outcome(h, a).FallbackToEmpty? && h.behind) ==>
          ClockAhead(h, t))
      && KeepsProjection(h.store, a, project)
    case _ => true
  }

  /** The store backs the last publication, unless a start that fell back to an empty state
      has left it behind. */
  ghost predicate Persisted<S, V>(h: Host<S, V>, project: S -> V) {
    && (h.store.Some? && !h.behind && h.shown != [] ==> Backs(h.store, Last(h.shown), project))
    && (h.behind ==> h.store.Some? && h.shown != [] && h.store.value.generation.Lt(Last(h.shown).generation))
  }

  /** For a careful host a start from the store follows if and only if no start that fell
      back has left the store behind; every other start follows. */
  lemma CarefulStartIff<S, V(!new)>(h: Host<S, V>, a: Act<S, V>, project: S -> V)
    requires Coherent(h, project) && Persisted(h, project) && Allowed(h, a, project) && a.Boot?
             && Careful(h, a, project)
    ensures StartFollows(h, a, project) <==> (UsesStore(h, a) ==> !h.behind)
  {
    if h.store.Some? {
      var i :| 0 <= i < |h.shown| && h.store.value.generation.incarnation == h.shown[i].generation.incarnation;
    }
  }

  lemma CarefulKeepsPersisted<S, V(!new)>(h: Host<S, V>, a: Act<S, V>, project: S -> V)
    requires Coherent(h, project) && Persisted(h, project) && Allowed(h, a, project) && Careful(h, a, project)
    requires a.Boot? && UsesStore(h, a) ==> !h.behind
    ensures Persisted(Apply(h, a, project), project)
  {
    if h.store.Some? {
      var i :| 0 <= i < |h.shown| && h.store.value.generation.incarnation == h.shown[i].generation.incarnation;
    }
  }

  /** Persist before publish: a careful host whose starts never read a store that was left
      behind publishes soundly over all its lives. */
  lemma {:induction false} CarefulHostsAreSound<S, V(!new)>(
      hs: seq<Host<S, V>>, acts: seq<Act<S, V>>, project: S -> V, i: nat)
    requires IsHistory(hs, acts, project) && i < |hs|
    requires forall k :: 0 <= k < i ==> Careful(hs[k], acts[k], project)
    requires forall k :: 0 <= k < i && acts[k].Boot? && UsesStore(hs[k], acts[k]) ==> !hs[k].behind
    ensures Persisted(hs[i], project) && Sound(hs[i].shown)
  {
    if i > 0 {
      var h, a := hs[i - 1], acts[i - 1];
      CarefulHostsAreSound(hs, acts, project, i - 1);
      PublishedSoundlyIff(hs, acts, project, i - 1);
      CarefulKeepsPersisted(h, a, project);
      StepIsSoundIff(h, a, project);
      if a.Boot? {
        CarefulStartIff(h, a, project);
      }
    }
  }

  // ── Runs that go wrong ─────────────────────────────────────────

  /** The store can be left behind: whatever was saved, if a start fails to load it and
      falls back to an empty state, and the node then crashes before it saves, the next
      start that loads the store takes the published generations down. */
  lemma FallbackThenRestoreGoesDown<S, V(!new)>(
      h: Host<S, V>, error: PersistError, default: S, t: Time, t': Time, migrate: (S, nat) -> Result<S, string>,
      project: S -> V)
    requires Coherent(h, project) && Sound(h.shown) && h.life.None? && h.store.Some? && ClockAhead(h, t)
    ensures
      var fallback := Boot(h.store.value.storageVersion, Some(error), default, t, migrate);
      var restore := Boot(h.store.value.storageVersion, None, default, t', migrate);
      var h1 := Apply(h, fallback, project);
      var h2 := Apply(h1, Crash, project);
      && Allowed(h, fallback, project) && Allowed(h1, Crash, project) && Allowed(h2, restore, project)
      && Sound(h2.shown) && !Sound(Apply(h2, restore, project).shown)
  {
    var fallback := Boot(h.store.value.storageVersion, Some(error), default, t, migrate);
    var restore := Boot(h.store.value.storageVersion, None, default, t', migrate);
    var h1 := Apply(h, fallback, project);
    var h2 := Apply(h1, Crash, project);
    StepKeepsCoherent(h, fallback, project);
    StepIsSoundIff(h, fallback, project);
    StepKeepsCoherent(h1, Crash, project);
    StepIsSoundIff(h2, restore, project);
    var i :| 0 <= i < |h.shown| && h.store.value.generation.incarnation == h.shown[i].generation.incarnation;
    assert Last(h2.shown).generation == Generation(t.unixMs, 0);
  }

  lemma OneMoreAct<S, V(!new)>(hs: seq<Host<S, V>>, acts: seq<Act<S, V>>, a: Act<S, V>, project: S -> V)
    returns (longer: seq<Host<S, V>>)
    requires IsHistory(hs, acts, project) && Allowed(hs[|acts|], a, project)
    ensures IsHistory(longer, acts + [a], project) && longer == hs + [Apply(hs[|acts|], a, project)]
  {
    longer := hs + [Apply(hs[|acts|], a, project)];
    forall k | 0 <= k < |acts + [a]|
      ensures Allowed(longer[k], (acts + [a])[k], project)
              && longer[k + 1] == Apply(longer[k], (acts + [a])[k], project)
    {
      if k < |acts| {
        assert longer[k] == hs[k] && longer[k + 1] == hs[k + 1] && (acts + [a])[k] == acts[k];
      }
    }
  }

  /** The guard of commit does not protect the store. Here is a history that the code allows
      from a first start on: two mutations are prepared from one state and both are saved,
      the first is committed, and the restart shows the second. */
  lemma SplitHistory<S, V(!new)>(a: S -> S, b: S -> S, project: S -> V, boot: Act<S, V>)
    returns (hs: seq<Host<S, V>>, acts: seq<Act<S, V>>)
    requires boot.Boot? && boot.loadError.None?
    ensures IsHistory(hs, acts, project)
    ensures acts == [boot, Plan(Update(a, project, boot.t)), Plan(Update(b, project, boot.t)),
                     Save(0), Save(1), Commit(0), Crash, boot]
    ensures
      var g := Generation(boot.t.unixMs, 0);
      && hs[7].shown == [Shown(g, project(boot.default)), Shown(g.Next(), project(a(boot.default)))]
      && hs[8].shown == hs[7].shown + [Shown(g.Next(), project(b(boot.default)))]
  {
    var s := FreshState(boot.version, boot.default, boot.t);
    var pa, pb := Prepare(s, Update(a, project, boot.t)), Prepare(s, Update(b, project, boot.t));
    hs, acts := SplitPlans(a, b, project, boot);
    hs, acts := SplitSaves(hs, acts, pa, pb, s, [Publication(s, project)], project);
    hs, acts := SplitEnds(hs, acts, pa, pb, s, [Publication(s, project)], project, boot);
  }

  lemma SplitPlans<S, V(!new)>(a: S -> S, b: S -> S, project: S -> V, boot: Act<S, V>)
    returns (hs: seq<Host<S, V>>, acts: seq<Act<S, V>>)
    requires boot.Boot? && boot.loadError.None?
    ensures acts == [boot, Plan(Update(a, project, boot.t)), Plan(Update(b, project, boot.t))]
    ensures IsHistory(hs, acts, project)
    ensures
      var s := FreshState(boot.version, boot.default, boot.t);
      var pa, pb := Prepare(s, Update(a, project, boot.t)), Prepare(s, Update(b, project, boot.t));
      hs[3] == Host(None, Some(s), [pa, pb], [Publication(s, project)], false)
  {
    var s := FreshState(boot.version, boot.default, boot.t);
    var ua, ub := Update(a, project, boot.t), Update(b, project, boot.t);
    hs := OneMoreAct([Host(None, None, [], [], false)], [], boot, project);
    assert hs[1] == Host(None, Some(s), [], [Publication(s, project)], false);
    hs := OneMoreAct(hs, [boot], Plan(ua), project);
    assert hs[2] == Host(None, Some(s), [Prepare(s, ua)], [Publication(s, project)], false);
    hs := OneMoreAct(hs, [boot, Plan(ua)], Plan(ub), project);
    acts := [boot, Plan(ua)] + [Plan(ub)];
  }

  lemma SplitSaves<S, V(!new)>(
      start: seq<Host<S, V>>, before: seq<Act<S, V>>, pa: Prepared<S, V>, pb: Prepared<S, V>, s: StateObject<S>,
      shown: seq<Shown<V>>, project: S -> V)
    returns (hs: seq<Host<S, V>>, acts: seq<Act<S, V>>)
    requires IsHistory(start, before, project) && |before| == 3
    requires start[3] == Host(None, Some(s), [pa, pb], shown, false)
    ensures acts == before + [Save(0), Save(1)] && IsHistory(hs, acts, project)
    ensures hs[5] == Host(Some(pb.newState), Some(s), [pa, pb], shown, false)
  {
    hs := OneMoreAct(start, before, Save(0), project);
    hs := OneMoreAct(hs, before + [Save(0)], Save(1), project);
    acts := before + [Save(0)] + [Save(1)];
    assert acts == before + [Save(0), Save(1)];
  }

  lemma SplitEnds<S, V(!new)>(
      start: seq<Host<S, V>>, before: seq<Act<S, V>>, pa: Prepared<S, V>, pb: Prepared<S, V>, s: StateObject<S>,
      shown: seq<Shown<V>>, project: S -> V, boot: Act<S, V>)
    returns (hs: seq<Host<S, V>>, acts: seq<Act<S, V>>)
    requires IsHistory(start, before, project) && |before| == 5 && boot.Boot? && boot.loadError.None?
    requires start[5] == Host(Some(pb.newState), Some(s), [pa, pb], shown, false)
    requires pa.base == s.generation && pb.newState.storageVersion == boot.version
    ensures acts == before + [Commit(0), Crash, boot] && IsHistory(hs, acts, project)
    ensures hs[7].shown == shown + [Shown(pa.newState.generation, pa.view)]
    ensures hs[8].shown == hs[7].shown + [Publication(pb.newState, project)]
  {
    var later := shown + [Shown(pa.newState.generation, pa.view)];
    hs := OneMoreAct(start, before, Commit(0), project);
    hs := OneMoreAct(hs, before + [Commit(0)], Crash, project);
    assert hs[7] == Host(Some(pb.newState), None, [], later, false);
    hs := OneMoreAct(hs, before + [Commit(0)] + [Crash], boot, project);
    acts := before + [Commit(0)] + [Crash] + [boot];
    assert acts == before + [Commit(0), Crash, boot];
    assert Outcome(hs[7], boot) == Restored(pb.newState);
  }

  /** That history is sound if and only if the two mutations show the same view. */
  lemma InterleavedSavesSplitAGeneration<S, V(!new)>(a: S -> S, b: S -> S, project: S -> V, boot: Act<S, V>)
    returns (hs: seq<Host<S, V>>, acts: seq<Act<S, V>>)
    requires boot.Boot? && boot.loadError.None?
    ensures IsHistory(hs, acts, project) && |acts| == 8
    ensures Sound(hs[7].shown)
    ensures Sound(hs[8].shown) <==> project(a(boot.default)) == project(b(boot.default))
  {
    hs, acts := SplitHistory(a, b, project, boot);
    var g := Generation(boot.t.unixMs, 0);
    assert Last(hs[7].shown) == Shown(g.Next(), project(a(boot.default)));
    SoundOneMore(hs[7].shown, Shown(g.Next(), project(b(boot.default))));
  }

  /** And it happens: adding one and adding two, from zero. */
  lemma SplitHappens()
    ensures
      exists hs: seq<Host<int, int>>, acts: seq<Act<int, int>>, project: int -> int ::
        IsHistory(hs, acts, project) && |acts| == 8 && Sound(hs[7].shown) && !Sound(hs[8].shown)
  {
    var project := (n: int) => n;
    var boot := Boot(1, None, 0, Time(0, 1), (n: int, v: nat) => Ok(n));
    var hs, acts := InterleavedSavesSplitAGeneration((n: int) => n + 1, (n: int) => n + 2, project, boot);
    assert project(boot.default + 1) != project(boot.default + 2);
  }

  /** A failed migration starts above the loaded incarnation, whatever the clock says. */
  lemma FailedMigrationMovesOn<S>(
      version: nat, s: StateObject<S>, default: S, t: Time, migrate: (S, nat) -> Result<S, string>)
    requires s.storageVersion != version && migrate(s.value, s.storageVersion).Err?
    ensures
      var out := Initialize(version, Ok(Some(s)), default, t, migrate);
      out.FallbackToEmpty? && s.generation.incarnation < out.state.generation.incarnation && out.state.value == default
  {
  }
}
