/** What a start makes of the store, field by field, and what becomes of a migration over a
    node's lives: the migrated value is what the node works on and saves, and no later start
    of the same program migrates it again. */
module Migrations {
  import opened Types
  import opened ShardSpec
  import opened TwoPhase
  import opened Startup

  // ── One start ──────────────────────────────────────────────────

  /** With nothing stored a start is fresh, from the default and the clock. */
  lemma NothingStored<S>(version: nat, default: S, t: Time, migrate: (S, nat) -> Result<S, string>)
    ensures Initialize(version, Ok(None), default, t, migrate)
            == Fresh(StateObject(Generation(t.unixMs, 0), version, default, t.unixMs, t.unixMs))
  {
  }

  /** A store that cannot be loaded is as good as none, but for the reason that is kept. */
  lemma NothingLoaded<S>(
      version: nat, error: PersistError, default: S, t: Time, migrate: (S, nat) -> Result<S, string>)
    ensures
      var out := Initialize(version, Err(error), default, t, migrate);
      && out.FallbackToEmpty? && out.reason == error.text
      && out.state == StateObject(Generation(t.unixMs, 0), version, default, t.unixMs, t.unixMs)
  {
  }

  /** A start takes a stored state as it is if and only if it has the program's version. */
  lemma RestoredIff<S>(
      version: nat, s: StateObject<S>, default: S, t: Time, migrate: (S, nat) -> Result<S, string>)
    ensures
      var out := Initialize(version, Ok(Some(s)), default, t, migrate);
      && (out.Restored? <==> s.storageVersion == version)
      && (out.Restored? ==> out.state == s)
  {
  }

  /** A migration that succeeds replaces value and version and keeps the rest; a second start
      of its result restores it, whatever it would migrate with. */
  lemma MigrationIsKept<S>(
      version: nat, s: StateObject<S>, default: S, t: Time, migrate: (S, nat) -> Result<S, string>, value: S,
      default': S, t': Time, migrate': (S, nat) -> Result<S, string>)
    requires s.storageVersion != version && migrate(s.value, s.storageVersion) == Ok(value)
    ensures
      var out := Initialize(version, Ok(Some(s)), default, t, migrate);
      && out == Migrated(StateObject(s.generation, version, value, s.createdTime, s.modifiedTime), s.storageVersion)
      && Initialize(version, Ok(Some(out.state)), default', t', migrate') == Restored(out.state)
  {
  }

  /** A migration that fails starts from the default, at the clock or just above what was
      loaded, whichever is higher. */
  lemma MigrationFails<S>(
      version: nat, s: StateObject<S>, default: S, t: Time, migrate: (S, nat) -> Result<S, string>, reason: string)
    requires s.storageVersion != version && migrate(s.value, s.storageVersion) == Err(reason)
    ensures
      var out := Initialize(version, Ok(Some(s)), default, t, migrate);
      && out.FallbackToEmpty? && out.reason == reason
      && out.state == out.state.(storageVersion := version, value := default, createdTime := t.unixMs,
                                 modifiedTime := t.unixMs)
      && out.state.generation.age == 0 && s.generation.incarnation < out.state.generation.incarnation
      && t.unixMs <= out.state.generation.incarnation
      && out.state.generation.incarnation in {t.unixMs, s.generation.incarnation + 1}
  {
  }

  // ── Whole lives ────────────────────────────────────────────────

  /** The node runs on this storage version, with all that it has prepared. */
  ghost predicate OfVersion<S, V>(h: Host<S, V>, version: nat) {
    && (h.life.Some? ==> h.life.value.storageVersion == version)
    && forall k :: 0 <= k < |h.prepared| ==> h.prepared[k].newState.storageVersion == version
  }

  ghost predicate Holds<S, V>(h: Host<S, V>, version: nat) {
    h.store.Some? && h.store.value.storageVersion == version
  }

  ghost predicate BootsAt<S, V>(a: Act<S, V>, version: nat) {
    a.Boot? ==> a.version == version
  }

  lemma StepKeepsVersion<S, V(!new)>(h: Host<S, V>, a: Act<S, V>, project: S -> V, version: nat)
    requires Coherent(h, project) && Allowed(h, a, project) && BootsAt(a, version)
    requires OfVersion(h, version) || a.Boot?
    ensures
      var h' := Apply(h, a, project);
      OfVersion(h', version) && (Holds(h, version) || a.Save? ==> Holds(h', version))
  {
  }

  /** From a start on, as long as all starts are of the same program, the node runs on its
      version, and once anything was saved the store holds it. */
  lemma {:induction false} VersionStays<S, V(!new)>(
      hs: seq<Host<S, V>>, acts: seq<Act<S, V>>, project: S -> V, version: nat, i: nat, k: nat)
    requires IsHistory(hs, acts, project) && i < k < |hs| && acts[i].Boot?
    requires forall m :: i <= m < k ==> BootsAt(acts[m], version)
    ensures OfVersion(hs[k], version)
    ensures (exists m :: i <= m < k && acts[m].Save?) ==> Holds(hs[k], version)
    decreases k
  {
    PublishedSoundlyIff(hs, acts, project, k - 1);
    if i < k - 1 {
      VersionStays(hs, acts, project, version, i, k - 1);
    }
    StepKeepsVersion(hs[k - 1], acts[k - 1], project, version);
  }

  /** No state is migrated twice: once a program has started and saved, none of its later
      starts that can load the store migrates, but takes it as it is. */
  lemma NeverMigratedAgain<S, V(!new)>(
      hs: seq<Host<S, V>>, acts: seq<Act<S, V>>, project: S -> V, version: nat, i: nat, j: nat, k: nat)
    requires IsHistory(hs, acts, project) && i < j < k < |acts| && acts[i].Boot? && acts[j].Save?
    requires forall m :: i <= m <= k ==> BootsAt(acts[m], version)
    requires acts[k].Boot? && acts[k].loadError.None?
    ensures hs[k].store.Some? && Outcome(hs[k], acts[k]) == Restored(hs[k].store.value)
    ensures hs[k + 1].life == hs[k].store
  {
    VersionStays(hs, acts, project, version, i, k);
    RestoredIff(version, hs[k].store.value, acts[k].default, acts[k].t, acts[k].migrate);
  }

  /** A node migrates its state, mutates it, saves and commits, and crashes; the next start of
      the same program continues from the mutation of the migrated value. */
  lemma MigratedWorkSurvives<S, V(!new)>(
      h: Host<S, V>, boot: Act<S, V>, value: S, u: Update<S, V>, again: Act<S, V>, project: S -> V)
    requires Coherent(h, project) && Allowed(h, boot, project) && u.project == project
    requires boot.Boot? && boot.loadError.None? && h.store.Some? && h.store.value.storageVersion != boot.version
             && boot.migrate(h.store.value.value, h.store.value.storageVersion) == Ok(value)
    requires again.Boot? && again.loadError.None? && again.version == boot.version
    ensures
      var h1 := Apply(h, boot, project);
      && Allowed(h1, Plan(u), project)
      && var h2 := Apply(h1, Plan(u), project);
         && Allowed(h2, Save(0), project)
         && var h3 := Apply(h2, Save(0), project);
            && Allowed(h3, Commit(0), project)
            && var h4 := Apply(Apply(h3, Commit(0), project), Crash, project);
               && Allowed(h4, again, project)
               && var s := h.store.value;
                  Apply(h4, again, project).life ==
                  Some(StateObject(Generation(s.generation.incarnation, s.generation.age + 1), boot.version,
                                   u.apply(value), s.createdTime, u.t.unixMs))
  {
    MigrationIsKept(boot.version, h.store.value, boot.default, boot.t, boot.migrate, value,
                    again.default, again.t, again.migrate);
    var h1 := Apply(h, boot, project);
    var h3 := Apply(Apply(h1, Plan(u), project), Save(0), project);
    assert h1.prepared == [] && h3.prepared == [Prepare(h1.life.value, u)];
    FoldIs(h1.life.value, [u]);
    assert Fold(h1.life.value, [u][..0]) == h1.life.value;
    RestoredIff(boot.version, h3.store.value, again.default, again.t, again.migrate);
  }
}
