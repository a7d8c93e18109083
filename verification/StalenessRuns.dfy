/** What queries report and pull over whole runs: entries that age, entries that are fresh,
    and newcomers of which nothing is known yet; with the periodic send, which reaches those
    who do not ask. */
module StalenessRuns {
  import opened Types
  import opened ShardSpec
  import opened DiagnosticsSpec
  import opened EngineSpec
  import opened EngineRuns
  import opened InboundLaws

  /** What makes a peer stale: a marker, or a sync that lies too far back. */
  lemma StaleIs<V>(views: Views<V>, self: NodeId, now: nat, maxStaleness: nat, p: NodeId)
    ensures p in StalePeers(views, self, now, maxStaleness)
            <==> p in views && p != self && (views[p].pending.Some? || now > views[p].syncedAt + maxStaleness)
  {
  }

  /** A query with pulling enabled asks every peer it reports that has not departed, and
      without pulling it asks nobody. */
  lemma PulledIs<S, V>(e: Engine<S, V>, now: nat, maxStaleness: nat, p: NodeId)
    ensures p in PullTargets(e, maxStaleness, now)
            <==> && e.cfg.strategy.pullOnQuery && p !in e.departed && p in e.views && p != e.cfg.id
                 && (e.views[p].pending.Some? || now > e.views[p].syncedAt + maxStaleness)
  {
  }

  /** The events that may renew p's entry: its messages, and its join. */
  predicate Renews<S, V>(ev: Event<S, V>, p: NodeId) {
    IsFrom(ev, p) || (ev.Joined? && ev.id == p)
  }

  ghost predicate NoneRenews<S, V>(evs: seq<Timed<S, V>>, p: NodeId) {
    forall i :: 0 <= i < |evs| ==> !Renews(evs[i].ev, p)
  }

  lemma StepLeavesUntouched<S, V>(e: Engine<S, V>, ev: Event<S, V>, t: Time, p: NodeId)
    requires HasOwn(e) && p != e.cfg.id && !Renews(ev, p)
    ensures
      var e' := Step(e, ev, t).engine;
      p in e'.views ==>
        && p in e.views && e'.views[p].syncedAt == e.views[p].syncedAt
        && e'.views[p].generation == e.views[p].generation && e'.views[p].value == e.views[p].value
        && (e.views[p].pending.Some? ==> e'.views[p].pending.Some?)
        && (!(ev.Inbound? && ev.msg.Feed?) ==> e'.views[p] == e.views[p])
  {
    if ev.Inbound? && ev.msg.Feed? {
      MarkAllKeepsEntries(e.cfg.name, e.departed, e.views, ev.msg.batch.notifications);
      if p in e.views {
        MarksStay(e.cfg.name, e.departed, e.views, ev.msg.batch.notifications, p);
      }
    } else if ev.Inbound? && CarriesView(ev.msg.message) {
      OthersStay(e, ev.msg.message, t, p);
    }
  }

  lemma {:induction false} MarksStay<V>(
      name: string, departed: set<NodeId>, views: Views<V>, notes: seq<Notification>, p: NodeId)
    requires p in views
    ensures
      var marked := MarkAll(name, departed, views, notes);
      p in marked && (views[p].pending.Some? ==> marked[p].pending.Some?)
    decreases |notes|
  {
    if notes != [] {
      MarksStay(name, departed, MarkOne(name, departed, views, notes[0]), notes[1..], p);
    }
  }

  /** A message of one peer leaves the entries of the others alone. */
  lemma OthersStay<S, V>(e: Engine<S, V>, m: SyncMessage, t: Time, p: NodeId)
    requires HasOwn(e) && CarriesView(m) && m.source != p
    ensures
      var e' := Arrives(e, m, t).engine;
      (p in e'.views <==> p in e.views) && (p in e.views ==> e'.views[p] == e.views[p])
  {
    OthersChangeNothing(e, m, t);
    if VerdictOn(e, m).Accepted? {
      if m.FullSnapshot? {
        AcceptedSnapshotIsShown(e, m, t);
      } else {
        AcceptedDeltaIsShown(e, m, t);
      }
    }
  }

  /** Over any run in which nothing renews p's entry: if it is still shown, it is as old as it
      was, with the same view, and once marked it stays marked. */
  lemma {:induction false} UntouchedAges<S, V>(e: Engine<S, V>, evs: seq<Timed<S, V>>, p: NodeId)
    requires HasOwn(e) && p != e.cfg.id && NoneRenews(evs, p)
    ensures
      var r := After(e, evs);
      p in r.views ==>
        && p in e.views && r.views[p].syncedAt == e.views[p].syncedAt
        && r.views[p].generation == e.views[p].generation && r.views[p].value == e.views[p].value
        && (e.views[p].pending.Some? ==> r.views[p].pending.Some?)
    decreases |evs|
  {
    if evs != [] {
      var before, last := evs[..|evs| - 1], evs[|evs| - 1];
      assert !Renews(last.ev, p);
      UntouchedAges(e, before, p);
      StepLeavesUntouched(After(e, before), last.ev, last.t, p);
    }
  }

  /** An entry that nothing has renewed for longer than a query allows is reported, and pulled
      if the node pulls at all and the peer has not departed, whatever else has happened. */
  lemma UntouchedIsReported<S, V>(
      e: Engine<S, V>, evs: seq<Timed<S, V>>, p: NodeId, now: nat, maxStaleness: nat)
    requires HasOwn(e) && p != e.cfg.id && NoneRenews(evs, p)
    requires p in e.views && now > e.views[p].syncedAt + maxStaleness
    ensures
      var r := After(e, evs);
      p in r.views ==>
        && p in StalePeers(r.views, r.cfg.id, now, maxStaleness)
        && (r.cfg.strategy.pullOnQuery && p !in r.departed ==> p in PullTargets(r, maxStaleness, now))
  {
    UntouchedAges(e, evs, p);
    StaleIs(After(e, evs).views, e.cfg.id, now, maxStaleness, p);
    PulledIs(After(e, evs), now, maxStaleness, p);
  }

  /** No notices, no news of p, and no leave. */
  ghost predicate Uneventful<S, V>(evs: seq<Timed<S, V>>, p: NodeId) {
    NoneRenews(evs, p)
    && forall i :: 0 <= i < |evs| ==>
         !(evs[i].ev.Inbound? && evs[i].ev.msg.Feed?) && !(evs[i].ev.Left? && evs[i].ev.id == p)
  }

  lemma {:induction false} UneventfulKeeps<S, V>(e: Engine<S, V>, evs: seq<Timed<S, V>>, p: NodeId)
    requires HasOwn(e) && p != e.cfg.id && Uneventful(evs, p) && p in e.views
    ensures p in After(e, evs).views && After(e, evs).views[p] == e.views[p]
    decreases |evs|
  {
    if evs != [] {
      var before, last := evs[..|evs| - 1], evs[|evs| - 1];
      assert Uneventful(before, p);
      assert !Renews(last.ev, p) && !(last.ev.Inbound? && last.ev.msg.Feed?) && !(last.ev.Left? && last.ev.id == p);
      UneventfulKeeps(e, before, p);
      StepKeepsShown(After(e, before), last.ev, last.t, p);
      StepLeavesUntouched(After(e, before), last.ev, last.t, p);
    }
  }

  lemma StepKeepsShown<S, V>(e: Engine<S, V>, ev: Event<S, V>, t: Time, p: NodeId)
    requires HasOwn(e) && p in e.views && !Renews(ev, p) && !(ev.Left? && ev.id == p)
    requires !(ev.Inbound? && ev.msg.Feed?)
    ensures p in Step(e, ev, t).engine.views
  {
    if ev.Inbound? && CarriesView(ev.msg.message) {
      OthersStay(e, ev.msg.message, t, p);
    }
  }

  /** A message is accepted and reaches whatever was announced. From then on, until there is
      news of the peer, a query reports it exactly if the acceptance lies too far back. */
  lemma ReportedOnceTooOld<S, V>(
      e: Engine<S, V>, m: SyncMessage, t: Time, evs: seq<Timed<S, V>>, now: nat, maxStaleness: nat)
    requires HasOwn(e) && CarriesView(m) && m.source != e.cfg.id && VerdictOn(e, m).Accepted?
    requires m.source in e.views && e.views[m.source].pending.Some? ==>
               !Later(e.views[m.source].pending.value, m.generation)
    requires Uneventful(evs, m.source)
    ensures
      var r := After(Arrives(e, m, t).engine, evs);
      m.source in StalePeers(r.views, r.cfg.id, now, maxStaleness) <==> now > t.now + maxStaleness
  {
    var e' := Arrives(e, m, t).engine;
    if m.FullSnapshot? {
      AcceptedSnapshotIsShown(e, m, t);
    } else {
      AcceptedDeltaIsShown(e, m, t);
    }
    UneventfulKeeps(e', evs, m.source);
    StaleIs(After(e', evs).views, e.cfg.id, now, maxStaleness, m.source);
  }

  // ── Membership ─────────────────────────────────────────────────

  /** A join: the newcomer is no longer departed, gets the own snapshot, and is shown as a
      placeholder below every real generation unless it is shown already. */
  lemma JoinShows<S, V>(e: Engine<S, V>, p: NodeId, view: V, t: Time)
    requires HasOwn(e)
    ensures
      var out := Step(e, Joined(p, view), t);
      && out.engine.departed == e.departed - {p} && out.engine.state == e.state && out.engine.feed == e.feed
      && out.engine.views == (if p in e.views then e.views
                              else e.views[p := ViewObject(Generation(0, 0), 0, view, 0, 0, t.now,
                                                           Some(Generation(1, 0)), p)])
      && out.action == Some(SendSync(p, FullSnapshot(e.cfg.name, e.cfg.id, e.state.generation, e.cfg.wireVersion,
                                                     e.cfg.serialize(e.views[e.cfg.id].value))))
      && out.engine.diag == e.diag.(metrics := e.diag.metrics.(snapshotsSent := e.diag.metrics.snapshotsSent + 1))
  {
  }

  /** A leave: the peer is departed, and nothing is kept of it; the own entry stays. */
  lemma LeaveForgets<S, V>(e: Engine<S, V>, p: NodeId, t: Time)
    requires HasOwn(e)
    ensures
      var out := Step(e, Left(p), t);
      && out.action == None && out.engine.state == e.state && out.engine.feed == e.feed
      && out.engine.departed == e.departed + {p}
      && out.engine.views == (if p == e.cfg.id then e.views else e.views - {p})
      && out.engine.diag == e.diag.(peers := e.diag.peers - {p})
  {
  }

  /** A newcomer is reported as stale, and pulled, by every query until something of it has
      been accepted: a placeholder never passes for a view. */
  lemma NewcomerIsPulled<S, V>(
      e: Engine<S, V>, p: NodeId, view: V, t: Time, evs: seq<Timed<S, V>>, now: nat, maxStaleness: nat)
    requires HasOwn(e) && p !in e.views && NoneRenews(evs, p)
    ensures
      var r := After(Step(e, Joined(p, view), t).engine, evs);
      p in r.views ==>
        && p in StalePeers(r.views, r.cfg.id, now, maxStaleness)
        && (r.cfg.strategy.pullOnQuery && p !in r.departed ==> p in PullTargets(r, maxStaleness, now))
  {
    JoinShows(e, p, view, t);
    var e' := Step(e, Joined(p, view), t).engine;
    UntouchedAges(e', evs, p);
    StaleIs(After(e', evs).views, e.cfg.id, now, maxStaleness, p);
    PulledIs(After(e', evs), now, maxStaleness, p);
  }

  // ── Periodic sends ─────────────────────────────────────────────

  /** A periodic send happens exactly if it is configured, and carries the whole own view. */
  lemma PeriodicSends<S, V>(e: Engine<S, V>, t: Time)
    requires HasOwn(e)
    ensures
      var out := Step(e, Periodic, t);
      if e.cfg.strategy.periodicFullSync.Some? then
        && out.action == Some(BroadcastSync(FullSnapshot(e.cfg.name, e.cfg.id, e.state.generation, e.cfg.wireVersion,
                                                         e.cfg.serialize(e.views[e.cfg.id].value))))
        && out.engine
           == e.(diag := e.diag.(metrics := e.diag.metrics.(snapshotsSent := e.diag.metrics.snapshotsSent + 1)))
      else out == Outcome(e, None)
  {
  }
}
