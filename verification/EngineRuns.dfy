/** What holds of one engine over any sequence of events, whatever arrives. */
module EngineRuns {
  import opened Types
  import opened ShardSpec
  import opened DiagnosticsSpec
  import opened EngineSpec
  import opened RestartSafety

  datatype Timed<!S, !V> = Timed(ev: Event<S, V>, t: Time)

  /** The engine after a sequence of events. Its own entry is always there, so reading the
      own view can never fail. */
  function After<S, V>(e: Engine<S, V>, evs: seq<Timed<S, V>>): (r: Engine<S, V>)
    requires HasOwn(e)
    ensures HasOwn(r) && r.cfg == e.cfg
    decreases |evs|
  {
    if evs == [] then e
    else
      var last := evs[|evs| - 1];
      Step(After(e, evs[..|evs| - 1]), last.ev, last.t).engine
  }

  // ── No ghosts ──────────────────────────────────────────────────

  /** Departed nodes and view-map keys meet at most in the local node. */
  ghost predicate NoGhost<S, V>(e: Engine<S, V>) {
    e.departed * e.views.Keys <= {e.cfg.id}
  }

  lemma StepNoGhost<S, V>(e: Engine<S, V>, ev: Event<S, V>, t: Time)
    requires HasOwn(e) && NoGhost(e)
    ensures NoGhost(Step(e, ev, t).engine)
  {
    if ev.Inbound? && ev.msg.Feed? {
      MarkAllKeepsEntries(e.cfg.name, e.departed, e.views, ev.msg.batch.notifications);
    }
  }

  lemma {:induction false} NoGhostsEver<S, V>(e: Engine<S, V>, evs: seq<Timed<S, V>>)
    requires HasOwn(e) && NoGhost(e)
    ensures NoGhost(After(e, evs))
    decreases |evs|
  {
    if evs != [] {
      NoGhostsEver(e, evs[..|evs| - 1]);
      StepNoGhost(After(e, evs[..|evs| - 1]), evs[|evs| - 1].ev, evs[|evs| - 1].t);
    }
  }

  predicate Targets(action: Option<Action>, p: NodeId) {
    action.Some? && action.value.SendSync? && action.value.target == p
  }

  ghost predicate Gone<S, V>(e: Engine<S, V>, p: NodeId) {
    p != e.cfg.id && p in e.departed && p !in e.views
  }

  lemma StepKeepsGone<S, V>(e: Engine<S, V>, ev: Event<S, V>, t: Time, p: NodeId)
    requires HasOwn(e) && Gone(e, p) && !(ev.Joined? && ev.id == p)
    ensures Gone(Step(e, ev, t).engine, p) && !Targets(Step(e, ev, t).action, p)
  {
    if ev.Inbound? && ev.msg.Feed? {
      MarkAllKeepsEntries(e.cfg.name, e.departed, e.views, ev.msg.batch.notifications);
    }
  }

  /** Between a leave of p and its next join no event recreates p's entry, no event makes
      the engine send anything to p, and no query asks p for a snapshot. */
  lemma {:induction false} GoneUntilRejoin<S, V>(
      e: Engine<S, V>, p: NodeId, evs: seq<Timed<S, V>>, ev: Event<S, V>, t: Time, maxStaleness: nat)
    requires HasOwn(e) && p != e.cfg.id
    requires forall i :: 0 <= i < |evs| ==> !(evs[i].ev.Joined? && evs[i].ev.id == p)
    requires !(ev.Joined? && ev.id == p)
    ensures
      var now := After(NodeLeft(e, p), evs);
      && Gone(now, p)
      && !Targets(Step(now, ev, t).action, p)
      && p !in PullTargets(now, maxStaleness, t.now)
    decreases |evs|
  {
    if evs != [] {
      var last := evs[|evs| - 1];
      GoneUntilRejoin(e, p, evs[..|evs| - 1], last.ev, last.t, maxStaleness);
      StepKeepsGone(After(NodeLeft(e, p), evs[..|evs| - 1]), last.ev, last.t, p);
    }
    StepKeepsGone(After(NodeLeft(e, p), evs), ev, t, p);
  }

  // ── The own entry ──────────────────────────────────────────────

  /** A message that claims to come from this very node with a newer generation, and that
      the engine can read. */
  predicate Forged<S, V>(e: Engine<S, V>, msg: WireMessage)
    requires HasOwn(e)
  {
    && msg.Sync? && !msg.message.RequestSnapshot?
    && msg.message.stateName == e.cfg.name && msg.message.source == e.cfg.id && e.cfg.id !in e.departed
    && match msg.message
       case FullSnapshot(_, _, g, w, data) => e.state.generation.Lt(g) && e.cfg.deserialize(data, w).Ok?
       case DeltaUpdate(_, _, g, w, data) =>
         w == e.cfg.wireVersion && e.cfg.applier.Some? && g == e.state.generation.Next()
         && e.cfg.applier.value(data, w, e.views[e.cfg.id].value).Ok?
  }

  /** The own entry keeps the owned generation and its view under every message except a
      forged one, and under every forged one it does not. */
  lemma OwnEntryHeld<S, V>(e: Engine<S, V>, msg: WireMessage, t: Time)
    requires OwnInStep(e)
    ensures
      var e' := HandleInbound(e, msg, t).engine;
      && (OwnInStep(e') <==> !Forged(e, msg))
      && (!Forged(e, msg) ==> e'.state == e.state && e'.views[e.cfg.id].value == e.views[e.cfg.id].value)
  {
    if msg.Feed? {
      MarkAllKeepsEntries(e.cfg.name, e.departed, e.views, msg.batch.notifications);
    }
  }

  lemma OtherEventsHoldOwnEntry<S, V>(e: Engine<S, V>, ev: Event<S, V>, t: Time)
    requires OwnInStep(e) && !ev.Inbound?
    ensures
      var e' := Step(e, ev, t).engine;
      && OwnInStep(e')
      && e'.views[e.cfg.id].value == (if ev.Mutation? || ev.DeltaMutation? then ev.view else e.views[e.cfg.id].value)
  {
  }

  // ── Stale markers ──────────────────────────────────────────────

  /** A marker, if set, is strictly above the generation it marks as stale. */
  ghost predicate MarkersAbove<V>(views: Views<V>) {
    forall p :: p in views && views[p].pending.Some? ==> views[p].generation.Lt(views[p].pending.value)
  }

  lemma {:induction false} MarkAllAbove<V>(
      name: string, departed: set<NodeId>, views: Views<V>, notes: seq<Notification>)
    requires MarkersAbove(views)
    ensures MarkersAbove(MarkAll(name, departed, views, notes))
    decreases |notes|
  {
    if notes != [] {
      MarkAllAbove(name, departed, MarkOne(name, departed, views, notes[0]), notes[1..]);
    }
  }

  lemma StepAbove<S, V>(e: Engine<S, V>, ev: Event<S, V>, t: Time)
    requires HasOwn(e) && MarkersAbove(e.views)
    ensures MarkersAbove(Step(e, ev, t).engine.views)
  {
    if ev.Inbound? && ev.msg.Feed? {
      MarkAllAbove(e.cfg.name, e.departed, e.views, ev.msg.batch.notifications);
    }
  }

  lemma {:induction false} MarkersAlwaysAbove<S, V>(e: Engine<S, V>, evs: seq<Timed<S, V>>)
    requires HasOwn(e) && MarkersAbove(e.views)
    ensures MarkersAbove(After(e, evs).views)
    decreases |evs|
  {
    if evs != [] {
      MarkersAlwaysAbove(e, evs[..|evs| - 1]);
      StepAbove(After(e, evs[..|evs| - 1]), evs[|evs| - 1].ev, evs[|evs| - 1].t);
    }
  }

  /** The highest announcement so far is reached by the view or recorded as its marker. */
  ghost predicate Exact<V>(entry: ViewObject<V>, high: Option<Generation>) {
    high.Some? ==> high.value.Le(entry.generation) || entry.pending == Some(high.value)
  }

  function Raise(high: Option<Generation>, g: Generation): Option<Generation> {
    if high.Some? then Some(Max(high.value, g)) else Some(g)
  }

  /** One notice keeps the marker exact unless it lies strictly between the view and the
      highest announcement: such a late notice, and only such a one, lowers the marker. */
  lemma MarkKeepsExact<V>(entry: ViewObject<V>, high: Generation, g: Generation)
    requires Exact(entry, Some(high))
    ensures
      var marked := OfferMark(Some(entry), g);
      var entry' := if marked.Some? then marked.value else entry;
      Exact(entry', Raise(Some(high), g)) <==> !(entry.generation.Lt(g) && g.Lt(high))
  {
  }

  predicate Concerns(n: Notification, name: string, p: NodeId) {
    n.stateName == name && n.source == p
  }

  function HighOf(high: Option<Generation>, notes: seq<Notification>, name: string, p: NodeId): Option<Generation>
    decreases |notes|
  {
    if notes == [] then high
    else HighOf(if Concerns(notes[0], name, p) then Raise(high, notes[0].generation) else high, notes[1..], name, p)
  }

  /** The notices about p do not go back behind what was announced before. */
  ghost predicate InOrder(high: Option<Generation>, notes: seq<Notification>, name: string, p: NodeId)
    decreases |notes|
  {
    notes != [] ==>
      if Concerns(notes[0], name, p) then
        && (high.Some? ==> high.value.Le(notes[0].generation))
        && InOrder(Raise(high, notes[0].generation), notes[1..], name, p)
      else InOrder(high, notes[1..], name, p)
  }

  lemma {:induction false} MarkAllExact<V>(
      name: string, departed: set<NodeId>, views: Views<V>, notes: seq<Notification>, p: NodeId,
      high: Option<Generation>)
    requires p in views && p !in departed && Exact(views[p], high) && InOrder(high, notes, name, p)
    ensures p in MarkAll(name, departed, views, notes)
    ensures Exact(MarkAll(name, departed, views, notes)[p], HighOf(high, notes, name, p))
    decreases |notes|
  {
    if notes != [] {
      var high' := if Concerns(notes[0], name, p) then Raise(high, notes[0].generation) else high;
      MarkAllExact(name, departed, MarkOne(name, departed, views, notes[0]), notes[1..], p, high');
    }
  }

  /** The engine reads this event as announcements that may concern p. */
  predicate Announces<S, V>(e: Engine<S, V>, ev: Event<S, V>, p: NodeId) {
    ev.Inbound? && ev.msg.Feed? && ev.msg.batch.source != e.cfg.id && p in e.views && p !in e.departed
  }

  /** The highest announcement about p that was processed since p's entry appeared. */
  function HighAfter<S, V>(e: Engine<S, V>, evs: seq<Timed<S, V>>, p: NodeId): Option<Generation>
    requires HasOwn(e)
    decreases |evs|
  {
    if evs == [] then None
    else
      var before, last := evs[..|evs| - 1], evs[|evs| - 1];
      var now, high := After(e, before), HighAfter(e, before, p);
      if p !in After(e, evs).views || p !in now.views then None
      else if Announces(now, last.ev, p) then HighOf(high, last.ev.msg.batch.notifications, e.cfg.name, p)
      else high
  }

  ghost predicate InOrderRun<S, V>(e: Engine<S, V>, evs: seq<Timed<S, V>>, p: NodeId)
    requires HasOwn(e)
    decreases |evs|
  {
    evs != [] ==>
      var before, last := evs[..|evs| - 1], evs[|evs| - 1];
      && InOrderRun(e, before, p)
      && (Announces(After(e, before), last.ev, p) ==>
            InOrder(HighAfter(e, before, p), last.ev.msg.batch.notifications, e.cfg.name, p))
  }

  lemma StepExact<S, V>(e: Engine<S, V>, ev: Event<S, V>, t: Time, p: NodeId, high: Option<Generation>)
    requires HasOwn(e) && p != e.cfg.id && p in e.views && p in Step(e, ev, t).engine.views && Exact(e.views[p], high)
    requires Announces(e, ev, p) ==> InOrder(high, ev.msg.batch.notifications, e.cfg.name, p)
    ensures
      var e' := Step(e, ev, t).engine;
      Exact(e'.views[p], if Announces(e, ev, p) then HighOf(high, ev.msg.batch.notifications, e.cfg.name, p) else high)
  {
    if ev.Inbound? && ev.msg.Feed? && ev.msg.batch.source != e.cfg.id {
      if p in e.departed {
        MarkAllSkipsDeparted(e.cfg.name, e.departed, e.views, ev.msg.batch.notifications, p);
      } else {
        MarkAllExact(e.cfg.name, e.departed, e.views, ev.msg.batch.notifications, p, high);
      }
    }
  }

  lemma {:induction false} MarkAllSkipsDeparted<V>(
      name: string, departed: set<NodeId>, views: Views<V>, notes: seq<Notification>, p: NodeId)
    requires p in views && p in departed
    ensures p in MarkAll(name, departed, views, notes) && MarkAll(name, departed, views, notes)[p] == views[p]
    decreases |notes|
  {
    if notes != [] {
      MarkAllSkipsDeparted(name, departed, MarkOne(name, departed, views, notes[0]), notes[1..], p);
    }
  }

  /** With announcements in order, over any run: a peer's view that is behind anything
      announced carries the highest announcement as its marker, so a peer that a query does
      not report as stale is caught up with everything announced. */
  lemma {:induction false} FreshMeansCaughtUp<S, V>(
      e: Engine<S, V>, evs: seq<Timed<S, V>>, p: NodeId, now: nat, maxStaleness: nat)
    requires HasOwn(e) && p != e.cfg.id && InOrderRun(e, evs, p)
    ensures
      var r, high := After(e, evs), HighAfter(e, evs, p);
      p in r.views ==>
        && Exact(r.views[p], high)
        && (p !in StalePeers(r.views, r.cfg.id, now, maxStaleness) && high.Some? ==>
            high.value.Le(r.views[p].generation))
    decreases |evs|
  {
    if evs != [] {
      var before, last := evs[..|evs| - 1], evs[|evs| - 1];
      FreshMeansCaughtUp(e, before, p, now, maxStaleness);
      if p in After(e, before).views && p in After(e, evs).views {
        StepExact(After(e, before), last.ev, last.t, p, HighAfter(e, before, p));
      }
    }
  }

  lemma ThreeEvents<S, V>(e: Engine<S, V>, a: Event<S, V>, b: Event<S, V>, c: Event<S, V>, t: Time)
    requires HasOwn(e)
    ensures
      After(e, [Timed(a, t), Timed(b, t), Timed(c, t)])
      == Step(Step(Step(e, a, t).engine, b, t).engine, c, t).engine
  {
    var evs := [Timed(a, t), Timed(b, t), Timed(c, t)];
    assert evs[..2] == [Timed(a, t), Timed(b, t)] && evs[..2][..1] == [Timed(a, t)] && evs[..1][..0] == [];
    assert After(e, evs[..1]) == Step(e, a, t).engine;
    assert After(e, evs[..2]) == Step(Step(e, a, t).engine, b, t).engine;
  }

  function Notice(name: string, p: NodeId, g: Generation): WireMessage {
    Feed(Batch(p, [Notification(name, p, g)]))
  }

  lemma OneNotice<S, V>(e: Engine<S, V>, p: NodeId, g: Generation, t: Time)
    requires HasOwn(e) && p != e.cfg.id && p in e.views && p !in e.departed && e.views[p].generation.Lt(g)
    ensures Step(e, Inbound(Notice(e.cfg.name, p, g)), t).engine
            == e.(views := e.views[p := e.views[p].(pending := Some(g))])
  {
    var note := Notification(e.cfg.name, p, g);
    assert MarkAll(e.cfg.name, e.departed, e.views, [note]) == MarkOne(e.cfg.name, e.departed, e.views, note);
  }

  lemma CaughtUpWith<S, V>(e: Engine<S, V>, p: NodeId, g: Generation, w: nat, data: Bytes, t: Time)
    requires HasOwn(e) && p in e.views && p !in e.departed && e.views[p].generation.Lt(g)
             && e.views[p].pending == Some(g)
    requires e.cfg.deserialize(data, w).Ok?
    ensures
      var e' := Step(e, Inbound(Sync(FullSnapshot(e.cfg.name, p, g, w, data))), t).engine;
      && p in e'.views && e'.views[p].generation == g && e'.views[p].pending == None && e'.views[p].syncedAt == t.now
      && e'.cfg == e.cfg
  {
  }

  /** Out of order it fails, on every engine that shows p: after the notices of a high and
      then of a low generation, the snapshot of the low one clears the marker. The view is
      then not reported as stale, and no query asks p for more, although the high generation
      was announced. */
  lemma OutOfOrderLooksFresh<S, V>(
      e: Engine<S, V>, p: NodeId, low: Generation, high: Generation, w: nat, data: Bytes, t: Time, maxStaleness: nat)
    requires HasOwn(e) && p != e.cfg.id && p in e.views && p !in e.departed
    requires e.views[p].generation.Lt(low) && low.Lt(high) && e.cfg.deserialize(data, w).Ok?
    ensures
      var name := e.cfg.name;
      var evs: seq<Timed<S, V>> :=
        [Timed(Inbound(Notice(name, p, high)), t), Timed(Inbound(Notice(name, p, low)), t),
         Timed(Inbound(Sync(FullSnapshot(name, p, low, w, data))), t)];
      var r := After(e, evs);
      && p in r.views && r.views[p].generation.Lt(high)
      && p !in StalePeers(r.views, r.cfg.id, t.now, maxStaleness) && p !in PullTargets(r, maxStaleness, t.now)
  {
    var first, second := Inbound(Notice(e.cfg.name, p, high)), Inbound(Notice(e.cfg.name, p, low));
    var third := Inbound(Sync(FullSnapshot(e.cfg.name, p, low, w, data)));
    ThreeEvents(e, first, second, third, t);
    OneNotice(e, p, high, t);
    var e1 := Step(e, first, t).engine;
    OneNotice(e1, p, low, t);
    CaughtUpWith(Step(e1, second, t).engine, p, low, w, data, t);
  }

  // ── Accounting ─────────────────────────────────────────────────

  /** What the counters do not say by themselves: joins handled, snapshot requests answered,
      periodic broadcasts made, and mutations handed to the change feed. */
  datatype Tally = Tally(joins: nat, replies: nat, periodics: nat, notices: nat)

  function Joins<S, V>(ev: Event<S, V>): nat {
    if ev.Joined? then 1 else 0
  }

  function Replies<S, V>(e: Engine<S, V>, ev: Event<S, V>, t: Time): nat
    requires HasOwn(e)
  {
    if ev.Inbound? && HandleInbound(e, ev.msg, t).action.Some?
        && HandleInbound(e, ev.msg, t).action.value.message.FullSnapshot?
    then 1 else 0
  }

  function Periodics<S, V>(e: Engine<S, V>, ev: Event<S, V>): nat {
    if ev.Periodic? && e.cfg.strategy.periodicFullSync.Some? then 1 else 0
  }

  /** A mutation that readers learn of through the change feed alone. */
  predicate LeftToFeed(s: Strategy, u: Urgency) {
    u.Default? && s.pushMode == Some(ActiveFeedLazyPull)
  }

  predicate IsMutation<S, V>(ev: Event<S, V>) {
    ev.Mutation? || ev.DeltaMutation?
  }

  function Notices<S, V>(e: Engine<S, V>, ev: Event<S, V>): nat {
    if IsMutation(ev) && LeftToFeed(e.cfg.strategy, ev.urgency) then 1 else 0
  }

  /** The engine states that a run of events goes through, and the tally at each of them. */
  ghost predicate Trace<S, V>(states: seq<Engine<S, V>>, evs: seq<Timed<S, V>>, tallies: seq<Tally>) {
    && |states| == |tallies| == |evs| + 1
    && tallies[0] == Tally(0, 0, 0, 0)
    && (forall i :: 0 <= i < |evs| ==> Follows(states[i], tallies[i], evs[i], states[i + 1], tallies[i + 1]))
  }

  ghost predicate Follows<S, V>(e: Engine<S, V>, past: Tally, ev: Timed<S, V>, e': Engine<S, V>, past': Tally) {
    && HasOwn(e)
    && e' == Step(e, ev.ev, ev.t).engine
    && past'.joins == past.joins + Joins(ev.ev)
    && past'.replies == past.replies + Replies(e, ev.ev, ev.t)
    && past'.periodics == past.periodics + Periodics(e, ev.ev)
    && past'.notices == past.notices + Notices(e, ev.ev)
  }

  /** Messages accounted for, less mutations. */
  function Balance<S, V>(e: Engine<S, V>): int {
    e.diag.metrics.snapshotsSent + e.diag.metrics.deltasSent + e.diag.metrics.deltasSuppressed
    - e.diag.metrics.totalMutations
  }

  /** Every mutation goes out, now or later, or is suppressed, or is left to the feed. */
  lemma OutcomeAccounts<S, V>(e: Engine<S, V>, choice: SyncAction, delta: Bytes)
    requires HasOwn(e)
    ensures
      var balance := Balance(e) + if choice.NotifyChangeFeed? then 0 else 1;
      && Balance(SnapshotOutcome(e, choice).engine) == balance
      && Balance(DeltaOutcome(e, choice, delta).engine) == balance
  {
  }

  lemma AdvanceAccounts<S, V>(e: Engine<S, V>, value: S, view: V, t: Time)
    requires HasOwn(e)
    ensures Balance(Advance(e, value, view, t)) == Balance(e) - 1
  {
  }

  lemma MutationAccounts<S, V>(e: Engine<S, V>, ev: Event<S, V>, t: Time)
    requires HasOwn(e) && (ev.Mutation? || ev.DeltaMutation?)
    ensures Balance(Step(e, ev, t).engine) == Balance(e) - Notices(e, ev)
  {
    var next, choice := Advance(e, ev.value, ev.view, t), Resolve(e, ev.urgency);
    AdvanceAccounts(e, ev.value, ev.view, t);
    OutcomeAccounts(next, choice, if ev.DeltaMutation? then ev.delta else []);
  }

  lemma InboundAccounts<S, V>(e: Engine<S, V>, ev: Event<S, V>, t: Time)
    requires HasOwn(e) && ev.Inbound?
    ensures Balance(Step(e, ev, t).engine) == Balance(e) + Replies(e, ev, t)
  {
    var msg := ev.msg;
    if msg.Sync? && msg.message.FullSnapshot? {
      assert Balance(HandleSnapshot(e, msg.message, t)) == Balance(e);
    } else if msg.Sync? && msg.message.DeltaUpdate? {
      assert Balance(HandleDelta(e, msg.message, t).engine) == Balance(e);
    }
  }

  lemma RestAccounts<S, V>(e: Engine<S, V>, ev: Event<S, V>, t: Time)
    requires HasOwn(e) && (ev.Joined? || ev.Left? || ev.Periodic? || ev.Flush?)
    ensures Balance(Step(e, ev, t).engine) == Balance(e) + Joins(ev) + Periodics(e, ev)
  {
  }

  lemma StepAccounts<S, V>(e: Engine<S, V>, ev: Event<S, V>, t: Time)
    requires HasOwn(e)
    ensures Balance(Step(e, ev, t).engine)
            == Balance(e) + Joins(ev) + Replies(e, ev, t) + Periodics(e, ev) - Notices(e, ev)
  {
    if ev.Mutation? || ev.DeltaMutation? {
      MutationAccounts(e, ev, t);
    } else if ev.Inbound? {
      InboundAccounts(e, ev, t);
    } else {
      RestAccounts(e, ev, t);
    }
  }

  lemma StepBalances<S, V>(start: int, e: Engine<S, V>, past: Tally, ev: Timed<S, V>, e': Engine<S, V>, past': Tally)
    requires Follows(e, past, ev, e', past')
    requires Balance(e) == start + past.joins + past.replies + past.periodics - past.notices
    ensures Balance(e') == start + past'.joins + past'.replies + past'.periodics - past'.notices
  {
    StepAccounts(e, ev.ev, ev.t);
  }

  lemma {:induction false} Balanced<S, V>(states: seq<Engine<S, V>>, evs: seq<Timed<S, V>>, tallies: seq<Tally>, k: nat)
    requires Trace(states, evs, tallies) && k <= |evs|
    ensures
      var y := tallies[k];
      Balance(states[k]) == Balance(states[0]) + y.joins + y.replies + y.periodics - y.notices
  {
    if k > 0 {
      Balanced(states, evs, tallies, k - 1);
      StepBalances(Balance(states[0]), states[k - 1], tallies[k - 1], evs[k - 1], states[k], tallies[k]);
    }
  }

  /** Every mutation, join, answered request and periodic send of a run is accounted for
      exactly once: as a snapshot, a delta, a suppression or a feed notice. */
  lemma Accounting<S, V>(states: seq<Engine<S, V>>, evs: seq<Timed<S, V>>, tallies: seq<Tally>, k: nat)
    requires Trace(states, evs, tallies) && states[0].diag.metrics == NO_METRICS && k <= |evs|
    ensures
      var m, y := states[k].diag.metrics, tallies[k];
      m.totalMutations + y.joins + y.replies + y.periodics
      == m.snapshotsSent + m.deltasSent + m.deltasSuppressed + y.notices
  {
    Balanced(states, evs, tallies, k);
  }
}
