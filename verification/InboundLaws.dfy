/** What becomes of a snapshot or delta at its receiver: one verdict for each message, what
    the verdict does to the entry, the reply and the counters, and how the verdicts of a
    whole run add up to the failure counts that health is judged by. */
module InboundLaws {
  import opened Types
  import opened ShardSpec
  import opened DiagnosticsSpec
  import opened EngineSpec
  import opened DiagnosticsLogics
  import opened EngineRuns

  datatype Verdict =
    | Ignored
    | WrongVersion
    | Unreadable
    | Unprepared
    | Outdated
    | Gapped
    | Accepted(delta: bool)

  /** A snapshot or a delta. */
  predicate CarriesView(m: SyncMessage) {
    m.FullSnapshot? || m.DeltaUpdate?
  }

  predicate Later(g: Generation, h: Generation) {
    g.incarnation > h.incarnation || (g.incarnation == h.incarnation && g.age > h.age)
  }

  function SnapshotVerdict<S, V>(e: Engine<S, V>, m: SyncMessage): Verdict
    requires m.FullSnapshot?
  {
    match e.cfg.deserialize(m.data, m.wireVersion)
    case Err(UnknownVersion(_)) => WrongVersion
    case Err(Malformed(_)) => Unreadable
    case Ok(_) =>
      if m.source in e.views && !Later(m.generation, e.views[m.source].generation) then Outdated else Accepted(false)
  }

  function DeltaVerdict<S, V>(e: Engine<S, V>, m: SyncMessage): Verdict
    requires m.DeltaUpdate?
  {
    if m.wireVersion != e.cfg.wireVersion then WrongVersion
    else if e.cfg.applier.None? || m.source !in e.views then Unprepared
    else
      var shown := e.views[m.source];
      if !Later(m.generation, shown.generation) then Outdated
      else if m.generation.incarnation > shown.generation.incarnation || m.generation.age > shown.generation.age + 1
      then Gapped
      else if e.cfg.applier.value(m.data, m.wireVersion, shown.value).Err? then Unreadable
      else Accepted(true)
  }

  function VerdictOn<S, V>(e: Engine<S, V>, m: SyncMessage): Verdict
    requires CarriesView(m)
  {
    if m.stateName != e.cfg.name || m.source in e.departed then Ignored
    else if m.FullSnapshot? then SnapshotVerdict(e, m)
    else DeltaVerdict(e, m)
  }

  function Arrives<S, V>(e: Engine<S, V>, m: SyncMessage, t: Time): Outcome<S, V>
    requires HasOwn(e)
  {
    Step(e, Inbound(Sync(m)), t)
  }

  // ── What a verdict means ───────────────────────────────────────

  /** Entries change only if the message is accepted, or to drop one whose version is unknown. */
  lemma OthersChangeNothing<S, V>(e: Engine<S, V>, m: SyncMessage, t: Time)
    requires HasOwn(e) && CarriesView(m)
    ensures
      var e', verdict := Arrives(e, m, t).engine, VerdictOn(e, m);
      && e'.state == e.state && e'.departed == e.departed && e'.feed == e.feed
      && (!verdict.Accepted? && !verdict.WrongVersion? ==> e'.views == e.views)
      && (verdict.WrongVersion? ==>
            e'.views == if e.cfg.policy == DropAndWait && m.source != e.cfg.id then e.views - {m.source} else e.views)
  {
  }

  /** An accepted snapshot is shown in full, as synced now; a marker survives only if it is
      still ahead of it. */
  lemma AcceptedSnapshotIsShown<S, V>(e: Engine<S, V>, m: SyncMessage, t: Time)
    requires HasOwn(e) && m.FullSnapshot? && VerdictOn(e, m).Accepted?
    ensures
      var e', read := Arrives(e, m, t).engine, e.cfg.deserialize(m.data, m.wireVersion);
      var ahead := m.source in e.views && e.views[m.source].pending.Some?
                   && Later(e.views[m.source].pending.value, m.generation);
      && read.Ok?
      && e'.views == e.views[m.source :=
           ViewObject(m.generation, m.wireVersion, read.value, t.unixMs, t.unixMs, t.now,
                      if ahead then e.views[m.source].pending else None, m.source)]
  {
  }

  /** An accepted delta turns the shown view into the next one, as synced now; the entry keeps
      its creation time, and a marker survives only if it is still ahead. */
  lemma AcceptedDeltaIsShown<S, V>(e: Engine<S, V>, m: SyncMessage, t: Time)
    requires HasOwn(e) && m.DeltaUpdate? && VerdictOn(e, m).Accepted?
    ensures
      && m.source in e.views && e.cfg.applier.Some?
      && var shown := e.views[m.source];
         var made := e.cfg.applier.value(m.data, m.wireVersion, shown.value);
         var ahead := shown.pending.Some? && Later(shown.pending.value, m.generation);
         && made.Ok?
         && m.generation == Generation(shown.generation.incarnation, shown.generation.age + 1)
         && Arrives(e, m, t).engine.views == e.views[m.source :=
              ViewObject(m.generation, m.wireVersion, made.value, shown.createdTime, t.unixMs, t.now,
                         if ahead then shown.pending else None, m.source)]
  {
  }

  /** A peer whose message has just been accepted, and has reached whatever was announced of
      it, is not reported as stale, however little staleness a query allows. */
  lemma AcceptedIsFresh<S, V>(e: Engine<S, V>, m: SyncMessage, t: Time, maxStaleness: nat)
    requires HasOwn(e) && CarriesView(m) && VerdictOn(e, m).Accepted?
    requires m.source in e.views && e.views[m.source].pending.Some? ==>
               !Later(e.views[m.source].pending.value, m.generation)
    ensures
      var e' := Arrives(e, m, t).engine;
      && m.source in e'.views && e'.views[m.source].generation == m.generation
      && m.source !in StalePeers(e'.views, e'.cfg.id, t.now, maxStaleness)
      && m.source !in PullTargets(e', maxStaleness, t.now)
      && forall later :: t.now <= later <= t.now + maxStaleness ==>
           m.source !in StalePeers(e'.views, e'.cfg.id, later, maxStaleness)
  {
    if m.FullSnapshot? {
      AcceptedSnapshotIsShown(e, m, t);
    } else {
      AcceptedDeltaIsShown(e, m, t);
    }
  }

  /** Only deltas are answered, with a request for the whole view: those that cannot be
      applied because there is nothing to apply them to, something is missing in between,
      or applying them fails. */
  lemma WhoIsAsked<S, V>(e: Engine<S, V>, m: SyncMessage, t: Time)
    requires HasOwn(e) && CarriesView(m)
    ensures
      var verdict := VerdictOn(e, m);
      Arrives(e, m, t).action ==
      if m.DeltaUpdate? && (verdict.Unprepared? || verdict.Gapped? || verdict.Unreadable?) then
        Some(SendSync(m.source, RequestSnapshot(e.cfg.name, e.cfg.id)))
      else None
  {
  }

  /** A snapshot request is answered exactly if it is about this state and its sender has not
      departed, and then with what the node shows of itself. */
  lemma RequestsAreAnswered<S, V>(e: Engine<S, V>, m: SyncMessage, t: Time)
    requires HasOwn(e) && m.RequestSnapshot?
    ensures
      var out := Arrives(e, m, t);
      var sent := e.diag.metrics.snapshotsSent;
      if m.stateName == e.cfg.name && m.requester !in e.departed then
        && out.action == Some(SendSync(m.requester, FullSnapshot(e.cfg.name, e.cfg.id, e.state.generation,
                                         e.cfg.wireVersion, e.cfg.serialize(e.views[e.cfg.id].value))))
        && out.engine == e.(diag := e.diag.(metrics := e.diag.metrics.(snapshotsSent := sent + 1)))
      else out == Outcome(e, None)
  {
  }

  // ── Counting ───────────────────────────────────────────────────

  function PlusIf(n: nat, b: bool): nat {
    if b then n + 1 else n
  }

  /** Each verdict moves the counters that go with it, and no other. */
  lemma VerdictCounts<S, V>(e: Engine<S, V>, m: SyncMessage, t: Time)
    requires HasOwn(e) && CarriesView(m)
    ensures
      var v, x, x' := VerdictOn(e, m), e.diag.metrics, Arrives(e, m, t).engine.diag.metrics;
      x' == x.(snapshotsReceived := PlusIf(x.snapshotsReceived, v == Accepted(false)),
               deltasReceived := PlusIf(x.deltasReceived, v == Accepted(true)),
               syncFailures := PlusIf(x.syncFailures, v.WrongVersion? || v.Unreadable?),
               ageGapsDetected := PlusIf(x.ageGapsDetected, v.Gapped?),
               staleDeltasDiscarded := PlusIf(x.staleDeltasDiscarded, v.Outdated?))
  {
  }

  /** A message that cannot be read or applied is a failure of its source, one that is accepted
      ends its failures, and no message changes anything about other peers. */
  lemma VerdictTracks<S, V>(e: Engine<S, V>, m: SyncMessage, t: Time, p: NodeId)
    requires HasOwn(e) && CarriesView(m)
    ensures
      var v, before, after := VerdictOn(e, m), e.diag.PeerOf(p), Arrives(e, m, t).engine.diag.PeerOf(p);
      && (p != m.source ==> after == before)
      && (p == m.source && (v.WrongVersion? || v.Unreadable?) ==>
            && after.consecutiveFailures == before.consecutiveFailures + 1 && after.lastError.Some?
            && after.lastAttemptTime == Some(t.unixMs) && after.lastSyncTime == before.lastSyncTime)
      && (p == m.source && v.Accepted? ==>
            && after.consecutiveFailures == 0 && after.lastError == None
            && after.lastAttemptTime == Some(t.unixMs) && after.lastSyncTime == Some(t.unixMs))
      && (p == m.source && v.Gapped? ==> after == before.(gapCount := before.gapCount + 1))
      && (p == m.source && (v.Ignored? || v.Unprepared? || v.Outdated?) ==> after == before)
      && (p == m.source && !v.Gapped? ==> after.gapCount == before.gapCount)
  {
  }

  /** A message that carries a view of p. */
  predicate IsFrom<S, V>(ev: Event<S, V>, p: NodeId) {
    ev.Inbound? && ev.msg.Sync? && CarriesView(ev.msg.message) && ev.msg.message.source == p
  }

  /** The failures of p in a row, by the verdicts on its messages alone: an accepted message and
      a leave start anew. */
  function FailuresInARow<S, V>(e: Engine<S, V>, evs: seq<Timed<S, V>>, p: NodeId): nat
    requires HasOwn(e)
    decreases |evs|
  {
    if evs == [] then e.diag.PeerOf(p).consecutiveFailures
    else
      var before, ev := evs[..|evs| - 1], evs[|evs| - 1].ev;
      var soFar := FailuresInARow(e, before, p);
      if ev.Left? && ev.id == p then 0
      else if !IsFrom(ev, p) then soFar
      else
        match VerdictOn(After(e, before), ev.msg.message)
        case WrongVersion => soFar + 1
        case Unreadable => soFar + 1
        case Accepted(_) => 0
        case _ => soFar
  }

  lemma EventTracks<S, V>(e: Engine<S, V>, ev: Event<S, V>, t: Time, p: NodeId)
    requires HasOwn(e) && !IsFrom(ev, p)
    ensures
      Step(e, ev, t).engine.diag.PeerOf(p) == if ev.Left? && ev.id == p then NEW_PEER else e.diag.PeerOf(p)
  {
    if ev.Inbound? && ev.msg.Sync? && CarriesView(ev.msg.message) {
      VerdictTracks(e, ev.msg.message, t, p);
    }
  }

  /** Over any run: the failure count of a peer is the number of its messages that failed since
      the last one that was accepted, or since it left; so a peer counts as failing exactly
      when it is shown and something of it has failed since. */
  lemma {:induction false} FailuresAreCounted<S, V>(e: Engine<S, V>, evs: seq<Timed<S, V>>, p: NodeId)
    requires HasOwn(e)
    ensures After(e, evs).diag.PeerOf(p).consecutiveFailures == FailuresInARow(e, evs, p)
    ensures
      var r := After(e, evs);
      p in FailingPeers(r.views, r.cfg.id, r.diag)
      <==> p in r.views && p != r.cfg.id && FailuresInARow(e, evs, p) > 0
    decreases |evs|
  {
    if evs != [] {
      var before, last := evs[..|evs| - 1], evs[|evs| - 1];
      FailuresAreCounted(e, before, p);
      if IsFrom(last.ev, p) {
        VerdictTracks(After(e, before), last.ev.msg.message, last.t, p);
      } else {
        EventTracks(After(e, before), last.ev, last.t, p);
      }
    }
  }

  /** Every message of the run is one of p that fails. */
  ghost predicate AllFail<S, V>(e: Engine<S, V>, evs: seq<Timed<S, V>>, p: NodeId)
    requires HasOwn(e)
    decreases |evs|
  {
    evs != [] ==>
      var before, ev := evs[..|evs| - 1], evs[|evs| - 1].ev;
      && AllFail(e, before, p) && IsFrom(ev, p)
      && var v := VerdictOn(After(e, before), ev.msg.message);
         v.WrongVersion? || v.Unreadable?
  }

  /** After n failures in a row the count has grown by n. */
  lemma {:induction false} FailuresAddUp<S, V>(e: Engine<S, V>, evs: seq<Timed<S, V>>, p: NodeId)
    requires HasOwn(e) && AllFail(e, evs, p)
    ensures After(e, evs).diag.PeerOf(p).consecutiveFailures == e.diag.PeerOf(p).consecutiveFailures + |evs|
    decreases |evs|
  {
    if evs != [] {
      var before, last := evs[..|evs| - 1], evs[|evs| - 1];
      FailuresAddUp(e, before, p);
      VerdictTracks(After(e, before), last.ev.msg.message, last.t, p);
    }
  }

  /** How many messages of a run met a verdict. */
  function HowOften<S, V>(e: Engine<S, V>, evs: seq<Timed<S, V>>, v: Verdict): nat
    requires HasOwn(e)
    decreases |evs|
  {
    if evs == [] then 0
    else
      var before, ev := evs[..|evs| - 1], evs[|evs| - 1].ev;
      PlusIf(HowOften(e, before, v),
             ev.Inbound? && ev.msg.Sync? && CarriesView(ev.msg.message)
             && VerdictOn(After(e, before), ev.msg.message) == v)
  }

  lemma EventCounts<S, V>(e: Engine<S, V>, ev: Event<S, V>, t: Time)
    requires HasOwn(e) && !(ev.Inbound? && ev.msg.Sync? && CarriesView(ev.msg.message))
    ensures
      var x, x' := e.diag.metrics, Step(e, ev, t).engine.diag.metrics;
      && x'.snapshotsReceived == x.snapshotsReceived && x'.deltasReceived == x.deltasReceived
      && x'.syncFailures == x.syncFailures && x'.ageGapsDetected == x.ageGapsDetected
      && x'.staleDeltasDiscarded == x.staleDeltasDiscarded
  {
  }

  /** Over any run of a new engine the inbound counters are the numbers of messages that met
      the verdicts they stand for. */
  lemma {:induction false} CountersAreVerdicts<S, V>(e: Engine<S, V>, evs: seq<Timed<S, V>>)
    requires HasOwn(e) && e.diag.metrics == NO_METRICS
    ensures
      var x := After(e, evs).diag.metrics;
      && x.snapshotsReceived == HowOften(e, evs, Accepted(false))
      && x.deltasReceived == HowOften(e, evs, Accepted(true))
      && x.syncFailures == HowOften(e, evs, WrongVersion) + HowOften(e, evs, Unreadable)
      && x.ageGapsDetected == HowOften(e, evs, Gapped)
      && x.staleDeltasDiscarded == HowOften(e, evs, Outdated)
    decreases |evs|
  {
    if evs != [] {
      var before, last := evs[..|evs| - 1], evs[|evs| - 1];
      CountersAreVerdicts(e, before);
      if last.ev.Inbound? && last.ev.msg.Sync? && CarriesView(last.ev.msg.message) {
        VerdictCounts(After(e, before), last.ev.msg.message, last.t);
      } else {
        EventCounts(After(e, before), last.ev, last.t);
      }
    }
  }
}
