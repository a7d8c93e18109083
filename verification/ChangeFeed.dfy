/** Change-feed batching: the class that batches notices, and the proof that batching is
    invisible to the receiver. */
module ChangeFeed {
  import opened Types
  import opened ShardSpec
  import opened EngineSpec
  import opened Cluster

  // ── The batching class ─────────────────────────────────────────

  class ChangeFeedLogic {
    const nodeId: NodeId
    var pending: map<FeedKey, Generation>

    constructor (nodeId: NodeId)
      ensures this.nodeId == nodeId && pending == map[]
    {
      this.nodeId := nodeId;
      pending := map[];
    }

    method NotifyChange(stateName: string, source: NodeId, g: Generation)
      modifies this
      ensures pending == Notify(old(pending), (stateName, source), g)
    {
      var key := (stateName, source);
      if key in pending {
        if pending[key].Lt(g) {
          pending := pending[key := g];
        }
      } else {
        pending := pending[key := g];
      }
    }

    /** Drain everything pending, in some order, into one batch. */
    method Flush() returns (r: Option<Batch>)
      modifies this
      ensures pending == map[]
      ensures r.None? <==> old(pending) == map[]
      ensures r.Some? ==> r.value.source == nodeId && Lists(r.value.notifications, old(pending))
    {
      if pending == map[] {
        return None;
      }
      var notes := Drain(pending);
      pending := map[];
      return Some(Batch(nodeId, notes));
    }

    method PendingCount() returns (n: nat)
      ensures n == |pending|
    {
      n := |pending|;
    }
  }

  /** One notice for each key, in the order the keys happen to be drawn. */
  method Drain(feed: map<FeedKey, Generation>) returns (notes: seq<Notification>)
    ensures Lists(notes, feed)
    ensures notes == [] <==> feed == map[]
  {
    notes := [];
    var left := feed.Keys;
    while left != {}
      invariant left <= feed.Keys
      invariant forall i :: 0 <= i < |notes| ==>
                  var key := (notes[i].stateName, notes[i].source);
                  key in feed && key !in left && feed[key] == notes[i].generation
      invariant forall k :: k in feed && k !in left ==> Notification(k.0, k.1, feed[k]) in notes
      invariant forall i, j :: 0 <= i < j < |notes| ==>
                  (notes[i].stateName, notes[i].source) != (notes[j].stateName, notes[j].source)
      decreases left
    {
      var key :| key in left;
      notes := notes + [Notification(key.0, key.1, feed[key])];
      left := left - {key};
    }
    if notes != [] {
      assert (notes[0].stateName, notes[0].source) in feed;
    }
  }

  /** What a received batch is routed to, one entry for each notice. */
  function RouteInboundBatch(batch: Batch, self: NodeId): seq<Notification> {
    if batch.source == self then [] else batch.notifications
  }

  // ── Batches carry the maximum since the last flush ─────────────

  datatype FeedOp = NotifyOp(key: FeedKey, g: Generation) | FlushOp

  function PendingAfter(ops: seq<FeedOp>): map<FeedKey, Generation> {
    if ops == [] then map[]
    else
      var before, last := PendingAfter(ops[..|ops| - 1]), ops[|ops| - 1];
      match last
      case NotifyOp(key, g) => Notify(before, key, g)
      case FlushOp => map[]
  }

  /** Notice i is about this key and no flush came after it. */
  ghost predicate Recent(ops: seq<FeedOp>, i: int, key: FeedKey) {
    0 <= i < |ops| && ops[i].NotifyOp? && ops[i].key == key
    && forall j :: i < j < |ops| ==> ops[j].NotifyOp?
  }

  /** Over any run of notices and flushes, what is pending under a key is the maximum of the
      notices about it since the last flush, and nothing else is pending. */
  lemma {:induction false} PendingIsMaximum(ops: seq<FeedOp>, key: FeedKey)
    ensures key in PendingAfter(ops) <==> exists i :: Recent(ops, i, key)
    ensures key in PendingAfter(ops) ==>
              && (exists i :: Recent(ops, i, key) && ops[i].g == PendingAfter(ops)[key])
              && (forall i :: Recent(ops, i, key) ==> ops[i].g.Le(PendingAfter(ops)[key]))
    decreases |ops|
  {
    if ops != [] {
      var before, last := ops[..|ops| - 1], ops[|ops| - 1];
      PendingIsMaximum(before, key);
      if last.NotifyOp? {
        forall i | 0 <= i < |before| ensures Recent(ops, i, key) <==> Recent(before, i, key) {
          if Recent(before, i, key) {
            assert forall j :: i < j < |ops| ==> ops[j] == (if j < |before| then before[j] else last);
          }
          if Recent(ops, i, key) {
            assert forall j :: i < j < |before| ==> before[j] == ops[j];
          }
        }
        assert Recent(ops, |ops| - 1, key) <==> last.key == key;
      } else {
        forall i ensures !Recent(ops, i, key) {
          if 0 <= i < |ops| - 1 {
            assert ops[|ops| - 1].FlushOp?;
          }
        }
      }
    }
  }

  // ── Order within a batch ───────────────────────────────────────

  /** No two notices share a key. */
  ghost predicate Distinct(notes: seq<Notification>) {
    forall i, j :: 0 <= i < j < |notes| ==>
      (notes[i].stateName, notes[i].source) != (notes[j].stateName, notes[j].source)
  }

  /** With distinct keys, the notice about p, if there is one, is all that p's entry sees. */
  lemma {:induction false} MarkAllAt<V>(
      name: string, departed: set<NodeId>, views: Views<V>, notes: seq<Notification>, p: NodeId)
    requires Distinct(notes) && p in views
    ensures
      var marked := MarkAll(name, departed, views, notes);
      && p in marked
      && (forall i :: 0 <= i < |notes| && notes[i].stateName == name && notes[i].source == p ==>
            p in MarkOne(name, departed, views, notes[i]) && marked[p] == MarkOne(name, departed, views, notes[i])[p])
      && ((forall i :: 0 <= i < |notes| ==> !(notes[i].stateName == name && notes[i].source == p)) ==>
          marked[p] == views[p])
    decreases |notes|
  {
    if notes != [] {
      var rest := notes[1..];
      assert forall i :: 0 <= i < |rest| ==> rest[i] == notes[i + 1];
      assert Distinct(rest);
      var views' := MarkOne(name, departed, views, notes[0]);
      MarkAllAt(name, departed, views', rest, p);
      forall i | 0 <= i < |notes| && notes[i].stateName == name && notes[i].source == p
        ensures MarkAll(name, departed, views, notes)[p] == MarkOne(name, departed, views, notes[i])[p]
      {
        if i > 0 {
          assert notes[i] == rest[i - 1];
          assert views'[p] == views[p];
        } else {
          forall j | 0 <= j < |rest| ensures !(rest[j].stateName == name && rest[j].source == p) {
            assert rest[j] == notes[j + 1];
          }
        }
      }
    }
  }

  /** Every order of a batch has the same effect at the receiver. */
  lemma OrderDoesNotMatter<S, V>(
      e: Engine<S, V>, source: NodeId, xs: seq<Notification>, ys: seq<Notification>, feed: map<FeedKey, Generation>)
    requires Lists(xs, feed) && Lists(ys, feed)
    ensures HandleFeed(e, Batch(source, xs)) == HandleFeed(e, Batch(source, ys))
  {
    var name, departed, views := e.cfg.name, e.departed, e.views;
    var mx, my := MarkAll(name, departed, views, xs), MarkAll(name, departed, views, ys);
    MarkAllKeepsEntries(name, departed, views, xs);
    MarkAllKeepsEntries(name, departed, views, ys);
    forall p | p in views ensures mx[p] == my[p] {
      MarkAllAt(name, departed, views, xs, p);
      MarkAllAt(name, departed, views, ys, p);
      if (name, p) in feed {
        var n := Notification(name, p, feed[(name, p)]);
        assert n in xs && n in ys;
      }
    }
    assert mx == my;
  }

  // ── One notice for many ────────────────────────────────────────

  ghost predicate Ascending(gs: seq<Generation>) {
    forall i, j :: 0 <= i < j < |gs| ==> gs[i].Le(gs[j])
  }

  function NoticesOf(name: string, p: NodeId, gs: seq<Generation>): seq<Notification> {
    seq(|gs|, i requires 0 <= i < |gs| => Notification(name, p, gs[i]))
  }

  /** An owner's ascending notices, delivered one by one, leave exactly what the highest of
      them leaves alone. */
  lemma {:induction false} LastNoticeSuffices<V>(
      name: string, departed: set<NodeId>, views: Views<V>, p: NodeId, gs: seq<Generation>)
    requires gs != [] && Ascending(gs)
    ensures MarkAll(name, departed, views, NoticesOf(name, p, gs))
         == MarkAll(name, departed, views, [Notification(name, p, gs[|gs| - 1])])
    decreases |gs|
  {
    var notes := NoticesOf(name, p, gs);
    var last := Notification(name, p, gs[|gs| - 1]);
    assert [last][1..] == [];
    if |gs| == 1 {
      assert notes == [last];
    } else {
      var views' := MarkOne(name, departed, views, notes[0]);
      assert notes[1..] == NoticesOf(name, p, gs[1..]);
      LastNoticeSuffices(name, departed, views', p, gs[1..]);
      assert gs[1..][|gs[1..]| - 1] == gs[|gs| - 1];
      assert MarkOne(name, departed, views', last) == MarkOne(name, departed, views, last);
    }
  }

  function NotifyAll(name: string, p: NodeId, gs: seq<Generation>): seq<FeedOp> {
    seq(|gs|, i requires 0 <= i < |gs| => NotifyOp((name, p), gs[i]))
  }

  /** Batching is invisible: when an owner announces ascending generations and then flushes,
      its batch leaves the receiver exactly as the single notices would have. */
  lemma BatchingIsInvisible<V>(
      name: string, departed: set<NodeId>, views: Views<V>, p: NodeId, gs: seq<Generation>, batch: seq<Notification>)
    requires gs != [] && Ascending(gs) && Lists(batch, PendingAfter(NotifyAll(name, p, gs)))
    ensures MarkAll(name, departed, views, batch) == MarkAll(name, departed, views, NoticesOf(name, p, gs))
  {
    assert |batch| > 1 ==> (batch[0].stateName, batch[0].source) != (batch[1].stateName, batch[1].source);
    PendingOfAscending(name, p, gs);
    var last := Notification(name, p, gs[|gs| - 1]);
    assert last in batch;
    forall i | 0 <= i < |batch| ensures batch[i] == last {
      assert (batch[i].stateName, batch[i].source) == (name, p);
    }
    assert batch == [last];
    LastNoticeSuffices(name, departed, views, p, gs);
  }

  lemma {:induction false} PendingOfAscending(name: string, p: NodeId, gs: seq<Generation>)
    requires gs != [] && Ascending(gs)
    ensures PendingAfter(NotifyAll(name, p, gs)) == map[(name, p) := gs[|gs| - 1]]
    decreases |gs|
  {
    var ops := NotifyAll(name, p, gs);
    if |gs| > 1 {
      PendingOfAscending(name, p, gs[..|gs| - 1]);
      assert ops[..|ops| - 1] == NotifyAll(name, p, gs[..|gs| - 1]);
    } else {
      assert ops[..0] == [];
    }
  }
}
