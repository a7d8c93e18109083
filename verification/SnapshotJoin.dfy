/** Merging snapshots is a join: order and duplicates do not matter. */
module SnapshotJoin {
  import opened Types
  import opened ShardSpec

  datatype Arrival<V> = Arrival(snap: InboundSnapshot<V>, t: Time)

  /** A peer's entry after one snapshot. */
  function Merge<V>(entry: Option<ViewObject<V>>, a: Arrival<V>): Option<ViewObject<V>> {
    var offered := OfferSnapshot(entry, a.snap, a.t);
    if offered.Some? then offered else entry
  }

  /** A peer's entry after a sequence of snapshots, first to last. */
  function MergeAll<V>(entry: Option<ViewObject<V>>, arrivals: seq<Arrival<V>>): Option<ViewObject<V>>
    decreases |arrivals|
  {
    if arrivals == [] then entry else MergeAll(Merge(entry, arrivals[0]), arrivals[1..])
  }

  /** A generation with the view it stands for. */
  datatype Version<V> = Version(generation: Generation, view: V)

  ghost function Offered<V>(entry: Option<ViewObject<V>>, arrivals: seq<Arrival<V>>): set<Version<V>> {
    (if entry.Some? then {Version(entry.value.generation, entry.value.value)} else {})
    + set a | a in arrivals :: Version(a.snap.generation, a.snap.view)
  }

  /** The greatest of a set of versions. */
  ghost predicate IsGreatest<V>(v: Version<V>, vs: set<Version<V>>) {
    v in vs && forall w :: w in vs ==> w.generation.Le(v.generation)
  }

  /** No two versions share a generation. */
  ghost predicate UniqueGenerations<V>(vs: set<Version<V>>) {
    forall v, w :: v in vs && w in vs && v.generation == w.generation ==> v == w
  }

  lemma {:induction false} MergeIsMaximum<V>(entry: Option<ViewObject<V>>, arrivals: seq<Arrival<V>>)
    requires UniqueGenerations(Offered(entry, arrivals))
    ensures
      var merged := MergeAll(entry, arrivals);
      if merged.None? then Offered(entry, arrivals) == {}
      else IsGreatest(Version(merged.value.generation, merged.value.value), Offered(entry, arrivals))
    decreases |arrivals|
  {
    if arrivals != [] {
      var a, rest := arrivals[0], arrivals[1..];
      var next := Merge(entry, a);
      assert Version(a.snap.generation, a.snap.view) in Offered(entry, arrivals);
      forall b | b in rest ensures b in arrivals {}
      assert Offered(next, rest) <= Offered(entry, arrivals);
      MergeIsMaximum(next, rest);
      assert next.Some?;
      forall v | v in Offered(entry, arrivals)
        ensures v in Offered(next, rest) || v.generation.Le(next.value.generation)
      {
        if b :| b in arrivals && v == Version(b.snap.generation, b.snap.view) {
          assert b == a || b in rest;
        }
      }
      assert Version(next.value.generation, next.value.value) in Offered(next, rest);
    }
  }

  /** Two sequences that offer the same versions leave the same generation and view. */
  lemma MergeIsJoin<V>(entry: Option<ViewObject<V>>, xs: seq<Arrival<V>>, ys: seq<Arrival<V>>)
    requires Offered(entry, xs) == Offered(entry, ys) && UniqueGenerations(Offered(entry, xs))
    ensures
      var x, y := MergeAll(entry, xs), MergeAll(entry, ys);
      x.Some? == y.Some? && (x.Some? ==> x.value.generation == y.value.generation && x.value.value == y.value.value)
  {
    MergeIsMaximum(entry, xs);
    MergeIsMaximum(entry, ys);
  }
}
