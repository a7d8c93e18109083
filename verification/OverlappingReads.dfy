/** Lock-free reads of the view map that overlap a single writer.

    The map is an outer pointer to an immutable table of cells, and each cell holds one
    node's view. The writer stores into a cell, or replaces the table by a copy with one
    entry more or less; cells are shared between tables and never reused. A reader loads
    the outer pointer once and then loads the cells it found, at any later moments. */
module OverlappingReads {
  import opened Types
  import opened ShardSpec

  type CellId = nat

  datatype Memory<V> = Memory(outer: map<NodeId, CellId>, cells: map<CellId, ViewObject<V>>)

  /** The view map the memory stands for. */
  function Model<V>(m: Memory<V>): Views<V>
    requires Valid(m)
  {
    map id | id in m.outer :: m.cells[m.outer[id]]
  }

  /** Every table entry has a cell of its own. */
  ghost predicate Valid<V>(m: Memory<V>) {
    && (forall id :: id in m.outer ==> m.outer[id] in m.cells)
    && (forall a, b :: a in m.outer && b in m.outer && a != b ==> m.outer[a] != m.outer[b])
  }

  datatype Write<V> =
    | Store(id: NodeId, view: ViewObject<V>)
    | Insert(id: NodeId, view: ViewObject<V>, cell: CellId)
    | Remove(id: NodeId)
    | Nothing

  /** A store goes to a present node, an insertion of an absent one allocates a new cell. */
  predicate Allowed<V>(m: Memory<V>, w: Write<V>) {
    match w
    case Store(id, _) => id in m.outer && m.outer[id] in m.cells
    case Insert(id, _, cell) => id !in m.outer && cell !in m.cells
    case Remove(id) => true
    case Nothing => true
  }

  function Written<V>(m: Memory<V>, w: Write<V>): Memory<V>
    requires Allowed(m, w)
  {
    match w
    case Store(id, view) => m.(cells := m.cells[m.outer[id] := view])
    case Insert(id, view, cell) => Memory(m.outer[id := cell], m.cells[cell := view])
    case Remove(id) => m.(outer := m.outer - {id})
    case Nothing => m
  }

  /** A store that does not put an older generation over a newer one. */
  ghost predicate NeverOlder<V>(m: Memory<V>, w: Write<V>)
    requires Allowed(m, w)
  {
    w.Store? ==> m.cells[m.outer[w.id]].generation.Le(w.view.generation)
  }

  /** A run of the writer. */
  ghost predicate IsRun<V>(ms: seq<Memory<V>>, ws: seq<Write<V>>) {
    && |ms| == |ws| + 1
    && Valid(ms[0])
    && forall i :: 0 <= i < |ws| ==> Allowed(ms[i], ws[i]) && ms[i + 1] == Written(ms[i], ws[i])
  }

  lemma {:induction false} ValidThroughout<V>(ms: seq<Memory<V>>, ws: seq<Write<V>>, i: nat)
    requires IsRun(ms, ws) && i < |ms|
    ensures Valid(ms[i])
  {
    if i > 0 {
      ValidThroughout(ms, ws, i - 1);
    }
  }

  /** Writes act on the plain map as their names say. */
  lemma WritesRefineMap<V>(m: Memory<V>, w: Write<V>)
    requires Valid(m) && Allowed(m, w)
    ensures Valid(Written(m, w))
    ensures Model(Written(m, w)) == match w
                                    case Store(id, view) => Model(m)[id := view]
                                    case Insert(id, view, _) => Model(m)[id := view]
                                    case Remove(id) => Model(m) - {id}
                                    case Nothing => Model(m)
  {
  }

  /** Node id held this view at moment i of the run. */
  ghost predicate HeldAt<V>(ms: seq<Memory<V>>, i: int, id: NodeId, view: ViewObject<V>) {
    0 <= i < |ms| && id in ms[i].outer && ms[i].outer[id] in ms[i].cells && ms[i].cells[ms[i].outer[id]] == view
  }

  /** The cell that node id had when the table was loaded, read at a later moment, holds a
      view that id held between the load and the read; and if the cell has been taken out
      of the table it will not change any more. */
  lemma {:induction false} CellHoldsRecentView<V>(
      ms: seq<Memory<V>>, ws: seq<Write<V>>, start: nat, now: nat, id: NodeId)
    requires IsRun(ms, ws) && start <= now < |ms| && id in ms[start].outer
    ensures ms[start].outer[id] in ms[now].cells
    ensures exists i :: start <= i <= now && HeldAt(ms, i, id, ms[now].cells[ms[start].outer[id]])
    ensures (id in ms[now].outer && ms[now].outer[id] == ms[start].outer[id])
            || forall other :: other in ms[now].outer ==> ms[now].outer[other] != ms[start].outer[id]
    decreases now
  {
    var cell := ms[start].outer[id];
    ValidThroughout(ms, ws, now);
    ValidThroughout(ms, ws, start);
    if now == start {
      assert HeldAt(ms, start, id, ms[start].cells[cell]);
    } else {
      CellHoldsRecentView(ms, ws, start, now - 1, id);
      var before := ms[now - 1];
      if id in ms[now].outer && ms[now].outer[id] == cell {
        assert HeldAt(ms, now, id, ms[now].cells[cell]);
      } else {
        assert ms[now].cells[cell] == before.cells[cell];
        var i :| start <= i <= now - 1 && HeldAt(ms, i, id, before.cells[cell]);
        assert HeldAt(ms, i, id, ms[now].cells[cell]);
        ValidThroughout(ms, ws, now - 1);
        forall other | other in ms[now].outer ensures ms[now].outer[other] != cell {
          if other in before.outer && before.outer[other] == ms[now].outer[other] {
            assert other == id || before.outer[other] != cell;
          }
        }
      }
    }
  }

  /** If no store to node id goes down, the cell that id had does not become older. */
  lemma {:induction false} CellNeverOlder<V>(ms: seq<Memory<V>>, ws: seq<Write<V>>, start: nat, now: nat, id: NodeId)
    requires IsRun(ms, ws) && start <= now < |ms| && id in ms[start].outer
    requires forall i :: start <= i < now && ws[i].Store? && ws[i].id == id ==> NeverOlder(ms[i], ws[i])
    ensures ms[start].outer[id] in ms[start].cells && ms[start].outer[id] in ms[now].cells
    ensures ms[start].cells[ms[start].outer[id]].generation.Le(ms[now].cells[ms[start].outer[id]].generation)
    decreases now
  {
    ValidThroughout(ms, ws, start);
    if start < now {
      CellNeverOlder(ms, ws, start, now - 1, id);
      CellHoldsRecentView(ms, ws, start, now - 1, id);
      ValidThroughout(ms, ws, now - 1);
      var before, w := ms[now - 1], ws[now - 1];
      if w.Store? && w.id == id {
        assert NeverOlder(before, w);
      }
    }
  }

  /** A snapshot: the table loaded at moment `start`, and each of its cells at some moment
      between then and `end`. */
  ghost predicate IsSnapshot<V>(ms: seq<Memory<V>>, start: nat, end: nat, moments: map<NodeId, nat>, result: Views<V>)
    requires start <= end < |ms|
  {
    && moments.Keys == ms[start].outer.Keys && result.Keys == moments.Keys
    && forall id :: id in moments ==>
         && start <= moments[id] <= end
         && ms[start].outer[id] in ms[moments[id]].cells
         && result[id] == ms[moments[id]].cells[ms[start].outer[id]]
  }

  /** A snapshot that overlaps any number of writes, joins and leaves has exactly the keys of
      the moment its table was loaded, and each view in it is one that its node really held
      during the read. */
  lemma SnapshotHoldsRealViews<V>(
      ms: seq<Memory<V>>, ws: seq<Write<V>>, start: nat, end: nat, moments: map<NodeId, nat>, result: Views<V>)
    requires IsRun(ms, ws) && start <= end < |ms| && IsSnapshot(ms, start, end, moments, result)
    ensures Valid(ms[start]) && result.Keys == Model(ms[start]).Keys
    ensures forall id :: id in result ==> exists i :: start <= i <= end && HeldAt(ms, i, id, result[id])
  {
    ValidThroughout(ms, ws, start);
    forall id | id in result ensures exists i :: start <= i <= end && HeldAt(ms, i, id, result[id]) {
      CellHoldsRecentView(ms, ws, start, moments[id], id);
      var i :| start <= i <= moments[id] && HeldAt(ms, i, id, ms[moments[id]].cells[ms[start].outer[id]]);
      assert start <= i <= end && HeldAt(ms, i, id, result[id]);
    }
  }

  // ── The writes of a shard ──────────────────────────────────────

  /** The writer: the owned state of a shard, and its view map. */
  datatype Shard<S, V> = Shard(state: StateObject<S>, memory: Memory<V>)

  datatype ShardOp<S, V> =
    | Offer(snap: InboundSnapshot<V>, t: Time)
    | Successor(source: NodeId, g: Generation, wireVersion: nat, view: V, t: Time)
    | Notice(source: NodeId, g: Generation)
    | Mutate(value: S, view: V, t: Time)
    | Greet(id: NodeId, view: V, t: Time)
    | Forget(id: NodeId)

  function EntryAt<V>(m: Memory<V>, id: NodeId): Option<ViewObject<V>> {
    if id in m.outer && m.outer[id] in m.cells then Some(m.cells[m.outer[id]]) else None
  }

  /** Set an entry: store into its cell, or insert it with a new one. */
  function Put<V>(m: Memory<V>, id: NodeId, entry: ViewObject<V>, cell: CellId): Write<V> {
    if id in m.outer then Store(id, entry) else Insert(id, entry, cell)
  }

  function WriteOf<S, V>(self: NodeId, s: Shard<S, V>, op: ShardOp<S, V>, cell: CellId): Write<V> {
    match op
    case Offer(snap, t) =>
      var offered := OfferSnapshot(EntryAt(s.memory, snap.source), snap, t);
      if offered.Some? then Put(s.memory, snap.source, offered.value, cell) else Nothing
    case Successor(source, g, wireVersion, view, t) =>
      var existing := EntryAt(s.memory, source);
      if existing.Some? && Judge(existing.value.generation, g).Applies?
      then Store(source, DeltaEntry(existing.value, source, g, wireVersion, view, t)) else Nothing
    case Notice(source, g) =>
      var marked := OfferMark(EntryAt(s.memory, source), g);
      if marked.Some? then Store(source, marked.value) else Nothing
    case Mutate(value, view, t) => Put(s.memory, self, OwnEntry(self, Mutated(s.state, value, t), view, t), cell)
    case Greet(id, view, t) =>
      if id == self || id in s.memory.outer then Nothing else Insert(id, Placeholder(id, view, t), cell)
    case Forget(id) => if id == self then Nothing else Remove(id)
  }

  function Next<S, V>(self: NodeId, s: Shard<S, V>, op: ShardOp<S, V>, cell: CellId): Shard<S, V>
    requires Allowed(s.memory, WriteOf(self, s, op, cell))
  {
    var state := if op.Mutate? then Mutated(s.state, op.value, op.t) else s.state;
    Shard(state, Written(s.memory, WriteOf(self, s, op, cell)))
  }

  /** The view map after an operation, as the shard's own functions say. */
  function ViewsAfter<S, V>(self: NodeId, s: Shard<S, V>, op: ShardOp<S, V>): Views<V>
    requires Valid(s.memory)
  {
    var views := Model(s.memory);
    match op
    case Offer(snap, t) =>
      var offered := OfferSnapshot(Lookup(views, snap.source), snap, t);
      if offered.Some? then views[snap.source := offered.value] else views
    case Successor(source, g, wireVersion, view, t) =>
      if source in views && Judge(views[source].generation, g).Applies?
      then views[source := DeltaEntry(views[source], source, g, wireVersion, view, t)] else views
    case Notice(source, g) => MarkStale(views, source, g)
    case Mutate(value, view, t) => views[self := OwnEntry(self, Mutated(s.state, value, t), view, t)]
    case Greet(id, view, t) => Join(views, self, id, view, t)
    case Forget(id) => Leave(views, self, id)
  }

  /** The own entry is ahead of what the next mutation stores over it. */
  predicate OwnAhead<S, V>(self: NodeId, s: Shard<S, V>) {
    var own := EntryAt(s.memory, self);
    own.Some? && s.state.generation.Next().Lt(own.value.generation)
  }

  /** Every operation of a shard is one write of the view map; and it never stores an older
      generation over a newer one, except exactly a mutation whose own entry is ahead. */
  lemma ShardWrites<S, V>(self: NodeId, s: Shard<S, V>, op: ShardOp<S, V>, cell: CellId)
    requires Valid(s.memory) && cell !in s.memory.cells
    ensures
      var w := WriteOf(self, s, op, cell);
      && Allowed(s.memory, w)
      && Valid(Written(s.memory, w)) && Model(Written(s.memory, w)) == ViewsAfter(self, s, op)
      && (NeverOlder(s.memory, w) <==> !(op.Mutate? && OwnAhead(self, s)))
      && (w.Store? && w.id != self ==> NeverOlder(s.memory, w))
  {
    WritesRefineMap(s.memory, WriteOf(self, s, op, cell));
  }

  /** The own entry carries the owned generation. */
  predicate InStep<S, V>(self: NodeId, s: Shard<S, V>) {
    var own := EntryAt(s.memory, self);
    own.Some? && own.value.generation == s.state.generation
  }

  /** An inbound operation that claims to be from the node itself and is newer. */
  predicate Forged<S, V>(self: NodeId, s: Shard<S, V>, op: ShardOp<S, V>) {
    || (op.Offer? && op.snap.source == self && s.state.generation.Lt(op.snap.generation))
    || (op.Successor? && op.source == self && op.g == s.state.generation.Next())
  }

  /** The own entry stays in step under every operation but a forged one, and while it is in
      step no operation goes down. */
  lemma InStepKept<S, V>(self: NodeId, s: Shard<S, V>, op: ShardOp<S, V>, cell: CellId)
    requires Valid(s.memory) && cell !in s.memory.cells && InStep(self, s)
    ensures Allowed(s.memory, WriteOf(self, s, op, cell)) && NeverOlder(s.memory, WriteOf(self, s, op, cell))
    ensures InStep(self, Next(self, s, op, cell)) <==> !Forged(self, s, op)
  {
    ShardWrites(self, s, op, cell);
    var after := ViewsAfter(self, s, op);
    assert Model(Next(self, s, op, cell).memory) == after;
    InStepIff(self, s, op);
  }

  lemma InStepIff<S, V>(self: NodeId, s: Shard<S, V>, op: ShardOp<S, V>)
    requires Valid(s.memory) && InStep(self, s)
    ensures
      var after := ViewsAfter(self, s, op);
      var g := if op.Mutate? then s.state.generation.Next() else s.state.generation;
      (self in after && after[self].generation == g) <==> !Forged(self, s, op)
  {
    assert Model(s.memory)[self].generation == s.state.generation;
  }

  /** After a forged snapshot the next mutation goes down exactly when the forgery was more
      than one age ahead. */
  lemma ForgedSnapshotGoesDown<S, V>(
      self: NodeId, s: Shard<S, V>, snap: InboundSnapshot<V>, t: Time, value: S, view: V, cell: CellId)
    requires Valid(s.memory) && cell !in s.memory.cells && InStep(self, s) && Forged(self, s, Offer(snap, t))
    ensures
      var w := WriteOf(self, s, Offer(snap, t), cell);
      && Allowed(s.memory, w)
      && var s' := Next(self, s, Offer(snap, t), cell);
         var store := WriteOf(self, s', Mutate(value, view, t), cell);
         && Allowed(s'.memory, store) && store.Store?
         && (NeverOlder(s'.memory, store) <==> snap.generation.Le(s.state.generation.Next()))
  {
    ShardWrites(self, s, Offer(snap, t), cell);
    var s' := Next(self, s, Offer(snap, t), cell);
    ShardWrites(self, s', Mutate(value, view, t), cell);
  }

  // ── Snapshots of a shard at work ───────────────────────────────

  ghost predicate IsShardRun<S, V>(self: NodeId, ss: seq<Shard<S, V>>, ops: seq<ShardOp<S, V>>, cells: seq<CellId>) {
    && |ss| == |ops| + 1 == |cells| + 1
    && Valid(ss[0].memory)
    && forall i :: 0 <= i < |ops| ==> Does(self, ss[i], ops[i], cells[i], ss[i + 1])
  }

  ghost predicate Does<S, V>(self: NodeId, s: Shard<S, V>, op: ShardOp<S, V>, cell: CellId, s': Shard<S, V>) {
    && cell !in s.memory.cells
    && Allowed(s.memory, WriteOf(self, s, op, cell))
    && s' == Next(self, s, op, cell)
  }

  function Memories<S, V>(ss: seq<Shard<S, V>>): seq<Memory<V>> {
    seq(|ss|, i requires 0 <= i < |ss| => ss[i].memory)
  }

  function Writes<S, V>(self: NodeId, ss: seq<Shard<S, V>>, ops: seq<ShardOp<S, V>>, cells: seq<CellId>): seq<Write<V>>
    requires |ss| == |ops| + 1 == |cells| + 1
  {
    seq(|ops|, i requires 0 <= i < |ops| => WriteOf(self, ss[i], ops[i], cells[i]))
  }

  lemma ShardRunIsRun<S, V>(self: NodeId, ss: seq<Shard<S, V>>, ops: seq<ShardOp<S, V>>, cells: seq<CellId>)
    requires IsShardRun(self, ss, ops, cells)
    ensures IsRun(Memories(ss), Writes(self, ss, ops, cells))
  {
    var ms, ws := Memories(ss), Writes(self, ss, ops, cells);
    forall i | 0 <= i < |ws| ensures Allowed(ms[i], ws[i]) && ms[i + 1] == Written(ms[i], ws[i]) {
      assert Does(self, ss[i], ops[i], cells[i], ss[i + 1]);
    }
  }

  lemma {:induction false} InStepThroughout<S, V>(
      self: NodeId, ss: seq<Shard<S, V>>, ops: seq<ShardOp<S, V>>, cells: seq<CellId>, start: nat, i: nat)
    requires IsShardRun(self, ss, ops, cells) && start <= i < |ss| && InStep(self, ss[start])
    requires forall k :: start <= k < i ==> !Forged(self, ss[k], ops[k])
    ensures InStep(self, ss[i])
    decreases i
  {
    if start < i {
      InStepThroughout(self, ss, ops, cells, start, i - 1);
      ShardRunIsRun(self, ss, ops, cells);
      ValidThroughout(Memories(ss), Writes(self, ss, ops, cells), i - 1);
      assert Does(self, ss[i - 1], ops[i - 1], cells[i - 1], ss[i]);
      InStepKept(self, ss[i - 1], ops[i - 1], cells[i - 1]);
    }
  }

  /** A snapshot that overlaps any operations of a shard: its keys are those of the moment
      its table was loaded, each view was really held by its node during the read, and no
      peer's view is older than at that moment. Nor is the own view, if it was in step then
      and nothing forged in the node's name arrives during the read. */
  lemma SnapshotIsSound<S, V>(
      self: NodeId, ss: seq<Shard<S, V>>, ops: seq<ShardOp<S, V>>, cells: seq<CellId>,
      start: nat, end: nat, moments: map<NodeId, nat>, result: Views<V>)
    requires IsShardRun(self, ss, ops, cells) && start <= end < |ss|
    requires IsSnapshot(Memories(ss), start, end, moments, result)
    ensures Valid(ss[start].memory) && result.Keys == Model(ss[start].memory).Keys
    ensures forall id :: id in result ==>
              exists i :: start <= i <= end && HeldAt(Memories(ss), i, id, result[id])
    ensures forall id :: id in result && id != self ==>
              Model(ss[start].memory)[id].generation.Le(result[id].generation)
    ensures self in result && InStep(self, ss[start])
            && (forall k :: start <= k < end ==> !Forged(self, ss[k], ops[k])) ==>
              Model(ss[start].memory)[self].generation.Le(result[self].generation)
  {
    var ms, ws := Memories(ss), Writes(self, ss, ops, cells);
    ShardRunIsRun(self, ss, ops, cells);
    SnapshotHoldsRealViews(ms, ws, start, end, moments, result);
    forall id | id in result && id != self ensures Model(ss[start].memory)[id].generation.Le(result[id].generation) {
      PeerWritesNeverOlder(self, ss, ops, cells, start, moments[id], id);
      CellNeverOlder(ms, ws, start, moments[id], id);
    }
    if self in result && InStep(self, ss[start]) && forall k :: start <= k < end ==> !Forged(self, ss[k], ops[k]) {
      OwnWritesNeverOlder(self, ss, ops, cells, start, moments[self]);
      CellNeverOlder(ms, ws, start, moments[self], self);
    }
  }

  lemma PeerWritesNeverOlder<S, V>(
      self: NodeId, ss: seq<Shard<S, V>>, ops: seq<ShardOp<S, V>>, cells: seq<CellId>, start: nat, end: nat, id: NodeId)
    requires IsShardRun(self, ss, ops, cells) && start <= end < |ss| && id != self
    ensures
      var ms, ws := Memories(ss), Writes(self, ss, ops, cells);
      IsRun(ms, ws) && forall i :: start <= i < end && ws[i].Store? && ws[i].id == id ==> NeverOlder(ms[i], ws[i])
  {
    var ms, ws := Memories(ss), Writes(self, ss, ops, cells);
    ShardRunIsRun(self, ss, ops, cells);
    forall i | start <= i < end && ws[i].Store? && ws[i].id == id ensures NeverOlder(ms[i], ws[i]) {
      ValidThroughout(ms, ws, i);
      assert Does(self, ss[i], ops[i], cells[i], ss[i + 1]);
      ShardWrites(self, ss[i], ops[i], cells[i]);
    }
  }

  lemma OwnWritesNeverOlder<S, V>(
      self: NodeId, ss: seq<Shard<S, V>>, ops: seq<ShardOp<S, V>>, cells: seq<CellId>, start: nat, end: nat)
    requires IsShardRun(self, ss, ops, cells) && start <= end < |ss| && InStep(self, ss[start])
    requires forall k :: start <= k < end ==> !Forged(self, ss[k], ops[k])
    ensures
      var ms, ws := Memories(ss), Writes(self, ss, ops, cells);
      IsRun(ms, ws) && forall i :: start <= i < end && ws[i].Store? && ws[i].id == self ==> NeverOlder(ms[i], ws[i])
  {
    var ms, ws := Memories(ss), Writes(self, ss, ops, cells);
    ShardRunIsRun(self, ss, ops, cells);
    forall i | start <= i < end ensures NeverOlder(ms[i], ws[i]) {
      ValidThroughout(ms, ws, i);
      assert Does(self, ss[i], ops[i], cells[i], ss[i + 1]);
      InStepThroughout(self, ss, ops, cells, start, i);
      InStepKept(self, ss[i], ops[i], cells[i]);
    }
  }
}
