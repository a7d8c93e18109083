/** The two-level view map: a table of cells, where an update of a present node stores into
    its cell and a join or leave replaces the table by a copy that shares the other cells.
    Every operation acts on `model` as it would on a plain map. */
module ViewMaps {
  import opened Types
  import opened ShardSpec

  class Cell<V> {
    var view: ViewObject<V>

    constructor (view: ViewObject<V>)
      ensures this.view == view
    {
      this.view := view;
    }
  }

  class ViewMap<V> {
    ghost var model: Views<V>  // the plain map that the table and its cells stand for
    ghost var Repr: set<object>

    var outer: map<NodeId, Cell<V>>

    /** Every node has a cell of its own that holds its view. */
    ghost predicate Valid()
      reads this, Repr
      ensures Valid() ==> this in Repr
    {
      && this in Repr
      && (forall id :: id in outer ==> outer[id] in Repr)
      && (forall a, b :: a in outer && b in outer && a != b ==> outer[a] != outer[b])
      && outer.Keys == model.Keys
      && forall id :: id in outer ==> outer[id].view == model[id]
    }

    constructor (id: NodeId, view: ViewObject<V>)
      ensures Valid() && model == map[id := view] && fresh(Repr)
    {
      var cell := new Cell(view);
      outer := map[id := cell];
      model := map[id := view];
      Repr := {this, cell};
    }

    method Get(id: NodeId) returns (r: Option<ViewObject<V>>)
      requires Valid()
      ensures r == Lookup(model, id)
    {
      if id in outer {
        r := Some(outer[id].view);
      } else {
        r := None;
      }
    }

    method Update(id: NodeId, view: ViewObject<V>) returns (present: bool)
      requires Valid()
      modifies Repr
      ensures Valid() && Repr == old(Repr) && outer == old(outer)
      ensures present <==> id in old(model)
      ensures model == if present then old(model)[id := view] else old(model)
    {
      present := id in outer;
      if present {
        outer[id].view := view;
        model := model[id := view];
      }
    }

    method InsertNode(id: NodeId, view: ViewObject<V>) returns (absent: bool)
      requires Valid()
      modifies Repr
      ensures Valid() && fresh(Repr - old(Repr))
      ensures absent <==> id !in old(model)
      ensures model == if absent then old(model)[id := view] else old(model)
    {
      absent := id !in outer;
      if absent {
        var cell := new Cell(view);
        outer := outer[id := cell];
        model := model[id := view];
        Repr := Repr + {cell};
      }
    }

    method Upsert(id: NodeId, view: ViewObject<V>)
      requires Valid()
      modifies Repr
      ensures Valid() && fresh(Repr - old(Repr))
      ensures model == old(model)[id := view]
    {
      if id in outer {
        outer[id].view := view;
        model := model[id := view];
      } else {
        var cell := new Cell(view);
        outer := outer[id := cell];
        model := model[id := view];
        Repr := Repr + {cell};
      }
    }

    method RemoveNode(id: NodeId) returns (present: bool)
      requires Valid()
      modifies Repr
      ensures Valid() && Repr == old(Repr)
      ensures present <==> id in old(model)
      ensures model == old(model) - {id}
    {
      present := id in outer;
      if present {
        outer := outer - {id};
        model := model - {id};
      }
    }

    /** Replace a view by what a closure makes of it, or leave the map untouched when the
        closure refuses. An absent node is inserted if the closure returns a view. */
    method UpdateIf(id: NodeId, f: Option<ViewObject<V>> -> Option<ViewObject<V>>) returns (changed: bool)
      requires Valid()
      modifies Repr
      ensures Valid() && fresh(Repr - old(Repr))
      ensures changed <==> f(Lookup(old(model), id)).Some?
      ensures model == if changed then old(model)[id := f(Lookup(old(model), id)).value] else old(model)
    {
      if id in outer {
        var next := f(Some(outer[id].view));
        changed := next.Some?;
        if changed {
          outer[id].view := next.value;
          model := model[id := next.value];
        }
      } else {
        var next := f(None);
        changed := next.Some?;
        if changed {
          var cell := new Cell(next.value);
          outer := outer[id := cell];
          model := model[id := next.value];
          Repr := Repr + {cell};
        }
      }
    }

    method Contains(id: NodeId) returns (present: bool)
      requires Valid()
      ensures present <==> id in model
    {
      present := id in outer;
    }

    method Snapshot() returns (views: Views<V>)
      requires Valid()
      ensures views == model
    {
      views := map id | id in outer :: outer[id].view;
    }

    /** The peers whose views are stale, each once, in the order the table yields them. */
    method StaleList(local: NodeId, maxStaleness: nat, now: nat) returns (stale: seq<NodeId>)
      requires Valid()
      ensures forall p :: p in stale <==>
                p in model && p != local && (model[p].pending.Some? || now > model[p].syncedAt + maxStaleness)
      ensures forall i, j :: 0 <= i < j < |stale| ==> stale[i] != stale[j]
    {
      var views := Snapshot();
      stale := StaleOf(views, local, maxStaleness, now);
    }
  }

  method StaleOf<V>(views: Views<V>, local: NodeId, maxStaleness: nat, now: nat) returns (stale: seq<NodeId>)
    ensures forall p :: p in stale <==>
              p in views && p != local && (views[p].pending.Some? || now > views[p].syncedAt + maxStaleness)
    ensures forall i, j :: 0 <= i < j < |stale| ==> stale[i] != stale[j]
  {
    stale := [];
    var left := views.Keys;
    while left != {}
      invariant left <= views.Keys
      invariant forall p :: p in stale <==>
                  p in views && p !in left && p != local
                  && (views[p].pending.Some? || now > views[p].syncedAt + maxStaleness)
      invariant forall i, j :: 0 <= i < j < |stale| ==> stale[i] != stale[j]
      decreases left
    {
      var id :| id in left;
      left := left - {id};
      if id != local && IsStale(views[id], now, maxStaleness) {
        stale := stale + [id];
      }
    }
  }
}
