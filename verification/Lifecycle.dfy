/** Cluster lifecycle: the set of departed nodes and its coordination with the shard. */
module LifecycleLogics {
  import opened Types
  import opened ShardSpec
  import opened ShardCores

  class LifecycleLogic {
    var departed: set<NodeId>

    constructor ()
      ensures departed == {}
    {
      departed := {};
    }

    /** The peer to send a snapshot to is the one that joined. */
    method OnNodeJoined<S, V>(shard: ShardCore<S, V>, id: NodeId, view: V, t: Time) returns (targets: seq<NodeId>)
      requires shard.Valid() && this !in shard.Repr
      modifies this, shard.Repr
      ensures shard.Valid() && shard.state == old(shard.state) && fresh(shard.Repr - old(shard.Repr))
      ensures departed == old(departed) - {id}
      ensures shard.views.model == Join(old(shard.views.model), shard.nodeId, id, view, t)
      ensures targets == [id]
    {
      departed := departed - {id};
      shard.OnNodeJoined(id, view, t);
      targets := [id];
    }

    method OnNodeLeft<S, V>(shard: ShardCore<S, V>, id: NodeId)
      requires shard.Valid() && this !in shard.Repr
      modifies this, shard.Repr
      ensures shard.Valid() && shard.state == old(shard.state) && fresh(shard.Repr - old(shard.Repr))
      ensures departed == old(departed) + {id}
      ensures shard.views.model == Leave(old(shard.views.model), shard.nodeId, id)
    {
      shard.OnNodeLeft(id);
      departed := departed + {id};
    }

    method ShouldAcceptFrom(id: NodeId) returns (accept: bool)
      ensures accept <==> id !in departed
    {
      accept := id !in departed;
    }
  }
}
