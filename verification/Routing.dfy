/** Routing an object ID to a node (GetCurrentNodeForObject of cluster/consensusmanager/consensusmanager.go). */
module Routing {
  import opened Shards
  import opened ObjectIds
  import opened Ticks
  import opened Convergence

  datatype RouteError = InvalidId(error: IdError) | NotAssigned | NotClaimed | HolderNotActive | Migrating

  datatype Route = To(node: string) | NoRoute(error: RouteError)

  function GetCurrentNodeForObject(id: string, numShards: int, hash: string -> Uint32, nodes: seq<string>,
                                   shards: ShardMap): Route
    requires numShards > 0
  {
    match ValidateObjectId(id, numShards)
    case Rejected(e) => NoRoute(InvalidId(e))
    case Accepted(parsed) =>
      if parsed.kind == FixedNode then To(parsed.node)
      else
        var s := GetShardId(id, numShards, hash);
        if s !in shards then NoRoute(NotAssigned)
        else if shards[s].current == "" then NoRoute(NotClaimed)
        else if shards[s].current !in nodes then NoRoute(HolderNotActive)
        else if shards[s].target != "" && shards[s].target != shards[s].current then NoRoute(Migrating)
        else To(shards[s].current)
  }

  /** A shard-routed ID: valid, and not addressed to a node. */
  predicate ShardRouted(id: string, numShards: int) {
    ValidateObjectId(id, numShards).Accepted? && ValidateObjectId(id, numShards).id.kind != FixedNode
  }

  /** Routing, on every ID and every map: a node-addressed ID goes to its node; any other valid ID goes to the
      holder of its shard if and only if that holder is live and the shard is not on its way elsewhere; no
      other ID goes anywhere. */
  lemma RoutesIff(id: string, numShards: int, hash: string -> Uint32, nodes: seq<string>, shards: ShardMap, n: string)
    requires numShards > 0
    ensures GetCurrentNodeForObject(id, numShards, hash, nodes, shards) == To(n)
       <==> var v, s := ValidateObjectId(id, numShards), GetShardId(id, numShards, hash);
            && v.Accepted?
            && if v.id.kind == FixedNode then n == v.id.node
               else && s in shards && n != "" && shards[s].current == n && n in nodes
                    && (shards[s].target == "" || shards[s].target == n)
  {
  }

  /** Once the run has settled, every shard-routed ID reaches the live target of its shard. */
  lemma ConvergedRoutes(cfg: Config, states: seq<ShardMap>, turns: seq<Turn>, i: nat, m: nat, k: nat, k': nat,
                        id: string, hash: string -> Uint32)
    requires Sane(cfg) && IsRun(cfg, states, turns) && PinsLive(cfg, states[0]) && cfg.numShards > 0
    requires i <= m <= k <= k' <= |turns| && EnoughLeaderTurns(cfg, turns[..i])
    requires Round(cfg, turns, i, m) && Round(cfg, turns, m, k)
    requires ShardRouted(id, cfg.numShards)
    ensures var route := GetCurrentNodeForObject(id, cfg.numShards, hash, cfg.nodes, states[k']);
            && route.To? && route.node in cfg.nodes
            && route.node == Lookup(states[k'], GetShardId(id, cfg.numShards, hash)).target
  {
    Converges(cfg, states, turns, i, m, k, k');
    ShardInRange(id, cfg.numShards, hash);
  }
}
