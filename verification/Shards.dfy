/** The entities of the shard map shared by the ownership protocol and the leader's planners
    (cluster/consensusmanager/consensusmanager.go). */
module Shards {
  /** Where a shard should be, where it is, its flags, and the etcd revision this was written at
      (0 for a key that does not exist). The empty string stands for no node. */
  datatype ShardInfo = ShardInfo(target: string, current: string, flags: seq<string>, modRevision: nat)

  type ShardMap = map<int, ShardInfo>

  const UNASSIGNED := ShardInfo("", "", [], 0)

  const PINNED := "pinned"

  predicate HasFlag(info: ShardInfo, flag: string) {
    flag in info.flags
  }

  predicate Pinned(info: ShardInfo) {
    HasFlag(info, PINNED)
  }

  /** The shard is targeted at `n` and held by nobody, or by a node that is not live. */
  predicate Claimable(n: string, info: ShardInfo, holderLive: bool) {
    info.target == n && (info.current == "" || !holderLive)
  }

  /** The shard is held by `n` and targeted at another node. */
  predicate Leaving(n: string, info: ShardInfo) {
    info.current == n && info.target != "" && info.target != n
  }

  /** Reading a missing key of the mapping yields the zero value. */
  function Lookup(shards: ShardMap, s: int): ShardInfo {
    if s in shards then shards[s] else UNASSIGNED
  }
}
