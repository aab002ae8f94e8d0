/** Object IDs: the parser of util/objectid/parser.go and the shard function of
    cluster/sharding/sharding.go, which read the same `shard#<n>/<name>` form independently. */
module ObjectIds {
  import opened Options
  import opened Decimals

  datatype IdType = Regular | FixedShard | FixedNode

  datatype ParsedId = ParsedId(kind: IdType, fullId: string, shard: int, node: string, objectPart: string)

  datatype IdError =
    | EmptyId
    | ShardNumberMissing
    | BadShardNumber
    | EmptyNodeAddress
    | ShardPrefixWithoutSlash
    | ShardOutOfRange

  datatype Result = Accepted(id: ParsedId) | Rejected(error: IdError)

  type Uint32 = x: int | 0 <= x < 0x1_0000_0000

  const SHARD_PREFIX := "shard#"

  /** The position of the first `c` in `s`, or -1. */
  function IndexOf(s: string, c: char): (r: int)
    ensures -1 <= r < |s|
    ensures r == -1 <==> c !in s
    ensures r >= 0 ==> s[r] == c && c !in s[..r]
  {
    if s == "" then -1
    else if s[0] == c then 0
    else
      var r := IndexOf(s[1..], c);
      if r == -1 then -1
      else
        assert s[..r + 1] == [s[0]] + s[1..][..r];
        r + 1
  }

  predicate HasPrefix(s: string, p: string) {
    p <= s
  }

  /** The two forms with a slash. */
  function ParsePrefixed(id: string, prefix: string, rest: string): (r: Result)
    ensures r.Accepted? ==> r.id.kind != Regular
  {
    if HasPrefix(prefix, SHARD_PREFIX) then
      if |prefix| <= |SHARD_PREFIX| then Rejected(ShardNumberMissing)
      else
        match Atoi(prefix[|SHARD_PREFIX|..])
        case None => Rejected(BadShardNumber)
        case Some(n) => Accepted(ParsedId(FixedShard, id, n, "", rest))
    else if prefix == "" then Rejected(EmptyNodeAddress)
    else Accepted(ParsedId(FixedNode, id, 0, prefix, rest))
  }

  function ParseObjectId(id: string): Result {
    var slash := IndexOf(id, '/');
    if id == "" then Rejected(EmptyId)
    else if slash >= 0 then ParsePrefixed(id, id[..slash], id[slash + 1..])
    else if HasPrefix(id, SHARD_PREFIX) then Rejected(ShardPrefixWithoutSlash)
    else Accepted(ParsedId(Regular, id, 0, "", id))
  }

  function ValidateObjectId(id: string, numShards: int): Result {
    var parsed := ParseObjectId(id);
    if parsed.Accepted? && parsed.id.kind == FixedShard && !(0 <= parsed.id.shard < numShards)
    then Rejected(ShardOutOfRange)
    else parsed
  }

  /** The shard of an object ID, for an arbitrary 32-bit hash. */
  function GetShardId(id: string, numShards: int, hash: string -> Uint32): int
    requires numShards != 0
  {
    var hashed := hash(id) % numShards;
    if !HasPrefix(id, SHARD_PREFIX) then hashed
    else
      var slash := IndexOf(id, '/');
      if slash <= 6 then hashed
      else
        match Atoi(id[6..slash])
        case None => hashed
        case Some(n) => if 0 <= n < numShards then n else hashed
  }

  /** The two readers find a shard prefix in the same place. */
  lemma {:induction false} SamePrefix(id: string)
    requires '/' in id
    ensures HasPrefix(id, SHARD_PREFIX) <==> HasPrefix(id[..IndexOf(id, '/')], SHARD_PREFIX)
  {
    assert HasPrefix(id, SHARD_PREFIX) ==>
      forall i :: 0 <= i < 6 ==> id[i] == SHARD_PREFIX[i] && SHARD_PREFIX[i] != '/';
  }

  /** The readers agree on every string: the shard function reads the number of exactly the IDs that the
      validator accepts as fixed-shard, gets the same number, and hashes all others. */
  lemma {:induction false} ReadersAgree(id: string, numShards: int, hash: string -> Uint32)
    requires numShards != 0
    ensures var v := ValidateObjectId(id, numShards);
            GetShardId(id, numShards, hash)
              == if v.Accepted? && v.id.kind == FixedShard then v.id.shard else hash(id) % numShards
  {
    var slash := IndexOf(id, '/');
    if slash >= 0 {
      SamePrefix(id);
      if slash > 6 { assert id[..slash][6..] == id[6..slash]; }
    }
  }

  lemma {:induction false} ShardInRange(id: string, numShards: int, hash: string -> Uint32)
    requires numShards > 0
    ensures 0 <= GetShardId(id, numShards, hash) < numShards
  {
    ReadersAgree(id, numShards, hash);
  }

  /** The per-shard ID that the cluster prints for its auto-loaded objects. */
  function PrintShardId(shard: int, name: string): string {
    SHARD_PREFIX + Itoa(shard) + "/" + name
  }

  lemma {:induction false} FirstSlash(head: string, tail: string)
    requires '/' !in head
    ensures IndexOf(head + "/" + tail, '/') == |head|
  {
    var s := head + "/" + tail;
    var r := IndexOf(s, '/');
    assert s[|head|] == '/';
    assert forall i :: 0 <= i < |head| ==> s[i] == head[i] && head[i] in head;
    assert forall k :: |head| < k <= |s| ==> s[..k][|head|] == '/';
  }

  /** The fixed-shard form is accepted for every readable number and every name. */
  lemma {:induction false} ShardFormAccepted(digits: string, n: int, name: string)
    requires '/' !in digits && Atoi(digits) == Some(n)
    ensures var id := SHARD_PREFIX + digits + "/" + name;
            ParseObjectId(id) == Accepted(ParsedId(FixedShard, id, n, "", name))
  {
    var prefix := SHARD_PREFIX + digits;
    var id := prefix + "/" + name;
    assert '/' !in prefix;
    FirstSlash(prefix, name);
    assert id[..|prefix|] == prefix && id[|prefix| + 1..] == name;
    assert prefix[|SHARD_PREFIX|..] == digits;
  }

  /** Every printed per-shard ID, with any name, is accepted with its shard and name, and both readers
      give the shard back. */
  lemma {:induction false} PrintedIdReadsBack(shard: int, name: string, numShards: int, hash: string -> Uint32)
    requires 0 <= shard < numShards <= INT_MAX
    ensures var id := PrintShardId(shard, name);
            && ValidateObjectId(id, numShards) == Accepted(ParsedId(FixedShard, id, shard, "", name))
            && GetShardId(id, numShards, hash) == shard
  {
    ItoaHasNoSlash(shard);
    AtoiOfItoa(shard);
    ShardFormAccepted(Itoa(shard), shard, name);
    ReadersAgree(PrintShardId(shard, name), numShards, hash);
  }

  lemma {:induction false} SplitAtSlash(id: string)
    requires '/' in id
    ensures var slash := IndexOf(id, '/'); id == id[..slash] + "/" + id[slash + 1..] && '/' !in id[..slash]
  {
  }

  /** An accepted fixed-node ID is its non-empty, slash-free node, a slash and the object part. */
  lemma {:induction false} NodeIdReassembles(id: string)
    requires ParseObjectId(id).Accepted? && ParseObjectId(id).id.kind == FixedNode
    ensures var p := ParseObjectId(id).id;
            id == p.node + "/" + p.objectPart && p.node != "" && '/' !in p.node && !HasPrefix(id, SHARD_PREFIX)
  {
    SplitAtSlash(id);
    SamePrefix(id);
  }

  /** An accepted fixed-shard ID is the prefix, the digits of its shard, a slash and the object part. */
  lemma {:induction false} ShardIdReassembles(id: string) returns (digits: string)
    requires ParseObjectId(id).Accepted? && ParseObjectId(id).id.kind == FixedShard
    ensures var p := ParseObjectId(id).id;
            id == SHARD_PREFIX + digits + "/" + p.objectPart && '/' !in digits && Atoi(digits) == Some(p.shard)
  {
    SplitAtSlash(id);
    var prefix := id[..IndexOf(id, '/')];
    digits := prefix[6..];
    PrefixSplit(prefix);
  }

  lemma {:induction false} PrefixSplit(prefix: string)
    requires HasPrefix(prefix, SHARD_PREFIX)
    ensures prefix == SHARD_PREFIX + prefix[6..] && ('/' !in prefix ==> '/' !in prefix[6..])
  {
  }

  // ----- Which strings are accepted -----

  /** A regular ID: not empty, no slash, no shard prefix. */
  ghost predicate IsRegular(id: string, p: ParsedId) {
    id != "" && '/' !in id && !HasPrefix(id, SHARD_PREFIX) && p == ParsedId(Regular, id, 0, "", id)
  }

  /** A fixed-node ID: a non-empty node without slash or shard prefix, a slash, anything. */
  ghost predicate IsFixedNode(id: string, p: ParsedId) {
    exists node, rest: string :: id == node + "/" + rest && node != "" && '/' !in node
      && !HasPrefix(node, SHARD_PREFIX) && p == ParsedId(FixedNode, id, 0, node, rest)
  }

  /** A fixed-shard ID: the prefix, a number in decimal, a slash, anything. */
  ghost predicate IsFixedShard(id: string, p: ParsedId) {
    exists digits, rest: string, n: int :: id == SHARD_PREFIX + digits + "/" + rest && '/' !in digits
      && Atoi(digits) == Some(n) && p == ParsedId(FixedShard, id, n, "", rest)
  }

  lemma {:induction false} NodeFormAccepted(node: string, rest: string)
    requires node != "" && '/' !in node && !HasPrefix(node, SHARD_PREFIX)
    ensures var id := node + "/" + rest; ParseObjectId(id) == Accepted(ParsedId(FixedNode, id, 0, node, rest))
  {
    var id := node + "/" + rest;
    FirstSlash(node, rest);
    assert id[..|node|] == node && id[|node| + 1..] == rest;
  }

  /** The parser, on every string: it accepts exactly the three forms, each with exactly its parts. */
  lemma {:induction false} AcceptedIff(id: string, p: ParsedId)
    ensures ParseObjectId(id) == Accepted(p) <==> IsRegular(id, p) || IsFixedNode(id, p) || IsFixedShard(id, p)
  {
    if ParseObjectId(id) == Accepted(p) { AcceptedHasForm(id, p); }
    if IsFixedNode(id, p) {
      var node, rest: string :| id == node + "/" + rest && node != "" && '/' !in node
        && !HasPrefix(node, SHARD_PREFIX) && p == ParsedId(FixedNode, id, 0, node, rest);
      NodeFormAccepted(node, rest);
    }
    if IsFixedShard(id, p) {
      var digits, rest: string, n: int :| id == SHARD_PREFIX + digits + "/" + rest && '/' !in digits
        && Atoi(digits) == Some(n) && p == ParsedId(FixedShard, id, n, "", rest);
      ShardFormAccepted(digits, n, rest);
    }
  }

  lemma {:induction false} AcceptedHasForm(id: string, p: ParsedId)
    requires ParseObjectId(id) == Accepted(p)
    ensures IsRegular(id, p) || IsFixedNode(id, p) || IsFixedShard(id, p)
  {
    if p.kind == FixedNode {
      NodeIdReassembles(id);
      PrefixOfNode(id);
      assert id == p.node + "/" + p.objectPart;
    } else if p.kind == FixedShard {
      var digits := ShardIdReassembles(id);
      assert id == SHARD_PREFIX + digits + "/" + p.objectPart;
    }
  }

  lemma {:induction false} PrefixOfNode(id: string)
    requires ParseObjectId(id).Accepted? && ParseObjectId(id).id.kind == FixedNode
    ensures !HasPrefix(ParseObjectId(id).id.node, SHARD_PREFIX)
  {
  }
}
