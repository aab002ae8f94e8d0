/** The etcd value of a shard (parseShardInfo and formatShardInfo of
    cluster/consensusmanager/consensusmanager.go): `target,current,f=flag,f=flag...`. */
module ShardCodec {
  import opened Shards

  // ----- Strings -----

  /** Go's unicode.IsSpace. */
  predicate IsSpace(c: char) {
    || '\t' <= c <= '\r' || c == ' ' || c == '\U{85}' || c == '\U{A0}' || c == '\U{1680}'
    || '\U{2000}' <= c <= '\U{200A}' || c == '\U{2028}' || c == '\U{2029}'
    || c == '\U{202F}' || c == '\U{205F}' || c == '\U{3000}'
  }

  function TrimLeft(s: string): string {
    if s != "" && IsSpace(s[0]) then TrimLeft(s[1..]) else s
  }

  function TrimRight(s: string): string {
    if s != "" && IsSpace(s[|s| - 1]) then TrimRight(s[..|s| - 1]) else s
  }

  /** strings.TrimSpace. */
  function Trim(s: string): string {
    TrimRight(TrimLeft(s))
  }

  predicate Trimmed(s: string) {
    s == "" || (!IsSpace(s[0]) && !IsSpace(s[|s| - 1]))
  }

  predicate CommaFree(s: string) {
    ',' !in s
  }

  /** strings.Split at commas. */
  function Split(s: string): (parts: seq<string>)
    ensures parts != [] && forall i :: 0 <= i < |parts| ==> CommaFree(parts[i])
  {
    if s == "" then [""]
    else
      var rest := Split(s[1..]);
      if s[0] == ',' then [""] + rest else [[s[0]] + rest[0]] + rest[1..]
  }

  lemma {:induction false} TrimLeftFacts(s: string)
    ensures var r := TrimLeft(s); (r != "" ==> !IsSpace(r[0])) && (CommaFree(s) ==> CommaFree(r))
  {
    if s != "" && IsSpace(s[0]) { TrimLeftFacts(s[1..]); }
  }

  lemma {:induction false} TrimRightFacts(s: string)
    ensures var r := TrimRight(s); (r != "" ==> !IsSpace(r[|r| - 1]) && r[0] == s[0]) && (CommaFree(s) ==> CommaFree(r))
    ensures s != "" && !IsSpace(s[0]) ==> TrimRight(s) != ""
  {
    if s != "" && IsSpace(s[|s| - 1]) { TrimRightFacts(s[..|s| - 1]); }
  }

  lemma {:induction false} TrimTrims(s: string)
    ensures Trimmed(Trim(s)) && (CommaFree(s) ==> CommaFree(Trim(s)))
  {
    TrimLeftFacts(s);
    TrimRightFacts(TrimLeft(s));
  }

  lemma {:induction false} TrimmedStays(s: string)
    requires Trimmed(s)
    ensures Trim(s) == s
  {
  }

  /** A string that does not end in space does not vanish. */
  lemma {:induction false} NotAllSpace(s: string)
    requires s != "" && !IsSpace(s[|s| - 1])
    ensures Trim(s) != ""
  {
    if IsSpace(s[0]) {
      NotAllSpace(s[1..]);
      assert TrimLeft(s) == TrimLeft(s[1..]);
    } else {
      TrimRightFacts(s);
    }
  }

  lemma {:induction false} SplitPlain(s: string)
    requires CommaFree(s)
    ensures Split(s) == [s]
  {
    if s != "" {
      SplitPlain(s[1..]);
      assert [s[0]] + s[1..] == s;
    }
  }

  lemma {:induction false} SplitAppend(s: string, p: string)
    requires CommaFree(p)
    ensures Split(s + "," + p) == Split(s) + [p]
  {
    var whole := s + "," + p;
    if s == "" {
      assert whole[1..] == p;
      SplitPlain(p);
    } else {
      assert whole[1..] == s[1..] + "," + p;
      SplitAppend(s[1..], p);
    }
  }

  // ----- Parsing -----

  const FLAG_PREFIX := "f="

  predicate IsFlag(trimmed: string) {
    FLAG_PREFIX <= trimmed
  }

  /** The trimmed parts that are not flags, in order. */
  function NodeParts(parts: seq<string>): seq<string> {
    if parts == [] then []
    else
      var init, last := NodeParts(parts[..|parts| - 1]), Trim(parts[|parts| - 1]);
      if IsFlag(last) then init else init + [last]
  }

  /** The non-empty flag values, in order. */
  function FlagParts(parts: seq<string>): seq<string> {
    if parts == [] then []
    else
      var init, last := FlagParts(parts[..|parts| - 1]), Trim(parts[|parts| - 1]);
      if IsFlag(last) && last != FLAG_PREFIX then init + [last[2..]] else init
  }

  function Nth(parts: seq<string>, i: nat): string {
    if i < |parts| then parts[i] else ""
  }

  /** The first two node parts are target and current node; any further ones are ignored. */
  function Parse(value: string, modRevision: nat): ShardInfo {
    var parts := Split(value);
    ShardInfo(Nth(NodeParts(parts), 0), Nth(NodeParts(parts), 1), FlagParts(parts), modRevision)
  }

  /** parseShardInfo. */
  method ParseShardInfo(value: string, modRevision: nat) returns (info: ShardInfo)
    ensures info == Parse(value, modRevision)
  {
    var parts := Split(value);
    var target, current, flags, nodePartCount := "", "", [], 0;
    var i := 0;
    while i < |parts|
      invariant 0 <= i <= |parts|
      invariant flags == FlagParts(parts[..i])
      invariant nodePartCount == if |NodeParts(parts[..i])| < 2 then |NodeParts(parts[..i])| else 2
      invariant target == Nth(NodeParts(parts[..i]), 0) && current == Nth(NodeParts(parts[..i]), 1)
    {
      assert parts[..i + 1][..i] == parts[..i];
      var trimmed := Trim(parts[i]);
      if IsFlag(trimmed) {
        var flagValue := trimmed[2..];
        if flagValue != "" { flags := flags + [flagValue]; }
      } else if nodePartCount == 0 {
        target := trimmed;
        nodePartCount := nodePartCount + 1;
      } else if nodePartCount == 1 {
        current := trimmed;
        nodePartCount := nodePartCount + 1;
      }
      i := i + 1;
    }
    assert parts[..i] == parts;
    info := ShardInfo(target, current, flags, modRevision);
  }

  // ----- Formatting -----

  function FlagText(flags: seq<string>): string {
    if flags == [] then ""
    else
      var init, last := FlagText(flags[..|flags| - 1]), Trim(flags[|flags| - 1]);
      if last == "" then init else init + ",f=" + last
  }

  function Format(info: ShardInfo): string {
    info.target + "," + info.current + FlagText(info.flags)
  }

  /** formatShardInfo. */
  method FormatShardInfo(info: ShardInfo) returns (result: string)
    ensures result == Format(info)
  {
    result := info.target + "," + info.current;
    var i := 0;
    while i < |info.flags|
      invariant 0 <= i <= |info.flags|
      invariant result == info.target + "," + info.current + FlagText(info.flags[..i])
    {
      assert info.flags[..i + 1][..i] == info.flags[..i];
      var flag := Trim(info.flags[i]);
      if flag != "" { result := result + ",f=" + flag; }
      i := i + 1;
    }
    assert info.flags[..i] == info.flags;
  }

  // ----- Round trips -----

  /** A node name that a value can carry. */
  predicate NodeOk(node: string) {
    Trimmed(node) && CommaFree(node) && !IsFlag(node)
  }

  predicate FlagOk(flag: string) {
    Trimmed(flag) && CommaFree(flag) && flag != ""
  }

  predicate WellFormed(info: ShardInfo) {
    NodeOk(info.target) && NodeOk(info.current) && forall i :: 0 <= i < |info.flags| ==> FlagOk(info.flags[i])
  }

  predicate AllCommaFree(flags: seq<string>) {
    forall i :: 0 <= i < |flags| ==> CommaFree(flags[i])
  }

  /** Trimmed flags without the empty ones. */
  function Clean(flags: seq<string>): seq<string> {
    if flags == [] then []
    else
      var init, last := Clean(flags[..|flags| - 1]), Trim(flags[|flags| - 1]);
      if last == "" then init else init + [last]
  }

  /** The parts a flag list is printed as. */
  function Printed(flags: seq<string>): seq<string> {
    if flags == [] then []
    else
      var init, last := Printed(flags[..|flags| - 1]), Trim(flags[|flags| - 1]);
      if last == "" then init else init + [FLAG_PREFIX + last]
  }

  lemma {:induction false} OneMoreFlag(head: string, text: string, flag: string)
    ensures head + (text + ",f=" + flag) == (head + text) + "," + (FLAG_PREFIX + flag)
  {
  }

  lemma {:induction false} SplitFormatted(head: string, flags: seq<string>)
    requires AllCommaFree(flags)
    ensures Split(head + FlagText(flags)) == Split(head) + Printed(flags)
  {
    if flags == [] {
      assert head + "" == head;
    } else {
      var init, last := flags[..|flags| - 1], Trim(flags[|flags| - 1]);
      SplitFormatted(head, init);
      if last != "" {
        TrimTrims(flags[|flags| - 1]);
        OneMoreFlag(head, FlagText(init), last);
        SplitAppend(head + FlagText(init), FLAG_PREFIX + last);
      }
    }
  }

  /** One more part, read. */
  lemma {:induction false} PartAppended(parts: seq<string>, part: string)
    requires Trimmed(part)
    ensures NodeParts(parts + [part]) == if IsFlag(part) then NodeParts(parts) else NodeParts(parts) + [part]
    ensures FlagParts(parts + [part])
         == if IsFlag(part) && part != FLAG_PREFIX then FlagParts(parts) + [part[2..]] else FlagParts(parts)
  {
    TrimmedStays(part);
    assert (parts + [part])[..|parts|] == parts;
  }

  lemma {:induction false} PrintedFlag(last: string)
    requires Trimmed(last) && last != ""
    ensures var part := FLAG_PREFIX + last; Trimmed(part) && IsFlag(part) && part != FLAG_PREFIX && part[2..] == last
  {
  }

  lemma {:induction false} OneMorePrinted(nodes: seq<string>, printed: seq<string>, last: string)
    requires Trimmed(last) && last != ""
    ensures NodeParts(nodes + (printed + [FLAG_PREFIX + last])) == NodeParts(nodes + printed)
    ensures FlagParts(nodes + (printed + [FLAG_PREFIX + last])) == FlagParts(nodes + printed) + [last]
  {
    PrintedFlag(last);
    assert nodes + (printed + [FLAG_PREFIX + last]) == (nodes + printed) + [FLAG_PREFIX + last];
    PartAppended(nodes + printed, FLAG_PREFIX + last);
  }

  /** Printed flags read back as the clean flags, and add no node part. */
  lemma {:induction false} PrintedReadsBack(nodes: seq<string>, flags: seq<string>)
    ensures NodeParts(nodes + Printed(flags)) == NodeParts(nodes)
    ensures FlagParts(nodes + Printed(flags)) == FlagParts(nodes) + Clean(flags)
  {
    if flags == [] {
      assert nodes + [] == nodes;
    } else {
      var init, last := flags[..|flags| - 1], Trim(flags[|flags| - 1]);
      PrintedReadsBack(nodes, init);
      if last != "" {
        TrimTrims(flags[|flags| - 1]);
        OneMorePrinted(nodes, Printed(init), last);
      }
    }
  }

  lemma {:induction false} TwoNodes(target: string, current: string)
    requires NodeOk(target) && NodeOk(current)
    ensures NodeParts([target, current]) == [target, current] && FlagParts([target, current]) == []
  {
    PartAppended([], target);
    PartAppended([target], current);
    assert [] + [target] == [target] && [target] + [current] == [target, current];
  }

  /** Reading what was written gives the same nodes and the clean flags. */
  lemma {:induction false} ParseOfFormat(info: ShardInfo, modRevision: nat)
    requires NodeOk(info.target) && NodeOk(info.current) && AllCommaFree(info.flags)
    ensures Parse(Format(info), modRevision) == info.(flags := Clean(info.flags), modRevision := modRevision)
  {
    var head, nodes := info.target + "," + info.current, [info.target, info.current];
    SplitAppend(info.target, info.current);
    SplitPlain(info.target);
    assert Split(head) == nodes;
    SplitFormatted(head, info.flags);
    PrintedReadsBack(nodes, info.flags);
    TwoNodes(info.target, info.current);
  }

  lemma {:induction false} CleanIsId(flags: seq<string>)
    ensures Clean(flags) == flags <==> forall i :: 0 <= i < |flags| ==> Trimmed(flags[i]) && flags[i] != ""
    ensures |Clean(flags)| <= |flags|
  {
    if flags != [] {
      var init, last := flags[..|flags| - 1], flags[|flags| - 1];
      CleanIsId(init);
      TrimTrims(last);
      if Trimmed(last) { TrimmedStays(last); }
      assert flags == init + [last];
    }
  }

  /** What every string parses to. */
  predicate Readable(info: ShardInfo) {
    NodeOk(info.target) && NodeOk(info.current)
    && forall i :: 0 <= i < |info.flags| ==> CommaFree(info.flags[i]) && Trim(info.flags[i]) != ""
  }

  lemma {:induction false} PartsAreReadable(parts: seq<string>)
    requires forall i :: 0 <= i < |parts| ==> CommaFree(parts[i])
    ensures forall i :: 0 <= i < |NodeParts(parts)| ==> NodeOk(NodeParts(parts)[i])
    ensures forall i :: 0 <= i < |FlagParts(parts)| ==>
      CommaFree(FlagParts(parts)[i]) && Trim(FlagParts(parts)[i]) != ""
  {
    if parts != [] {
      PartsAreReadable(parts[..|parts| - 1]);
      var last := Trim(parts[|parts| - 1]);
      TrimTrims(parts[|parts| - 1]);
      if IsFlag(last) && last != FLAG_PREFIX { NotAllSpace(last[2..]); }
    }
  }

  lemma {:induction false} ParseIsReadable(value: string, modRevision: nat)
    ensures Readable(Parse(value, modRevision))
  {
    PartsAreReadable(Split(value));
  }

  /** Reading back what was written gives the value itself exactly for the well-formed ones. */
  lemma {:induction false} RoundTripIffWellFormed(info: ShardInfo)
    ensures Parse(Format(info), info.modRevision) == info <==> WellFormed(info)
  {
    ParseIsReadable(Format(info), info.modRevision);
    CleanIsId(info.flags);
    if WellFormed(info) || Parse(Format(info), info.modRevision) == info {
      ParseOfFormat(info, info.modRevision);
    }
  }

  lemma {:induction false} CleanPrintsTheSame(flags: seq<string>)
    ensures FlagText(Clean(flags)) == FlagText(flags)
  {
    if flags != [] {
      var init, last := flags[..|flags| - 1], Trim(flags[|flags| - 1]);
      CleanPrintsTheSame(init);
      TrimTrims(flags[|flags| - 1]);
      if last != "" {
        TrimmedStays(last);
        assert (Clean(init) + [last])[..|Clean(init)|] == Clean(init);
      }
    }
  }

  /** Whatever string was stored, parsing and formatting it settles it: doing so again changes nothing. */
  lemma {:induction false} FormatOfParseIsIdempotent(value: string, modRevision: nat, modRevision': nat)
    ensures var once := Format(Parse(value, modRevision)); Format(Parse(once, modRevision')) == once
  {
    var info := Parse(value, modRevision);
    ParseIsReadable(value, modRevision);
    ParseOfFormat(info, modRevision');
    CleanPrintsTheSame(info.flags);
  }

  // ----- What parsing reads, on every string -----

  /** Trimming takes spaces off both ends, and all of them. */
  lemma {:induction false} TrimExactly(s: string) returns (front: string, back: string)
    ensures s == front + Trim(s) + back && Trimmed(Trim(s))
    ensures forall i :: 0 <= i < |front| ==> IsSpace(front[i])
    ensures forall i :: 0 <= i < |back| ==> IsSpace(back[i])
  {
    front := LeftOff(s);
    back := RightOff(TrimLeft(s));
    TrimTrims(s);
  }

  lemma {:induction false} LeftOff(s: string) returns (front: string)
    ensures s == front + TrimLeft(s) && forall i :: 0 <= i < |front| ==> IsSpace(front[i])
  {
    front := "";
    if s != "" && IsSpace(s[0]) {
      front := LeftOff(s[1..]);
      front := [s[0]] + front;
    }
  }

  lemma {:induction false} RightOff(s: string) returns (back: string)
    ensures s == TrimRight(s) + back && forall i :: 0 <= i < |back| ==> IsSpace(back[i])
  {
    back := "";
    if s != "" && IsSpace(s[|s| - 1]) {
      back := RightOff(s[..|s| - 1]);
      back := back + [s[|s| - 1]];
    }
  }

  /** The parts with commas in between. */
  function Join(parts: seq<string>): string
    requires parts != []
  {
    if |parts| == 1 then parts[0] else parts[0] + "," + Join(parts[1..])
  }

  /** Splitting cuts at the commas and nowhere else: its parts have none, and put together they are the text. */
  lemma {:induction false} SplitJoins(s: string)
    ensures Join(Split(s)) == s
  {
    if s != "" {
      SplitJoins(s[1..]);
      var rest := Split(s[1..]);
      if s[0] == ',' {
        assert ([""] + rest)[1..] == rest;
      } else {
        assert ([[s[0]] + rest[0]] + rest[1..])[1..] == rest[1..];
      }
    }
  }

  /** Part `i` is the first from `from` on that is not a flag. */
  ghost predicate FirstNode(parts: seq<string>, from: nat, i: nat) {
    from <= i < |parts| && !IsFlag(Trim(parts[i])) && forall j :: from <= j < i ==> IsFlag(Trim(parts[j]))
  }

  ghost predicate NoNode(parts: seq<string>, from: nat) {
    forall j :: from <= j < |parts| ==> IsFlag(Trim(parts[j]))
  }

  lemma {:induction false} NodesGrow(parts: seq<string>, k: nat)
    requires k <= |parts|
    ensures NodeParts(parts[..k]) <= NodeParts(parts)
  {
    if k == |parts| {
      assert parts[..k] == parts;
    } else {
      NodesGrow(parts[..|parts| - 1], k);
      assert parts[..|parts| - 1][..k] == parts[..k];
    }
  }

  lemma {:induction false} FlagsAddNoNode(parts: seq<string>, k: nat, m: nat)
    requires k <= m <= |parts| && forall j :: k <= j < m ==> IsFlag(Trim(parts[j]))
    ensures NodeParts(parts[..m]) == NodeParts(parts[..k])
  {
    if k < m {
      FlagsAddNoNode(parts, k, m - 1);
      assert parts[..m][..m - 1] == parts[..m - 1];
    }
  }

  lemma NodeAdds(parts: seq<string>, from: nat, i: nat)
    requires FirstNode(parts, from, i)
    ensures NodeParts(parts[..i + 1]) == NodeParts(parts[..from]) + [Trim(parts[i])]
  {
    FlagsAddNoNode(parts, from, i);
    assert parts[..i + 1][..i] == parts[..i];
  }

  lemma FirstIsTarget(parts: seq<string>, i: nat)
    requires FirstNode(parts, 0, i)
    ensures NodeParts(parts) != [] && NodeParts(parts)[0] == Trim(parts[i])
    ensures NodeParts(parts[..i + 1]) == [Trim(parts[i])]
  {
    assert parts[..0] == [];
    NodeAdds(parts, 0, i);
    NodesGrow(parts, i + 1);
  }

  lemma SecondIsCurrent(parts: seq<string>, i: nat, j: nat)
    requires FirstNode(parts, 0, i) && FirstNode(parts, i + 1, j)
    ensures |NodeParts(parts)| >= 2 && NodeParts(parts)[1] == Trim(parts[j])
  {
    FirstIsTarget(parts, i);
    NodeAdds(parts, i + 1, j);
    NodesGrow(parts, j + 1);
  }

  lemma NoneIsCurrent(parts: seq<string>, i: nat)
    requires FirstNode(parts, 0, i) && NoNode(parts, i + 1)
    ensures |NodeParts(parts)| == 1
  {
    FirstIsTarget(parts, i);
    FlagsAddNoNode(parts, i + 1, |parts|);
    assert parts[..|parts|] == parts;
  }

  lemma NoneAtAll(parts: seq<string>)
    requires NoNode(parts, 0)
    ensures NodeParts(parts) == []
  {
    FlagsAddNoNode(parts, 0, |parts|);
    assert parts[..|parts|] == parts && parts[..0] == [];
  }

  /** On every string the target is the first trimmed part that is not a flag and the current node the second,
      or empty where there is none; later ones are ignored. */
  lemma ParseReadsNodes(value: string, modRevision: nat, i: nat, j: nat)
    ensures var parts, info := Split(value), Parse(value, modRevision);
            && (NoNode(parts, 0) ==> info.target == "" && info.current == "")
            && (FirstNode(parts, 0, i) ==> info.target == Trim(parts[i]))
            && (FirstNode(parts, 0, i) && NoNode(parts, i + 1) ==> info.current == "")
            && (FirstNode(parts, 0, i) && FirstNode(parts, i + 1, j) ==> info.current == Trim(parts[j]))
  {
    var parts := Split(value);
    if NoNode(parts, 0) { NoneAtAll(parts); }
    if FirstNode(parts, 0, i) {
      FirstIsTarget(parts, i);
      if NoNode(parts, i + 1) { NoneIsCurrent(parts, i); }
      if FirstNode(parts, i + 1, j) { SecondIsCurrent(parts, i, j); }
    }
  }

  /** Some part, trimmed, is `f=` and the flag. */
  ghost predicate Spells(parts: seq<string>, f: string) {
    exists i :: 0 <= i < |parts| && Trim(parts[i]) == "f=" + f
  }

  lemma {:induction false} FlagsAre(parts: seq<string>, f: string)
    ensures f in FlagParts(parts) <==> f != "" && Spells(parts, f)
  {
    if parts != [] {
      var k := |parts| - 1;
      FlagsAre(parts[..k], f);
      assert parts == parts[..k] + [parts[k]];
      SpellsMore(parts[..k], parts[k], f);
      FlagOf(Trim(parts[k]), f);
    }
  }

  lemma SpellsMore(parts: seq<string>, part: string, f: string)
    ensures Spells(parts + [part], f) <==> Spells(parts, f) || Trim(part) == "f=" + f
  {
    if i :| 0 <= i < |parts| && Trim(parts[i]) == "f=" + f { assert (parts + [part])[i] == parts[i]; }
    if Trim(part) == "f=" + f { assert (parts + [part])[|parts|] == part; }
  }

  lemma FlagOf(trimmed: string, f: string)
    ensures trimmed == "f=" + f <==> IsFlag(trimmed) && trimmed[2..] == f
  {
  }

  /** And the flags are exactly the non-empty ones that some part spells. */
  lemma ParseReadsFlags(value: string, modRevision: nat, f: string)
    ensures f in Parse(value, modRevision).flags <==> f != "" && Spells(Split(value), f)
  {
    FlagsAre(Split(value), f);
  }
}
