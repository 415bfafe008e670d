/** Root-level keys and orphaned tables of src/config/generator.ts, and the top lines setup writes. */
module ConfigRoot {
  import opened Text
  import opened ConfigLines
  import opened ConfigSections
  import opened ConfigTui
  import opened ConfigMarkers

  // ----- root keys -----

  const TopComment := "# oh-my-copilot top-level settings " + "(must be before any [table])"

  predicate IsTopComment(l: Line) { Trim(l) == TopComment }

  predicate SetsOneOf(l: Line, keys: set<string>) { KindOf(l).Setting? && KindOf(l).key in keys }

  predicate HasOpener(lines: seq<Line>) { exists l :: l in lines && Opens(l) }

  function DropTopComment(lines: seq<Line>): seq<Line> {
    if lines == [] then []
    else (if IsTopComment(lines[0]) then [] else [lines[0]]) + DropTopComment(lines[1..])
  }

  /** The keys leave the lines before the first table. */
  function DropRootKeys(lines: seq<Line>, keys: set<string>): seq<Line> {
    if lines == [] || Opens(lines[0]) then lines
    else (if SetsOneOf(lines[0], keys) then [] else [lines[0]]) + DropRootKeys(lines[1..], keys)
  }

  /** stripRootLevelKeys. */
  function StripRootKeys(lines: seq<Line>, keys: set<string>, dropComment: bool): seq<Line> {
    DropRootKeys(if dropComment then DropTopComment(lines) else lines, keys)
  }

  /** No line before the first table sets one of the keys. */
  predicate RootFree(lines: seq<Line>, keys: set<string>) {
    lines == [] || Opens(lines[0]) || (!SetsOneOf(lines[0], keys) && RootFree(lines[1..], keys))
  }

  lemma {:induction false} RootFreeConcat(a: seq<Line>, b: seq<Line>, keys: set<string>)
    ensures RootFree(a + b, keys) <==> RootFree(a, keys) && (HasOpener(a) || RootFree(b, keys))
  {
    hide KindOf;
    if a == [] {
      assert a + b == b;
    } else {
      assert (a + b)[1..] == a[1..] + b;
      assert a == [a[0]] + a[1..];
      RootFreeConcat(a[1..], b, keys);
    }
  }

  lemma {:induction false} DropRootKeysConcat(a: seq<Line>, b: seq<Line>, keys: set<string>)
    ensures DropRootKeys(a + b, keys) == DropRootKeys(a, keys) + (if HasOpener(a) then b else DropRootKeys(b, keys))
  {
    hide KindOf, SetsOneOf, Opens;
    if a == [] {
      assert a + b == b;
    } else {
      assert (a + b)[1..] == a[1..] + b && (a + b)[0] == a[0];
      assert a == [a[0]] + a[1..];
      assert a[0] in a;
      if !Opens(a[0]) {
        DropRootKeysConcat(a[1..], b, keys);
        DropRootKeysStep(a + b, keys);
        DropRootKeysStep(a, keys);
        hide DropRootKeys;
        assert HasOpener(a) == HasOpener(a[1..]);
      }
    }
  }

  lemma DropRootKeysStep(lines: seq<Line>, keys: set<string>)
    requires lines != [] && !Opens(lines[0])
    ensures SetsOneOf(lines[0], keys) ==> DropRootKeys(lines, keys) == DropRootKeys(lines[1..], keys)
    ensures !SetsOneOf(lines[0], keys) ==> DropRootKeys(lines, keys) == [lines[0]] + DropRootKeys(lines[1..], keys)
    ensures lines == [lines[0]] + lines[1..]
  {
    hide KindOf, SetsOneOf;
  }

  lemma {:induction false} DropRootKeysFrees(lines: seq<Line>, keys: set<string>)
    ensures RootFree(DropRootKeys(lines, keys), keys)
    ensures RootFree(lines, keys) ==> DropRootKeys(lines, keys) == lines
  {
    hide KindOf, SetsOneOf;
    if lines != [] && !Opens(lines[0]) {
      DropRootKeysFrees(lines[1..], keys);
      DropRootKeysStep(lines, keys);
      RootFreeConcat([lines[0]], DropRootKeys(lines[1..], keys), keys);
    }
  }

  /** Keys that were not there before are not there after other keys have gone. */
  lemma {:induction false} DropRootKeysStaysFree(lines: seq<Line>, keys: set<string>, other: set<string>)
    requires RootFree(lines, other)
    ensures RootFree(DropRootKeys(lines, keys), other)
  {
    hide KindOf, SetsOneOf;
    if lines != [] && !Opens(lines[0]) {
      DropRootKeysStaysFree(lines[1..], keys, other);
      DropRootKeysStep(lines, keys);
      RootFreeConcat([lines[0]], DropRootKeys(lines[1..], keys), other);
    }
  }

  lemma {:induction false} DropTopCommentLines(lines: seq<Line>, l: Line)
    ensures l in DropTopComment(lines) <==> l in lines && !IsTopComment(l)
  {
    hide IsTopComment;
    if lines != [] {
      assert lines == [lines[0]] + lines[1..];
      DropTopCommentLines(lines[1..], l);
    }
  }

  lemma {:induction false} DropTopCommentNone(lines: seq<Line>)
    requires forall l :: l in lines ==> !IsTopComment(l)
    ensures DropTopComment(lines) == lines
  {
    hide IsTopComment;
    if lines != [] {
      assert lines == [lines[0]] + lines[1..];
      assert lines[0] in lines;
      DropTopCommentNone(lines[1..]);
    }
  }

  lemma {:induction false} DropRootKeysLines(lines: seq<Line>, keys: set<string>, l: Line)
    ensures l in DropRootKeys(lines, keys) ==> l in lines
  {
    hide KindOf, SetsOneOf;
    if lines != [] && !Opens(lines[0]) {
      assert lines == [lines[0]] + lines[1..];
      DropRootKeysLines(lines[1..], keys, l);
    }
  }

  lemma StripRootKeysKeeps(p: Line -> bool, lines: seq<Line>, keys: set<string>, dropComment: bool)
    requires All(p, lines)
    ensures All(p, StripRootKeys(lines, keys, dropComment))
    ensures dropComment ==> forall l :: l in StripRootKeys(lines, keys, dropComment) ==> !IsTopComment(l)
  {
    hide KindOf, IsTopComment;
    var kept := if dropComment then DropTopComment(lines) else lines;
    forall l | l in DropRootKeys(kept, keys) ensures p(l) && (dropComment ==> !IsTopComment(l)) {
      DropRootKeysLines(kept, keys, l);
      DropTopCommentLines(lines, l);
    }
  }

  method FilterTopComment(config: seq<Line>) returns (lines: seq<Line>)
    ensures lines == DropTopComment(config)
  {
    hide IsTopComment;
    lines := [];
    assert config[0..] == config;
    for i := 0 to |config|
      invariant lines + DropTopComment(config[i..]) == DropTopComment(config)
    {
      assert config[i..][1..] == config[i + 1..];
      if !IsTopComment(config[i]) { lines := lines + [config[i]]; }
    }
  }

  method FirstTable(lines: seq<Line>) returns (boundary: nat)
    ensures boundary <= |lines| && (boundary < |lines| ==> Opens(lines[boundary]))
    ensures forall k :: 0 <= k < boundary ==> !Opens(lines[k])
  {
    boundary := 0;
    while boundary < |lines| && !Opens(lines[boundary])
      invariant boundary <= |lines|
      invariant forall k :: 0 <= k < boundary ==> !Opens(lines[k])
    {
      boundary := boundary + 1;
    }
  }

  /** What the second loop still has to emit at line `i`. */
  function Remaining(lines: seq<Line>, keys: set<string>, boundary: nat, i: nat): seq<Line>
    requires i <= |lines|
  {
    if i <= boundary then DropRootKeys(lines[i..], keys) else lines[i..]
  }

  lemma RemainingStep(lines: seq<Line>, keys: set<string>, boundary: nat, i: nat)
    requires i < |lines| && boundary <= |lines|
    requires boundary < |lines| ==> Opens(lines[boundary])
    requires forall k :: 0 <= k < boundary ==> !Opens(lines[k])
    ensures Remaining(lines, keys, boundary, i)
         == (if i < boundary && SetsOneOf(lines[i], keys) then [] else [lines[i]]) + Remaining(lines, keys, boundary, i + 1)
  {
    hide KindOf, SetsOneOf, Opens;
    assert lines[i..] == [lines[i]] + lines[i + 1..] && lines[i..][1..] == lines[i + 1..];
  }

  /** stripRootLevelKeys on the line array: filter, find the boundary, filter up to it. */
  method StripRootLevelKeys(config: seq<Line>, keys: set<string>, dropComment: bool) returns (result: seq<Line>)
    ensures result == StripRootKeys(config, keys, dropComment)
  {
    hide KindOf, IsTopComment, SetsOneOf, Opens, Remaining;
    var lines := config;
    if dropComment { lines := FilterTopComment(config); }
    var boundary := FirstTable(lines);
    result := [];
    RemainingEnds(lines, keys, boundary);
    for i := 0 to |lines|
      invariant result + Remaining(lines, keys, boundary, i) == DropRootKeys(lines, keys)
    {
      RemainingStep(lines, keys, boundary, i);
      if i < boundary && SetsOneOf(lines[i], keys) { continue; }
      result := result + [lines[i]];
    }
  }

  lemma RemainingEnds(lines: seq<Line>, keys: set<string>, boundary: nat)
    ensures Remaining(lines, keys, boundary, 0) == DropRootKeys(lines, keys)
    ensures Remaining(lines, keys, boundary, |lines|) == []
  {
    assert lines[0..] == lines;
  }

  // ----- notify lines that lost their place -----

  const NotifyKey := "notify"

  /** What both orphaned-notify expressions end their match of the script's path with. */
  const HookText := "notify-hook.js\""

  /** `/^\s*notify\s*=\s*\["node",\s*".*notify-hook\.js"\]\s*$/` on one line: the value is a list of
      "node" and a path that ends in the script's name. */
  predicate IsNotifyLine(l: Line) {
    Sets(l, NotifyKey) && IsHookList(TrimStart(TrimStart(Trim(l)[|NotifyKey|..])[1..]))
  }

  const NodeOpen := "[\"node\","

  predicate IsHookList(list: string) {
    NodeOpen <= list
    && (var rest := TrimStart(list[|NodeOpen|..]);
        && |rest| >= 1 + |HookText| + 1 && rest[0] == '"' && rest[|rest| - |HookText| - 1..] == HookText + "]"
        && forall c :: c in rest ==> c != '\r' && c != '\U{2028}' && c != '\U{2029}')
  }

  function PopBlanks(lines: seq<Line>): seq<Line> {
    if lines != [] && IsBlank(lines[|lines| - 1]) then PopBlanks(lines[..|lines| - 1]) else lines
  }

  function SkipBlanks(lines: seq<Line>): (r: seq<Line>)
    ensures |r| <= |lines|
  {
    if lines != [] && IsBlank(lines[0]) then SkipBlanks(lines[1..]) else lines
  }

  /** The first expression of stripOrphanedManagedNotify where it matches single lines: each notify line
      goes with the blank lines around it; at the end of the file an empty line stays. `result` is what
      was passed already. */
  function DropNotify(result: seq<Line>, lines: seq<Line>): seq<Line>
    decreases |lines|
  {
    if lines == [] then result
    else if IsNotifyLine(lines[0]) then
      var rest := SkipBlanks(lines[1..]);
      if rest == [] then PopBlanks(result) + [""] else DropNotify(PopBlanks(result), rest)
    else DropNotify(result + [lines[0]], lines[1..])
  }

  /** The only lines that hold the script's path are whole notify lines. */
  predicate NotifyInLines(lines: seq<Line>) {
    forall l :: l in lines && Contains(l, HookText) ==> IsNotifyLine(l)
  }

  lemma {:induction false} PopBlanksIs(lines: seq<Line>)
    ensures PopBlanks(lines) <= lines && AllBlank(lines[|PopBlanks(lines)|..])
  {
    hide KindOf;
    if lines != [] && IsBlank(lines[|lines| - 1]) {
      var n := |lines| - 1;
      PopBlanksIs(lines[..n]);
      var k := |PopBlanks(lines)|;
      assert lines[k..] == lines[..n][k..] + [lines[n]];
    }
  }

  lemma {:induction false} SkipBlanksIs(lines: seq<Line>)
    ensures var k := |lines| - |SkipBlanks(lines)|;
            SkipBlanks(lines) == lines[k..] && AllBlank(lines[..k])
  {
    hide KindOf;
    if lines != [] && IsBlank(lines[0]) {
      SkipBlanksIs(lines[1..]);
      var k := |lines| - |SkipBlanks(lines)|;
      assert lines[..k] == [lines[0]] + lines[1..][..k - 1];
    }
  }

  lemma {:induction false} DropNotifyKeeps(p: Line -> bool, result: seq<Line>, lines: seq<Line>)
    requires All(p, result) && All(p, lines) && p("")
    requires forall l :: l in result ==> !IsNotifyLine(l)
    ensures All(p, DropNotify(result, lines))
    ensures forall l :: l in DropNotify(result, lines) ==> !IsNotifyLine(l)
    decreases |lines|
  {
    hide KindOf, IsNotifyLine;
    if lines != [] {
      assert lines == [lines[0]] + lines[1..];
      assert lines[0] in lines;
      if IsNotifyLine(lines[0]) {
        PopBlanksIs(result);
        SkipBlanksIs(lines[1..]);
        EmptyIsNoNotify();
        DropNotifyKeeps(p, PopBlanks(result), SkipBlanks(lines[1..]));
      } else {
        DropNotifyKeeps(p, result + [lines[0]], lines[1..]);
      }
    }
  }

  lemma EmptyIsNoNotify()
    ensures !IsNotifyLine("")
  {
    EmptyKind();
  }

  lemma {:induction false} DropNotifyNone(result: seq<Line>, lines: seq<Line>)
    requires forall l :: l in lines ==> !IsNotifyLine(l)
    ensures DropNotify(result, lines) == result + lines
    decreases |lines|
  {
    hide KindOf, IsNotifyLine;
    if lines == [] {
      assert result + lines == result;
    } else {
      assert lines == [lines[0]] + lines[1..];
      assert lines[0] in lines;
      DropNotifyNone(result + [lines[0]], lines[1..]);
      assert (result + [lines[0]]) + lines[1..] == result + lines;
    }
  }

  /** A notify line names the script. */
  lemma NotifyHoldsText(l: Line)
    requires IsNotifyLine(l)
    ensures Contains(l, HookText)
  {
    var t := Trim(l);
    var list := TrimStart(TrimStart(t[|NotifyKey|..])[1..]);
    var rest := TrimStart(list[|NodeOpen|..]);
    var k := |rest| - |HookText| - 1;
    assert rest[k..][..|HookText|] == HookText;
    OccursIff(rest, HookText, k);
    assert rest[k..k + |HookText|] == rest[k..][..|HookText|];
    HoldsByPart(rest, HookText, k);
    hide TrimStart, TrimEnd;
    TrimHolds(list[|NodeOpen|..], HookText);
    SuffixHolds(list, |NodeOpen|, HookText);
    var value := TrimStart(t[|NotifyKey|..])[1..];
    TrimHolds(value, HookText);
    SuffixHolds(TrimStart(t[|NotifyKey|..]), 1, HookText);
    TrimHolds(t[|NotifyKey|..], HookText);
    SuffixHolds(t, |NotifyKey|, HookText);
    TrimKeepsMarkers(TrimEnd(l), HookText);
    TrimKeepsMarkers(l, HookText);
  }

  lemma HoldsByPart(s: string, m: string, k: nat)
    requires OccursAt(s, m, k)
    ensures Contains(s, m)
  {
    IndexOfFirst(s, m, 0);
  }

  lemma TrimHolds(s: string, m: string)
    requires Contains(TrimStart(s), m)
    ensures Contains(s, m)
  {
    TrimKeepsMarkers(s, m);
  }

  lemma SuffixHolds(s: string, k: nat, m: string)
    requires k <= |s| && Contains(s[k..], m)
    ensures Contains(s, m)
  {
    PartKeepsMarkers(s, k, |s|, m);
    assert s[k..|s|] == s[k..];
  }

  lemma {:induction false} DropNotifyRoot(result: seq<Line>, lines: seq<Line>, keys: set<string>)
    requires RootFree(result + lines, keys)
    ensures RootFree(DropNotify(result, lines), keys)
    decreases |lines|
  {
    hide KindOf, IsNotifyLine, RootFree, HasOpener;
    if lines == [] {
      assert result + lines == result;
    } else if IsNotifyLine(lines[0]) {
      PopBlanksIs(result);
      SkipBlanksIs(lines[1..]);
      var popped, rest := PopBlanks(result), SkipBlanks(lines[1..]);
      NotifyGoes(result, lines, keys);
      if rest != [] {
        DropNotifyRoot(popped, rest, keys);
      }
    } else {
      assert (result + [lines[0]]) + lines[1..] == result + lines;
      DropNotifyRoot(result + [lines[0]], lines[1..], keys);
    }
  }

  lemma NotifyGoes(result: seq<Line>, lines: seq<Line>, keys: set<string>)
    requires lines != [] && IsNotifyLine(lines[0]) && RootFree(result + lines, keys)
    ensures RootFree(PopBlanks(result) + SkipBlanks(lines[1..]), keys) && RootFree(PopBlanks(result) + [""], keys)
  {
    hide KindOf, IsNotifyLine, RootFree;
    PopBlanksIs(result);
    SkipBlanksIs(lines[1..]);
    var popped, rest := PopBlanks(result), SkipBlanks(lines[1..]);
    var gone, skipped := result[|popped|..], lines[1..][..|lines| - 1 - |rest|];
    assert result == popped + gone && lines == [lines[0]] + (skipped + rest);
    RootFreeConcat(result, lines, keys);
    RootFreeConcat(popped, gone, keys);
    BlanksOpenNothing(gone);
    BlanksOpenNothing(skipped);
    NotifyOpensNothing(lines[0]);
    assert HasOpener(result) <==> HasOpener(popped);
    RootFreeConcat([lines[0]], skipped + rest, keys);
    RootFreeConcat(skipped, rest, keys);
    assert !HasOpener([lines[0]]);
    RootFreeConcat(popped, rest, keys);
    RootFreeConcat(popped, [""], keys);
    EmptyRoot(keys);
  }

  lemma EmptyRoot(keys: set<string>)
    ensures RootFree([""], keys)
  {
    EmptyKind();
    assert [""][1..] == [];
  }

  lemma BlanksOpenNothing(lines: seq<Line>)
    requires AllBlank(lines)
    ensures !HasOpener(lines)
  {
  }

  lemma NotifyOpensNothing(l: Line)
    requires IsNotifyLine(l)
    ensures !Opens(l) && KindOf(l) == Setting(NotifyKey)
  {
    hide IsHookList;
  }

  // ----- orphaned tables -----

  function Lower(c: char): char { if 'A' <= c <= 'Z' then c - 'A' + 'a' else c }

  predicate StartsNoCase(s: string, word: string)
    decreases |word|
  {
    word == "" || (s != "" && Lower(s[0]) == Lower(word[0]) && StartsNoCase(s[1..], word[1..]))
  }

  /** `/^#\s*(OMCP|oh-my-copilot)/i`. */
  predicate IsOmcpComment(l: Line) {
    l != "" && l[0] == '#'
    && (StartsNoCase(TrimStart(l[1..]), "OMCP") || StartsNoCase(TrimStart(l[1..]), "oh-my-copilot"))
  }

  /** Tables OMCP wrote in earlier versions; `legacyAgent` says which agent tables are its own. */
  predicate IsOrphan(l: Line, legacyAgent: string -> bool) {
    KindOf(l).Table?
    && (var text := KindOf(l).text;
        |text| >= 2
        && (var name := text[1..|text| - 1];
            ']' !in name && ("mcp_servers.omcp_" <= name || legacyAgent(name))))
  }

  function PopComments(lines: seq<Line>): seq<Line> {
    if lines == [] then []
    else
      var n := |lines| - 1;
      if IsBlank(lines[n]) || IsOmcpComment(lines[n]) then PopComments(lines[..n]) else lines
  }

  function SkipToTable(lines: seq<Line>): (r: seq<Line>)
    ensures |r| <= |lines|
  {
    if lines == [] || Opens(lines[0]) then lines else SkipToTable(lines[1..])
  }

  /** stripOrphanedOmcpSections: `result` so far, `lines` still to come. */
  function StripOrphans(result: seq<Line>, lines: seq<Line>, legacyAgent: string -> bool): seq<Line>
    decreases |lines|
  {
    if lines == [] then result
    else if IsOrphan(lines[0], legacyAgent) then StripOrphans(PopComments(result), SkipToTable(lines[1..]), legacyAgent)
    else StripOrphans(result + [lines[0]], lines[1..], legacyAgent)
  }

  lemma {:induction false} PopCommentsIs(lines: seq<Line>)
    ensures PopComments(lines) <= lines
    ensures forall l :: l in lines[|PopComments(lines)|..] ==> IsBlank(l) || IsOmcpComment(l)
  {
    hide KindOf, IsOmcpComment;
    if lines != [] {
      var n := |lines| - 1;
      if IsBlank(lines[n]) || IsOmcpComment(lines[n]) {
        PopCommentsIs(lines[..n]);
        var k := |PopComments(lines)|;
        assert lines[k..] == lines[..n][k..] + [lines[n]];
      }
    }
  }

  lemma {:induction false} SkipToTableIs(lines: seq<Line>)
    ensures SkipToTable(lines) == [] || Opens(SkipToTable(lines)[0])
    ensures forall l :: l in SkipToTable(lines) ==> l in lines
  {
    hide KindOf;
    if lines != [] && !Opens(lines[0]) {
      SkipToTableIs(lines[1..]);
    }
  }

  lemma {:induction false} StripOrphansKeeps(p: Line -> bool, result: seq<Line>, lines: seq<Line>, legacyAgent: string -> bool)
    requires All(p, result) && All(p, lines)
    requires forall l :: l in result ==> !IsOrphan(l, legacyAgent)
    ensures All(p, StripOrphans(result, lines, legacyAgent))
    ensures forall l :: l in StripOrphans(result, lines, legacyAgent) ==> !IsOrphan(l, legacyAgent)
    decreases |lines|
  {
    hide KindOf, IsOrphan;
    if lines != [] {
      assert lines == [lines[0]] + lines[1..];
      assert lines[0] in lines;
      if IsOrphan(lines[0], legacyAgent) {
        PopCommentsIs(result);
        SkipToTableIs(lines[1..]);
        StripOrphansKeeps(p, PopComments(result), SkipToTable(lines[1..]), legacyAgent);
      } else {
        StripOrphansKeeps(p, result + [lines[0]], lines[1..], legacyAgent);
      }
    }
  }

  lemma {:induction false} StripOrphansNone(result: seq<Line>, lines: seq<Line>, legacyAgent: string -> bool)
    requires forall l :: l in lines ==> !IsOrphan(l, legacyAgent)
    ensures StripOrphans(result, lines, legacyAgent) == result + lines
    decreases |lines|
  {
    hide KindOf, IsOrphan;
    if lines != [] {
      assert lines == [lines[0]] + lines[1..];
      assert lines[0] in lines;
      StripOrphansNone(result + [lines[0]], lines[1..], legacyAgent);
      assert (result + [lines[0]]) + lines[1..] == result + lines;
    }
  }

  lemma {:induction false} StripOrphansRoot(result: seq<Line>, lines: seq<Line>, legacyAgent: string -> bool, keys: set<string>)
    requires RootFree(result + lines, keys)
    ensures RootFree(StripOrphans(result, lines, legacyAgent), keys)
    decreases |lines|
  {
    hide KindOf, IsOrphan, RootFree, HasOpener;
    if lines == [] {
      assert result + lines == result;
    } else if IsOrphan(lines[0], legacyAgent) {
      PopCommentsIs(result);
      SkipToTableIs(lines[1..]);
      var popped, rest := PopComments(result), SkipToTable(lines[1..]);
      assert result == popped + result[|popped|..];
      RootFreeConcat(result, lines, keys);
      RootFreeConcat(popped, result[|popped|..], keys);
      RootFreeConcat(popped, rest, keys);
      RootFreeStart(rest, keys);
      StripOrphansRoot(popped, rest, legacyAgent, keys);
    } else {
      assert (result + [lines[0]]) + lines[1..] == result + lines;
      StripOrphansRoot(result + [lines[0]], lines[1..], legacyAgent, keys);
    }
  }

  lemma RootFreeStart(lines: seq<Line>, keys: set<string>)
    requires lines == [] || Opens(lines[0])
    ensures RootFree(lines, keys)
  {
  }

  method StripOrphanedSections(lines: seq<Line>, legacyAgent: string -> bool) returns (result: seq<Line>)
    ensures result == StripOrphans([], lines, legacyAgent)
  {
    hide KindOf, IsOrphan, IsOmcpComment;
    result := [];
    var i := 0;
    assert lines[0..] == lines;
    while i < |lines|
      invariant i <= |lines|
      invariant StripOrphans(result, lines[i..], legacyAgent) == StripOrphans([], lines, legacyAgent)
    {
      assert lines[i..][0] == lines[i] && lines[i..][1..] == lines[i + 1..];
      if IsOrphan(lines[i], legacyAgent) {
        ghost var before := result;
        while |result| > 0 && (IsBlank(result[|result| - 1]) || IsOmcpComment(result[|result| - 1]))
          invariant PopComments(result) == PopComments(before)
        {
          result := result[..|result| - 1];
        }
        assert result == PopComments(before);
        ghost var rest := lines[i + 1..];
        i := i + 1;
        while i < |lines| && !Opens(lines[i])
          invariant i <= |lines|
          invariant SkipToTable(lines[i..]) == SkipToTable(rest)
        {
          assert lines[i..][0] == lines[i] && lines[i..][1..] == lines[i + 1..];
          i := i + 1;
        }
        assert lines[i..] == SkipToTable(rest);
        continue;
      }
      result := result + [lines[i]];
      i := i + 1;
    }
    assert lines[i..] == [];
  }

  // ----- the values setup reads -----

  datatype Option<T> = None | Some(value: T)

  /** What follows the equals sign of a setting, `(.+?)` between optional spaces: nothing when the
      line stops there, and a single space when only spaces follow. */
  function ValueOf(l: Line): Option<string> {
    var t := TrimStart(l);
    var rest := TrimStart(t[KeyLength(t)..]);
    if |rest| < 2 then None
    else if Trim(rest[1..]) != "" then Some(Trim(rest[1..]))
    else Some([rest[|rest| - 1]])
  }

  /** parseRootKeyValues for one key: the last setting before the first table wins. */
  function RootValue(lines: seq<Line>, key: string): Option<string> {
    if lines == [] || Opens(lines[0]) then None
    else
      var later := RootValue(lines[1..], key);
      if later.Some? then later
      else if Sets(lines[0], key) then ValueOf(lines[0])
      else None
  }

  lemma {:induction false} RootValueConcat(a: seq<Line>, b: seq<Line>, key: string)
    ensures RootValue(a + b, key) ==
            if HasOpener(a) || RootValue(b, key).None? then RootValue(a, key) else RootValue(b, key)
  {
    hide KindOf, ValueOf;
    if a == [] {
      assert a + b == b;
    } else {
      assert (a + b)[1..] == a[1..] + b;
      assert a == [a[0]] + a[1..];
      RootValueConcat(a[1..], b, key);
    }
  }

  lemma SettingValue(key: string, value: string)
    requires BareKey(key) && value != "" && !IsSpace(value[0]) && !IsSpace(value[|value| - 1])
    ensures ValueOf(SettingLine(key, value)) == Some(value)
  {
    var l := SettingLine(key, value);
    SettingLineKind(key, value);
    assert l == key + (" = " + value);
    KeyLengthOf(key, " = " + value);
    assert l[|key|..] == " = " + value;
    var rest := "= " + value;
    assert TrimStart(" = " + value) == rest by {
      assert (" = " + value)[1..] == rest;
      TrimStartOfVisible(rest);
    }
    assert rest[1..] == " " + value;
    SpaceBefore(value);
  }

  lemma SpaceBefore(value: string)
    requires value != "" && !IsSpace(value[0]) && !IsSpace(value[|value| - 1])
    ensures Trim(" " + value) == value
  {
    var s := " " + value;
    assert s[|s| - 1] == value[|value| - 1];
    assert TrimEnd(s) == s;
    assert s[1..] == value;
    TrimStartOfVisible(value);
  }

  /** `/^"(.*)"$/`. */
  function Unwrap(value: Option<string>): Option<string> {
    if value.Some? && |value.value| >= 2 && value.value[0] == '"' && value.value[|value.value| - 1] == '"'
    then Some(value.value[1..|value.value| - 1]) else None
  }

  const ModelKey := "model"
  const ContextKey := "model_context_window"
  const CompactKey := "model_auto_compact_token_limit"
  const EffortKey := "model_reasoning_effort"
  const InstructionsKey := "developer_instructions"

  const TopKeys := {NotifyKey, EffortKey, InstructionsKey}

  function ModelLine(model: string): Line { SettingLine(ModelKey, "\"" + model + "\"") }

  const ContextLine := SettingLine(ContextKey, "1000000")
  const CompactLine := SettingLine(CompactKey, "900000")

  /** The values behind the fixed top lines, and the model setup falls back to. */
  datatype TopOptions = TopOptions(notify: string, effort: string, instructions: string,
                                   defaultModel: string, modelOverride: Option<string>)

  function FixedTop(o: TopOptions): seq<Line> {
    [TopComment, SettingLine(NotifyKey, o.notify), SettingLine(EffortKey, o.effort),
     SettingLine(InstructionsKey, o.instructions)]
  }

  predicate Overrides(o: TopOptions) { o.modelOverride.Some? && o.modelOverride.value != "" }

  function SelectedModel(o: TopOptions, existing: seq<Line>): string {
    var unwrapped := Unwrap(RootValue(existing, ModelKey));
    if o.modelOverride.Some? then o.modelOverride.value
    else if unwrapped.Some? then unwrapped.value
    else o.defaultModel
  }

  function ModelPart(o: TopOptions, existing: seq<Line>): seq<Line> {
    if Overrides(o) || RootValue(existing, ModelKey).None? then [ModelLine(SelectedModel(o, existing))] else []
  }

  function WindowPart(o: TopOptions, existing: seq<Line>): seq<Line> {
    if SelectedModel(o, existing) == o.defaultModel
       && RootValue(existing, ContextKey).None? && RootValue(existing, CompactKey).None?
    then [ContextLine, CompactLine] else []
  }

  /** getOmcpTopLevelLines. */
  function TopLines(o: TopOptions, existing: seq<Line>): seq<Line> {
    FixedTop(o) + ModelPart(o, existing) + WindowPart(o, existing)
  }
}
