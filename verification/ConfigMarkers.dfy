/** Marker-delimited blocks of src/config/generator.ts: they are cut out line by line until no line
    holds the marker any more. */
module ConfigMarkers {
  import opened Text
  import opened ConfigLines
  import opened ConfigSections
  import opened ConfigTui

  /** The line a block is recognised by and the text its last line holds. */
  datatype Marks = Marks(marker: string, end: string)

  /** `/^# =+$/` on the trimmed line. */
  predicate IsRule(l: Line) {
    var t := Trim(l);
    |t| >= 3 && t[0] == '#' && t[1] == ' ' && forall i :: 2 <= i < |t| ==> t[i] == '='
  }

  /** Index of the first line holding the marker, or the number of lines. */
  function MarkerAt(lines: seq<Line>, m: string): (i: nat)
    ensures i <= |lines|
  {
    if lines == [] || Contains(lines[0], m) then 0 else 1 + MarkerAt(lines[1..], m)
  }

  /** Where the block that starts at line `i` stops: past the first end text at or after the marker,
      or at the end of the file. */
  function BlockStop(lines: seq<Line>, i: nat, b: Marks): (stop: nat)
    requires i < |lines| && Contains(lines[i], b.marker)
    ensures i < stop <= |lines|
  {
    if IndexOf(lines[i], b.end, IndexOf(lines[i], b.marker, 0)) >= 0 then i + 1
    else
      var j := MarkerAt(lines[i + 1..], b.end);
      if i + 1 + j < |lines| then i + 1 + j + 1 else |lines|
  }

  /** A rule line right above the marker belongs to the block. */
  function BlockStart(lines: seq<Line>, i: nat): (start: nat)
    requires i < |lines|
    ensures start <= i
  {
    if i > 0 && IsRule(lines[i - 1]) then i - 1 else i
  }

  /** `[before, after].filter(Boolean).join("\n\n")`. */
  function JoinParts(before: seq<Line>, after: seq<Line>): seq<Line> {
    if before == [] then after else if after == [] then before else before + [""] + after
  }

  function StripRound(lines: seq<Line>, b: Marks): seq<Line>
    requires MarkerAt(lines, b.marker) < |lines|
  {
    var i := MarkerAt(lines, b.marker);
    MarkerAtIs(lines, b.marker);
    JoinParts(TrimEndLines(lines[..BlockStart(lines, i)]), TrimStartLines(lines[BlockStop(lines, i, b)..]))
  }

  function MarkerLines(lines: seq<Line>, m: string): nat {
    if lines == [] then 0 else (if Contains(lines[0], m) then 1 else 0) + MarkerLines(lines[1..], m)
  }

  /** All rounds of stripExistingOmcpBlocks or stripExistingSharedMcpRegistryBlock. */
  function StripBlocks(lines: seq<Line>, b: Marks): seq<Line>
    requires b.marker != ""
    decreases MarkerLines(lines, b.marker)
  {
    if MarkerAt(lines, b.marker) == |lines| then lines
    else
      RoundLowersLines(lines, b);
      StripBlocks(StripRound(lines, b), b)
  }

  // ----- rounds -----

  lemma {:induction false} MarkerAtIs(lines: seq<Line>, m: string)
    ensures var i := MarkerAt(lines, m);
            && (i < |lines| ==> Contains(lines[i], m))
            && forall j :: 0 <= j < i ==> !Contains(lines[j], m)
  {
    hide Contains;
    if lines != [] && !Contains(lines[0], m) {
      MarkerAtIs(lines[1..], m);
      var i := MarkerAt(lines, m);
      forall j | 0 <= j < i ensures !Contains(lines[j], m) {
        if j > 0 { assert lines[j] == lines[1..][j - 1]; }
      }
    }
  }

  lemma {:induction false} MarkerLinesConcat(a: seq<Line>, b: seq<Line>, m: string)
    ensures MarkerLines(a + b, m) == MarkerLines(a, m) + MarkerLines(b, m)
  {
    hide Contains;
    if a == [] {
      assert a + b == b;
    } else {
      assert (a + b)[1..] == a[1..] + b;
      MarkerLinesConcat(a[1..], b, m);
    }
  }

  lemma TrimKeepsMarkers(l: Line, m: string)
    ensures Contains(TrimEnd(l), m) ==> Contains(l, m)
    ensures Contains(TrimStart(l), m) ==> Contains(l, m)
  {
    hide OccursAt, TrimEnd, TrimStart;
    TrimEndCuts(l);
    TrimStartCuts(l);
    PartKeepsMarkers(l, 0, |TrimEnd(l)|, m);
    PartKeepsMarkers(l, |l| - |TrimStart(l)|, |l|, m);
    assert l[0..|TrimEnd(l)|] == l[..|TrimEnd(l)|];
    assert l[|l| - |TrimStart(l)|..|l|] == l[|l| - |TrimStart(l)|..];
  }

  lemma PartKeepsMarkers(l: Line, lo: nat, hi: nat, m: string)
    requires lo <= hi <= |l|
    ensures Contains(l[lo..hi], m) ==> Contains(l, m)
  {
    hide OccursAt;
    var part := l[lo..hi];
    IndexOfFirst(part, m, 0);
    IndexOfFirst(l, m, 0);
    if Contains(part, m) {
      var i := IndexOf(part, m, 0);
      OccursInPart(l, lo, hi, m, i);
      assert OccursAt(l, m, lo + i);
    }
  }

  lemma {:induction false} TrimEndLowers(lines: seq<Line>, m: string)
    ensures MarkerLines(TrimEndLines(lines), m) <= MarkerLines(lines, m)
    decreases |lines|
  {
    hide Contains, IsBlank, KindOf, TrimEnd;
    if lines != [] {
      var n := |lines| - 1;
      assert lines == lines[..n] + [lines[n]];
      MarkerLinesConcat(lines[..n], [lines[n]], m);
      if IsBlank(lines[n]) {
        TrimEndLowers(lines[..n], m);
      } else {
        MarkerLinesConcat(lines[..n], [TrimEnd(lines[n])], m);
        TrimKeepsMarkers(lines[n], m);
        OneMarker(lines[n], m);
        OneMarker(TrimEnd(lines[n]), m);
      }
    }
  }

  lemma OneMarker(l: Line, m: string)
    ensures MarkerLines([l], m) == if Contains(l, m) then 1 else 0
  {
  }

  lemma {:induction false} TrimStartLowers(lines: seq<Line>, m: string)
    ensures MarkerLines(TrimStartLines(lines), m) <= MarkerLines(lines, m)
    decreases |lines|
  {
    hide Contains, IsBlank, KindOf, TrimStart;
    if lines != [] {
      if IsBlank(lines[0]) {
        TrimStartLowers(lines[1..], m);
      } else {
        TrimKeepsMarkers(lines[0], m);
        assert ([TrimStart(lines[0])] + lines[1..])[1..] == lines[1..];
      }
    }
  }

  lemma EmptyHolds(m: string)
    requires m != ""
    ensures !Contains("", m)
  {
  }

  /** Each round takes out at least the line that held the marker, and joining the rest with a blank
      line creates no new one. */
  lemma RoundLowersLines(lines: seq<Line>, b: Marks)
    requires b.marker != "" && MarkerAt(lines, b.marker) < |lines|
    ensures MarkerLines(StripRound(lines, b), b.marker) < MarkerLines(lines, b.marker)
  {
    hide Contains, TrimEndLines, TrimStartLines, BlockStop, BlockStart, MarkerAt, MarkerLines, JoinParts;
    var m := b.marker;
    MarkerAtIs(lines, m);
    var i := MarkerAt(lines, m);
    var start, stop := BlockStart(lines, i), BlockStop(lines, i, b);
    BlockBounds(lines, i, b);
    InnerHolds(lines, m, start, i, stop);
    TrimEndLowers(lines[..start], m);
    TrimStartLowers(lines[stop..], m);
    JoinPartsMarkers(TrimEndLines(lines[..start]), TrimStartLines(lines[stop..]), m);
  }

  lemma InnerHolds(lines: seq<Line>, m: string, start: nat, i: nat, stop: nat)
    requires start <= i < stop <= |lines| && Contains(lines[i], m)
    ensures MarkerLines(lines[..start], m) + MarkerLines(lines[stop..], m) < MarkerLines(lines, m)
  {
    hide Contains, MarkerLines;
    assert lines == lines[..start] + (lines[start..i] + ([lines[i]] + (lines[i + 1..stop] + lines[stop..])));
    MarkerLinesConcat(lines[..start], lines[start..i] + ([lines[i]] + (lines[i + 1..stop] + lines[stop..])), m);
    MarkerLinesConcat(lines[start..i], [lines[i]] + (lines[i + 1..stop] + lines[stop..]), m);
    MarkerLinesConcat([lines[i]], lines[i + 1..stop] + lines[stop..], m);
    MarkerLinesConcat(lines[i + 1..stop], lines[stop..], m);
    OneMarker(lines[i], m);
  }

  lemma BlockBounds(lines: seq<Line>, i: nat, b: Marks)
    requires i < |lines| && Contains(lines[i], b.marker)
    ensures BlockStart(lines, i) <= i < BlockStop(lines, i, b) <= |lines|
  {
  }

  lemma JoinPartsMarkers(before: seq<Line>, after: seq<Line>, m: string)
    requires m != ""
    ensures MarkerLines(JoinParts(before, after), m) <= MarkerLines(before, m) + MarkerLines(after, m)
  {
    MarkerLinesConcat(before + [""], after, m);
    MarkerLinesConcat(before, [""], m);
    OneMarker("", m);
    EmptyHolds(m);
  }

  // ----- what is left -----

  lemma NoMarkerLines(lines: seq<Line>, m: string)
    ensures MarkerAt(lines, m) == |lines| <==> forall l :: l in lines ==> !Contains(l, m)
  {
    hide Contains;
    MarkerAtIs(lines, m);
    if MarkerAt(lines, m) == |lines| {
      forall l | l in lines ensures !Contains(l, m) {
        var j :| 0 <= j < |lines| && lines[j] == l;
      }
    } else {
      assert lines[MarkerAt(lines, m)] in lines;
    }
  }

  /** No line of the result holds the marker, and a file without it is not touched. */
  lemma {:induction false} StripBlocksIsClean(lines: seq<Line>, b: Marks)
    requires b.marker != ""
    ensures forall l :: l in StripBlocks(lines, b) ==> !Contains(l, b.marker)
    ensures (forall l :: l in lines ==> !Contains(l, b.marker)) ==> StripBlocks(lines, b) == lines
    decreases MarkerLines(lines, b.marker)
  {
    hide Contains, MarkerAt, StripRound;
    NoMarkerLines(lines, b.marker);
    if MarkerAt(lines, b.marker) < |lines| {
      RoundLowersLines(lines, b);
      StripBlocksIsClean(StripRound(lines, b), b);
    }
  }

  /** A property of lines that trimming cannot break. */
  ghost predicate Robust(p: Line -> bool) {
    p("") && forall l :: p(l) ==> p(TrimEnd(l)) && p(TrimStart(l))
  }

  ghost predicate All(p: Line -> bool, lines: seq<Line>) { forall l :: l in lines ==> p(l) }

  lemma {:induction false} TrimEndKeeps(p: Line -> bool, lines: seq<Line>)
    requires Robust(p) && All(p, lines)
    ensures All(p, TrimEndLines(lines))
  {
    hide KindOf, TrimEnd;
    if lines != [] {
      var n := |lines| - 1;
      assert lines == lines[..n] + [lines[n]];
      assert lines[n] in lines;
      TrimEndKeeps(p, lines[..n]);
    }
  }

  lemma {:induction false} TrimStartKeeps(p: Line -> bool, lines: seq<Line>)
    requires Robust(p) && All(p, lines)
    ensures All(p, TrimStartLines(lines))
  {
    hide KindOf, TrimStart;
    if lines != [] {
      assert lines == [lines[0]] + lines[1..];
      assert lines[0] in lines;
      TrimStartKeeps(p, lines[1..]);
    }
  }

  lemma RoundKeeps(p: Line -> bool, lines: seq<Line>, b: Marks)
    requires Robust(p) && All(p, lines) && MarkerAt(lines, b.marker) < |lines|
    ensures All(p, StripRound(lines, b))
  {
    hide Contains, TrimEndLines, TrimStartLines, BlockStop, BlockStart, MarkerAt;
    MarkerAtIs(lines, b.marker);
    var i := MarkerAt(lines, b.marker);
    var before, after := lines[..BlockStart(lines, i)], lines[BlockStop(lines, i, b)..];
    TrimEndKeeps(p, before);
    TrimStartKeeps(p, after);
  }

  /** What the rounds leave are lines of the file, trimmed at most, and blank lines. */
  lemma {:induction false} StripBlocksKeeps(p: Line -> bool, lines: seq<Line>, b: Marks)
    requires b.marker != "" && Robust(p) && All(p, lines)
    ensures All(p, StripBlocks(lines, b))
    decreases MarkerLines(lines, b.marker)
  {
    hide Contains, MarkerAt, StripRound, Robust, All;
    if MarkerAt(lines, b.marker) < |lines| {
      RoundLowersLines(lines, b);
      RoundKeeps(p, lines, b);
      StripBlocksKeeps(p, StripRound(lines, b), b);
    }
  }

  // ----- a block at the end of the file -----

  /** A block as setup writes it: a rule, the marker line, lines without the end text, the end line,
      and nothing visible after it. */
  datatype Written = Written(rule: Line, marker: Line, middle: seq<Line>, end: Line, tail: seq<Line>)

  function WrittenLines(w: Written): seq<Line> {
    [""] + [w.rule] + [w.marker] + w.middle + [w.end] + w.tail
  }

  ghost predicate IsWritten(w: Written, b: Marks) {
    && IsRule(w.rule) && !Contains(w.rule, b.marker)
    && Contains(w.marker, b.marker) && IndexOf(w.marker, b.end, IndexOf(w.marker, b.marker, 0)) < 0
    && (forall l :: l in w.middle ==> !Contains(l, b.end))
    && Contains(w.end, b.end) && AllBlank(w.tail)
  }

  /** The file ends in a visible character, or is empty. */
  predicate EndsTrimmed(lines: seq<Line>) {
    lines == [] || (!IsBlank(lines[|lines| - 1]) && TrimEnd(lines[|lines| - 1]) == lines[|lines| - 1])
  }

  lemma {:induction false} MarkerAtSkips(a: seq<Line>, b: seq<Line>, m: string)
    requires forall l :: l in a ==> !Contains(l, m)
    ensures MarkerAt(a + b, m) == |a| + MarkerAt(b, m)
  {
    hide Contains;
    if a == [] {
      assert a + b == b;
    } else {
      assert a[0] in a;
      assert (a + b)[1..] == a[1..] + b;
      MarkerAtSkips(a[1..], b, m);
    }
  }

  lemma TrimEndBlank(lines: seq<Line>, tail: seq<Line>)
    requires EndsTrimmed(lines) && AllBlank(tail)
    ensures TrimEndLines(lines + tail) == lines
    decreases |tail|
  {
    hide KindOf, TrimEnd;
    var whole := lines + tail;
    if tail == [] {
      assert whole == lines;
      if lines != [] {
        assert lines == lines[..|lines| - 1] + [lines[|lines| - 1]];
      }
    } else {
      var n := |tail| - 1;
      assert tail[n] in tail;
      assert whole[..|whole| - 1] == lines + tail[..n];
      TrimEndBlank(lines, tail[..n]);
    }
  }

  lemma {:induction false} TrimStartBlank(lines: seq<Line>)
    requires AllBlank(lines)
    ensures TrimStartLines(lines) == []
  {
    hide KindOf, TrimStart;
    if lines != [] {
      assert lines[0] in lines;
      TrimStartBlank(lines[1..]);
    }
  }

  /** Stripping removes exactly the block that was appended. */
  lemma StripRemovesWritten(lines: seq<Line>, w: Written, b: Marks)
    requires b.marker != "" && IsWritten(w, b) && EndsTrimmed(lines)
    requires forall l :: l in lines ==> !Contains(l, b.marker)
    ensures StripBlocks(lines + WrittenLines(w), b) == lines
  {
    hide Contains, TrimEndLines, TrimStartLines, BlockStop, MarkerAt, IndexOf, IsRule, KindOf, MarkerLines, StripRound, EndsTrimmed;
    var whole := lines + WrittenLines(w);
    WrittenRound(lines, w, b);
    StripBlocksIsClean(lines, b);
  }

  lemma WrittenRound(lines: seq<Line>, w: Written, b: Marks)
    requires b.marker != "" && IsWritten(w, b) && EndsTrimmed(lines)
    requires forall l :: l in lines ==> !Contains(l, b.marker)
    ensures var whole := lines + WrittenLines(w);
            MarkerAt(whole, b.marker) < |whole| && StripRound(whole, b) == lines
  {
    hide Contains, TrimEndLines, TrimStartLines, BlockStop, MarkerAt, IndexOf, IsRule, KindOf, EndsTrimmed, AllBlank;
    var whole := lines + WrittenLines(w);
    WrittenAt(lines, w, b);
    var i := |lines| + 2;
    assert whole[i] == w.marker && whole[i - 1] == w.rule;
    assert BlockStart(whole, i) == i - 1;
    assert whole[..i - 1] == lines + [""];
    WrittenStop(lines, w, b);
    var stop := |whole| - |w.tail|;
    assert whole[stop..] == w.tail;
    OneBlank();
    TrimEndBlank(lines, [""]);
    TrimStartBlank(w.tail);
  }

  lemma OneBlank()
    ensures AllBlank([""])
  {
    EmptyKind();
  }

  lemma WrittenAt(lines: seq<Line>, w: Written, b: Marks)
    requires b.marker != "" && IsWritten(w, b)
    requires forall l :: l in lines ==> !Contains(l, b.marker)
    ensures MarkerAt(lines + WrittenLines(w), b.marker) == |lines| + 2
  {
    hide Contains, IndexOf, IsRule, KindOf, MarkerAt;
    EmptyHolds(b.marker);
    var rest := [w.marker] + (w.middle + [w.end] + w.tail);
    WrittenSplit(lines, w);
    hide WrittenLines;
    MarkerAtSkips(lines + [""] + [w.rule], rest, b.marker);
    FirstHolds(w.marker, w.middle + [w.end] + w.tail, b.marker);
  }

  lemma WrittenSplit(lines: seq<Line>, w: Written)
    ensures lines + WrittenLines(w) == (lines + [""] + [w.rule]) + ([w.marker] + (w.middle + [w.end] + w.tail))
  {
  }

  lemma WrittenStop(lines: seq<Line>, w: Written, b: Marks)
    requires IsWritten(w, b)
    ensures var whole := lines + WrittenLines(w);
            BlockStop(whole, |lines| + 2, b) == |whole| - |w.tail|
  {
    hide Contains, IndexOf, IsRule, KindOf, MarkerAt;
    var whole := lines + WrittenLines(w);
    var rest := whole[|lines| + 3..];
    assert rest == w.middle + ([w.end] + w.tail);
    MarkerAtSkips(w.middle, [w.end] + w.tail, b.end);
    FirstHolds(w.end, w.tail, b.end);
    assert whole[|lines| + 2] == w.marker;
  }

  lemma FirstHolds(l: Line, rest: seq<Line>, m: string)
    requires Contains(l, m)
    ensures MarkerAt([l] + rest, m) == 0
  {
  }

  lemma MarkerColumn(l: Line, m: string)
    ensures Contains(l, m) ==> IndexOf(l, m, 0) >= 0
  {
  }

  // ----- the loop -----

  /** stripExistingOmcpBlocks and stripExistingSharedMcpRegistryBlock, which differ in their texts. */
  method StripMarkerBlocks(config: seq<Line>, b: Marks) returns (cleaned: seq<Line>, removed: nat)
    requires b.marker != ""
    ensures cleaned == StripBlocks(config, b)
    ensures removed == 0 <==> forall l :: l in config ==> !Contains(l, b.marker)
    ensures removed <= MarkerLines(config, b.marker)
  {
    hide Contains, TrimEndLines, TrimStartLines, IndexOf, IsRule, KindOf, MarkerLines, IsBlank;
    cleaned, removed := config, 0;
    NoMarkerLines(config, b.marker);
    while true
      invariant StripBlocks(cleaned, b) == StripBlocks(config, b)
      invariant removed + MarkerLines(cleaned, b.marker) <= MarkerLines(config, b.marker)
      invariant removed == 0 ==> cleaned == config
      invariant removed > 0 ==> MarkerAt(config, b.marker) < |config|
      decreases MarkerLines(cleaned, b.marker)
    {
      var markerAt := MarkerAt(cleaned, b.marker);
      if markerAt == |cleaned| { break; }
      MarkerAtIs(cleaned, b.marker);
      RoundLowersLines(cleaned, b);
      MarkerColumn(cleaned[markerAt], b.marker);
      var blockStart := markerAt;
      if blockStart > 0 && IsRule(cleaned[blockStart - 1]) {
        blockStart := blockStart - 1;
      }
      var blockEnd := |cleaned|;
      if IndexOf(cleaned[markerAt], b.end, IndexOf(cleaned[markerAt], b.marker, 0)) >= 0 {
        blockEnd := markerAt + 1;
      } else {
        var j := MarkerAt(cleaned[markerAt + 1..], b.end);
        if markerAt + 1 + j < |cleaned| {
          blockEnd := markerAt + 1 + j + 1;
        }
      }
      var before, after := TrimEndLines(cleaned[..blockStart]), TrimStartLines(cleaned[blockEnd..]);
      cleaned := JoinParts(before, after);
      removed := removed + 1;
    }
  }
}
