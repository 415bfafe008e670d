/** The three passes of upsertTuiStatusLine over the line array. */
module ConfigTuiEdits {
  import opened Text
  import opened ConfigLines
  import opened ConfigSections
  import opened ConfigTui

  datatype Span = Span(start: nat, end: nat)

  function EndOf(lines: seq<Line>, start: nat): (e: nat)
    requires start < |lines|
    ensures start < e <= |lines|
  {
    start + 1 + BodyLength(lines[start + 1..])
  }

  /** The [tui] sections that start at or after `i`. */
  function SpansFrom(lines: seq<Line>, i: nat): seq<Span>
    requires i <= |lines|
    decreases |lines| - i
  {
    if i == |lines| then []
    else if Titled(lines[i], TuiTitle) then [Span(i, EndOf(lines, i))] + SpansFrom(lines, EndOf(lines, i))
    else SpansFrom(lines, i + 1)
  }

  predicate Valid(lines: seq<Line>, spans: seq<Span>) {
    forall k :: 0 <= k < |spans| ==> spans[k].start < spans[k].end <= |lines|
  }

  function BodiesOf(lines: seq<Line>, spans: seq<Span>): seq<Line>
    requires Valid(lines, spans)
  {
    if spans == [] then [] else lines[spans[0].start + 1..spans[0].end] + BodiesOf(lines, spans[1..])
  }

  lemma {:induction false} SpansValid(lines: seq<Line>, i: nat)
    requires i <= |lines|
    ensures Valid(lines, SpansFrom(lines, i))
    decreases |lines| - i
  {
    hide KindOf, TuiTitle, BodyLength;
    if i < |lines| {
      if Titled(lines[i], TuiTitle) {
        SpansValid(lines, EndOf(lines, i));
      } else {
        SpansValid(lines, i + 1);
      }
    }
  }

  /** At a [tui] header the cut is the section; elsewhere the search moves on. */
  lemma CutHere(lines: seq<Line>, i: nat)
    requires i < |lines|
    ensures Titled(lines[i], TuiTitle) ==>
              HasTitle(lines[i..], TuiTitle)
              && CutAt(lines[i..], TuiTitle) == Cut([], lines[i], lines[i + 1..EndOf(lines, i)], lines[EndOf(lines, i)..])
    ensures !Titled(lines[i], TuiTitle) ==>
              (HasTitle(lines[i..], TuiTitle) <==> HasTitle(lines[i + 1..], TuiTitle))
    ensures !Titled(lines[i], TuiTitle) && HasTitle(lines[i..], TuiTitle) ==>
              var c := CutAt(lines[i + 1..], TuiTitle);
              CutAt(lines[i..], TuiTitle) == c.(before := [lines[i]] + c.before)
  {
    hide KindOf, TuiTitle, CutAt, BodyLength;
    assert lines[i..] == [lines[i]] + lines[i + 1..];
    if Titled(lines[i], TuiTitle) {
      CutFirst(lines[i], lines[i + 1..]);
      var e := EndOf(lines, i);
      assert lines[i + 1..][..e - i - 1] == lines[i + 1..e] && lines[i + 1..][e - i - 1..] == lines[e..];
    } else {
      CutLater(lines[i], lines[i + 1..]);
    }
  }

  lemma CutFirst(l: Line, rest: seq<Line>)
    requires Titled(l, TuiTitle)
    ensures HasTitle([l] + rest, TuiTitle)
    ensures CutAt([l] + rest, TuiTitle) == Cut([], l, rest[..BodyLength(rest)], rest[BodyLength(rest)..])
  {
    hide KindOf, TuiTitle, BodyLength;
    var lines := [l] + rest;
    assert TitleAt(lines, TuiTitle) == 0;
    assert lines[..0] == [] && lines[1..] == rest;
  }

  lemma CutLater(l: Line, rest: seq<Line>)
    requires !Titled(l, TuiTitle)
    ensures HasTitle([l] + rest, TuiTitle) <==> HasTitle(rest, TuiTitle)
    ensures HasTitle(rest, TuiTitle) ==>
              var c := CutAt(rest, TuiTitle);
              CutAt([l] + rest, TuiTitle) == c.(before := [l] + c.before)
  {
    hide KindOf, TuiTitle, BodyLength;
    var lines := [l] + rest;
    assert lines[1..] == rest;
    var s := TitleAt(rest, TuiTitle);
    assert TitleAt(lines, TuiTitle) == 1 + s;
    if s < |rest| {
      assert lines[..s + 1] == [l] + rest[..s] && lines[s + 2..] == rest[s + 1..];
    }
  }

  lemma {:induction false} SpansAreSections(lines: seq<Line>, i: nat)
    requires i <= |lines|
    ensures Valid(lines, SpansFrom(lines, i))
    ensures BodiesOf(lines, SpansFrom(lines, i)) == TuiBodies(lines[i..])
    ensures HasTitle(lines[i..], TuiTitle) <==> SpansFrom(lines, i) != []
    decreases |lines| - i
  {
    hide KindOf, TuiTitle, BodyLength, TitleAt, CutAt;
    SpansValid(lines, i);
    if i < |lines| {
      CutHere(lines, i);
      if Titled(lines[i], TuiTitle) {
        var e := EndOf(lines, i);
        SpansAreSections(lines, e);
        var spans := SpansFrom(lines, i);
        assert spans[1..] == SpansFrom(lines, e);
      } else {
        SpansAreSections(lines, i + 1);
      }
    }
  }

  /** First pass: where the sections are. */
  method FindTuiSections(lines: seq<Line>) returns (sections: seq<Span>)
    ensures sections == SpansFrom(lines, 0)
  {
    hide KindOf, TuiTitle;
    sections := [];
    var i := 0;
    while i < |lines|
      invariant 0 <= i <= |lines|
      invariant sections + SpansFrom(lines, i) == SpansFrom(lines, 0)
    {
      if !Titled(lines[i], TuiTitle) {
        i := i + 1;
        continue;
      }
      var end := i + 1;
      ghost var rest := lines[i + 1..];
      while end < |lines| && !IsHeader(lines[end])
        invariant i < end <= |lines|
        invariant BodyLength(rest) == (end - i - 1) + BodyLength(lines[end..])
      {
        end := end + 1;
      }
      assert end == EndOf(lines, i);
      sections := sections + [Span(i, end)];
      i := end;
    }
  }

  /** The key lines of one section, after those already seen. */
  method CollectFrom(body: seq<Line>, seenBefore: set<string>, ghost later: seq<Line>)
    returns (preserved: seq<Line>, seen: set<string>)
    ensures preserved + FirstKeys(later, seen) == FirstKeys(body + later, seenBefore)
  {
    hide KindOf, TuiKey, FirstKeys;
    preserved, seen := [], seenBefore;
    assert body[0..] == body;
    assert body[|body|..] + later == later;
    for i := 0 to |body|
      invariant preserved + FirstKeys(body[i..] + later, seen) == FirstKeys(body + later, seenBefore)
    {
      KeysStep(body[i], body[i + 1..] + later, seen);
      SliceHead(body, i, later);
      var key := TuiKey(body[i]);
      if key == "" || key == StatusKey || key in seen { continue; }
      KeepsOrder(preserved, Trim(body[i]), FirstKeys(body[i + 1..] + later, seen + {key}));
      seen := seen + {key};
      preserved := preserved + [Trim(body[i])];
    }
  }

  lemma SliceHead(body: seq<Line>, i: nat, later: seq<Line>)
    requires i < |body|
    ensures body[i..] + later == [body[i]] + (body[i + 1..] + later)
  {
  }

  lemma KeepsOrder(a: seq<Line>, l: Line, rest: seq<Line>)
    ensures a + ([l] + rest) == (a + [l]) + rest
  {
  }

  lemma JoinOrder(a: seq<Line>, b: seq<Line>, c: seq<Line>)
    ensures a + (b + c) == (a + b) + c
  {
  }

  /** Second pass: the first line of every key. */
  method CollectKeyLines(lines: seq<Line>, sections: seq<Span>) returns (preserved: seq<Line>)
    requires Valid(lines, sections)
    ensures preserved == FirstKeys(BodiesOf(lines, sections), {})
  {
    hide KindOf, TuiKey, FirstKeys;
    preserved := [];
    var seen: set<string> := {};
    assert sections[0..] == sections;
    for k := 0 to |sections|
      invariant preserved + FirstKeys(BodiesOf(lines, sections[k..]), seen) == FirstKeys(BodiesOf(lines, sections), {})
    {
      var section := sections[k];
      ghost var later := BodiesOf(lines, sections[k + 1..]);
      assert sections[k..][1..] == sections[k + 1..];
      var kept: seq<Line>;
      kept, seen := CollectFrom(lines[section.start + 1..section.end], seen, later);
      JoinOrder(preserved, kept, FirstKeys(later, seen));
      preserved := preserved + kept;
    }
    assert BodiesOf(lines, sections[|sections|..]) == [];
    NoKeys(seen);
  }

  lemma NoKeys(seen: set<string>)
    ensures FirstKeys([], seen) == []
  {
  }

  lemma KeysStep(l: Line, rest: seq<Line>, seen: set<string>)
    ensures var key := TuiKey(l);
            FirstKeys([l] + rest, seen) ==
            if key == "" || key == StatusKey || key in seen then FirstKeys(rest, seen)
            else [Trim(l)] + FirstKeys(rest, seen + {key})
  {
    hide KindOf, IsWord;
    assert ([l] + rest)[1..] == rest;
  }

  /** The first span is the first cut. */
  lemma {:induction false} FirstSpan(lines: seq<Line>, i: nat)
    requires i <= |lines| && SpansFrom(lines, i) != []
    ensures HasTitle(lines[i..], TuiTitle)
    ensures var c := CutAt(lines[i..], TuiTitle);
            var span := SpansFrom(lines, i)[0];
            && i <= span.start < span.end <= |lines| && Titled(lines[span.start], TuiTitle)
            && c.before == lines[i..span.start] && c.after == lines[span.end..]
            && SpansFrom(lines, i)[1..] == SpansFrom(lines, span.end)
    decreases |lines| - i
  {
    hide KindOf, TuiTitle, BodyLength, TitleAt, CutAt;
    CutHere(lines, i);
    if Titled(lines[i], TuiTitle) {
      assert lines[i..i] == [];
    } else {
      FirstSpan(lines, i + 1);
      var span := SpansFrom(lines, i)[0];
      assert [lines[i]] + lines[i + 1..span.start] == lines[i..span.start];
    }
  }

  /** Third pass, after the first section: the later sections are skipped. */
  method SkipSections(lines: seq<Line>, later: seq<Span>, from: nat, rebuiltSoFar: seq<Line>) returns (rebuilt: seq<Line>)
    requires from <= |lines| && later == SpansFrom(lines, from)
    ensures rebuilt == rebuiltSoFar + OutsideTui(lines[from..])
  {
    hide KindOf, TuiTitle, BodyLength, TitleAt, CutAt, OutsideTui;
    rebuilt := rebuiltSoFar;
    var i, next := from, 0;
    while i < |lines|
      invariant from <= i <= |lines| && next <= |later|
      invariant later[next..] == SpansFrom(lines, i)
      invariant rebuilt + OutsideTui(lines[i..]) == rebuiltSoFar + OutsideTui(lines[from..])
    {
      OutsideStep(lines, i);
      SpansValid(lines, i);
      SpansHead(lines, i);
      if next < |later| && later[next].start == i {
        i := later[next].end;
        next := next + 1;
      } else {
        ghost var rest := OutsideTui(lines[i + 1..]);
        assert rebuilt + ([lines[i]] + rest) == (rebuilt + [lines[i]]) + rest;
        rebuilt := rebuilt + [lines[i]];
        i := i + 1;
      }
    }
    assert lines[i..] == [];
    NothingOutside();
    assert rebuilt + [] == rebuilt;
  }

  lemma NothingOutside()
    ensures OutsideTui([]) == []
  {
  }

  /** Third pass: the merged section replaces the first one, the others are skipped. */
  method Rebuild(lines: seq<Line>, sections: seq<Span>, merged: seq<Line>) returns (rebuilt: seq<Line>)
    requires sections == SpansFrom(lines, 0) && sections != []
    ensures HasTitle(lines, TuiTitle)
    ensures var c := CutAt(lines, TuiTitle);
            rebuilt == c.before + Separator(c.before) + (merged + [""]) + OutsideTui(c.after)
  {
    hide KindOf, TuiTitle, BodyLength, TitleAt, CutAt, Separator, OutsideTui;
    FirstSpan(lines, 0);
    assert lines[0..] == lines;
    rebuilt := [];
    for i := 0 to sections[0].start
      invariant rebuilt == lines[..i]
    {
      rebuilt := rebuilt + [lines[i]];
    }
    ghost var c := CutAt(lines, TuiTitle);
    assert lines[0..sections[0].start] == lines[..sections[0].start];
    SeparatorIs(c.before);
    if rebuilt != [] && !IsBlank(rebuilt[|rebuilt| - 1]) {
      rebuilt := rebuilt + [""];
    }
    rebuilt := rebuilt + (merged + [""]);
    rebuilt := SkipSections(lines, sections[1..], sections[0].end, rebuilt);
  }

  lemma SeparatorIs(before: seq<Line>)
    ensures Separator(before) == if before != [] && !IsBlank(before[|before| - 1]) then [""] else []
  {
  }

  lemma {:induction false} SpansLater(lines: seq<Line>, i: nat)
    requires i <= |lines|
    ensures forall k :: 0 <= k < |SpansFrom(lines, i)| ==> SpansFrom(lines, i)[k].start >= i
    decreases |lines| - i
  {
    hide KindOf, TuiTitle, BodyLength;
    if i < |lines| {
      if Titled(lines[i], TuiTitle) {
        SpansLater(lines, EndOf(lines, i));
      } else {
        SpansLater(lines, i + 1);
      }
    }
  }

  /** The next section starts here exactly at a [tui] header. */
  lemma SpansHead(lines: seq<Line>, i: nat)
    requires i < |lines|
    ensures var spans := SpansFrom(lines, i);
            && (spans != [] && spans[0].start == i <==> Titled(lines[i], TuiTitle))
            && (Titled(lines[i], TuiTitle) ==> spans[0].end == EndOf(lines, i) && spans[1..] == SpansFrom(lines, EndOf(lines, i)))
            && (!Titled(lines[i], TuiTitle) ==> spans == SpansFrom(lines, i + 1))
  {
    hide KindOf, TuiTitle, BodyLength;
    if !Titled(lines[i], TuiTitle) {
      SpansLater(lines, i + 1);
    }
  }

  lemma OutsideStep(lines: seq<Line>, i: nat)
    requires i < |lines|
    ensures OutsideTui(lines[i..]) == if Titled(lines[i], TuiTitle) then OutsideTui(lines[EndOf(lines, i)..])
                                      else [lines[i]] + OutsideTui(lines[i + 1..])
  {
    hide KindOf, TuiTitle, BodyLength, TitleAt, CutAt;
    CutHere(lines, i);
    if Titled(lines[i], TuiTitle) {
      assert [] + OutsideTui(lines[EndOf(lines, i)..]) == OutsideTui(lines[EndOf(lines, i)..]);
    } else if HasTitle(lines[i..], TuiTitle) {
      var d := CutAt(lines[i + 1..], TuiTitle);
      assert ([lines[i]] + d.before) + OutsideTui(d.after) == [lines[i]] + (d.before + OutsideTui(d.after));
    } else {
      assert lines[i..] == [lines[i]] + lines[i + 1..];
    }
  }

  /** The final replace over runs of newlines. */
  method CollapseNewlines(lines: seq<Line>) returns (r: seq<Line>)
    ensures r == Collapse(lines)
  {
    r := [];
    for i := 0 to |lines|
      invariant r + CollapseFrom(lines, i) == Collapse(lines)
    {
      if !Collapses(lines, i) {
        r := r + [lines[i]];
      }
    }
  }

  method UpsertTuiStatusLine(lines: seq<Line>) returns (cleaned: seq<Line>, hadExistingTui: bool)
    ensures cleaned == FoldTui(lines)
    ensures hadExistingTui <==> HasTitle(lines, TuiTitle)
  {
    hide KindOf, TuiTitle, CutAt, Separator, HasTitle, FirstKeys, StatusLine, OutsideTui, TuiBodies, BodiesOf;
    var sections := FindTuiSections(lines);
    SpansAreSections(lines, 0);
    assert lines[0..] == lines;
    if sections == [] {
      return lines, false;
    }
    var preserved := CollectKeyLines(lines, sections);
    var merged := [TuiTitle] + preserved + [StatusLine];
    var rebuilt := Rebuild(lines, sections, merged);
    cleaned := CollapseNewlines(rebuilt);
    hadExistingTui := true;
  }
}
