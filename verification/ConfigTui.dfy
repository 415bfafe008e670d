/** The [tui] section of src/config/generator.ts: any number of [tui] sections become one, with the
    first line of every distinct key and one status line. */
module ConfigTui {
  import opened Text
  import opened ConfigLines
  import opened ConfigSections

  const TuiTitle := HeaderLine("tui")
  const StatusKey := "status_line"
  const StatusModel := "[\"model-with-reasoning\", \"git-branch\", "
  const StatusContext := "\"context-remaining\", \"total-input-tokens\", "
  const StatusTokens := "\"total-output-tokens\", "
  const StatusLimits := "\"five-hour-limit\", \"weekly-limit\"]"
  const StatusValue := StatusModel + StatusContext + StatusTokens + StatusLimits
  const StatusLine := SettingLine(StatusKey, StatusValue)

  predicate IsWordChar(c: char) {
    'A' <= c <= 'Z' || 'a' <= c <= 'z' || '0' <= c <= '9' || c == '_' || c == '-'
  }

  predicate IsWord(key: string) { key != "" && forall i :: 0 <= i < |key| ==> IsWordChar(key[i]) }

  /** The key of a line the fold may keep. */
  function TuiKey(l: Line): string {
    if KindOf(l).Setting? && IsWord(KindOf(l).key) then KindOf(l).key else ""
  }

  /** The first line of every distinct key but `status_line`, in order, `seen` keys left out. */
  function FirstKeys(body: seq<Line>, seen: set<string>): seq<Line> {
    if body == [] then []
    else
      var key := TuiKey(body[0]);
      if key == "" || key == StatusKey || key in seen then FirstKeys(body[1..], seen)
      else [Trim(body[0])] + FirstKeys(body[1..], seen + {key})
  }

  /** The bodies of all [tui] sections, one after the other. */
  function TuiBodies(lines: seq<Line>): seq<Line>
    decreases |lines|
  {
    if !HasTitle(lines, TuiTitle) then []
    else
      var c := CutAt(lines, TuiTitle);
      c.body + TuiBodies(c.after)
  }

  /** The lines outside all [tui] sections. */
  function OutsideTui(lines: seq<Line>): seq<Line>
    decreases |lines|
  {
    if !HasTitle(lines, TuiTitle) then lines
    else
      var c := CutAt(lines, TuiTitle);
      c.before + OutsideTui(c.after)
  }

  /** `text.replace(/\n{3,}/g, "\n\n")` on lines: in a run of empty lines all but the first go,
      except that the first two and the last line of the text stay. */
  predicate Collapses(lines: seq<Line>, i: nat)
    requires i < |lines|
  {
    2 <= i < |lines| - 1 && lines[i] == "" && lines[i - 1] == ""
  }

  function CollapseFrom(lines: seq<Line>, i: nat): seq<Line>
    requires i <= |lines|
    decreases |lines| - i
  {
    if i == |lines| then []
    else (if Collapses(lines, i) then [] else [lines[i]]) + CollapseFrom(lines, i + 1)
  }

  function Collapse(lines: seq<Line>): seq<Line> { CollapseFrom(lines, 0) }

  function Separator(before: seq<Line>): seq<Line> {
    if before != [] && !IsBlank(before[|before| - 1]) then [""] else []
  }

  /** The section the fold writes. */
  function TuiSection(bodies: seq<Line>): seq<Line> {
    [TuiTitle] + FirstKeys(bodies, {}) + [StatusLine] + [""]
  }

  function Folded(lines: seq<Line>): seq<Line>
    requires HasTitle(lines, TuiTitle)
  {
    var c := CutAt(lines, TuiTitle);
    c.before + Separator(c.before) + TuiSection(TuiBodies(lines)) + OutsideTui(c.after)
  }

  function FoldTui(lines: seq<Line>): seq<Line> {
    if HasTitle(lines, TuiTitle) then Collapse(Folded(lines)) else lines
  }

  // ----- lines that are not blank -----

  function Visible(lines: seq<Line>): seq<Line> {
    if lines == [] then []
    else
      var n := |lines| - 1;
      Visible(lines[..n]) + (if IsBlank(lines[n]) then [] else [lines[n]])
  }

  lemma {:induction false} VisibleConcat(a: seq<Line>, b: seq<Line>)
    ensures Visible(a + b) == Visible(a) + Visible(b)
    decreases |b|
  {
    hide KindOf;
    if b == [] {
      assert a + b == a;
    } else {
      var n := |b| - 1;
      assert (a + b)[..|a| + n] == a + b[..n] && (a + b)[|a| + n] == b[n];
      VisibleConcat(a, b[..n]);
    }
  }

  lemma VisibleOne(l: Line)
    ensures Visible([l]) == if IsBlank(l) then [] else [l]
  {
  }

  lemma {:induction false} VisibleIn(lines: seq<Line>, l: Line)
    ensures l in Visible(lines) <==> l in lines && !IsBlank(l)
  {
    hide KindOf;
    if lines != [] {
      var n := |lines| - 1;
      VisibleIn(lines[..n], l);
      assert lines == lines[..n] + [lines[n]];
    }
  }

  lemma {:induction false} CollapseVisible(lines: seq<Line>, i: nat)
    requires i <= |lines|
    ensures Visible(CollapseFrom(lines, i)) == Visible(lines[i..])
    decreases |lines| - i
  {
    hide KindOf, Collapses, Visible;
    if i < |lines| {
      CollapseVisible(lines, i + 1);
      VisibleConcat([lines[i]], CollapseFrom(lines, i + 1));
      VisibleConcat([lines[i]], lines[i + 1..]);
      assert lines[i..] == [lines[i]] + lines[i + 1..];
      if Collapses(lines, i) {
        VisibleOne(lines[i]);
        EmptyKind();
        CollapsesEmpty(lines, i);
        assert [] + Visible(lines[i + 1..]) == Visible(lines[i + 1..]);
        assert [] + CollapseFrom(lines, i + 1) == CollapseFrom(lines, i + 1);
      }
    } else {
      assert lines[i..] == [];
    }
  }

  lemma CollapsesEmpty(lines: seq<Line>, i: nat)
    requires i < |lines|
    ensures Collapses(lines, i) ==> lines[i] == ""
  {
  }

  // ----- what the fold keeps -----

  lemma StatusKind()
    ensures Sets(StatusLine, StatusKey) && TrimEnd(StatusLine) == StatusLine && Trim(StatusLine) == StatusLine
  {
    StatusBare();
    SettingLineKind(StatusKey, StatusValue);
    hide KindOf, SettingLine;
  }

  lemma StatusBare()
    ensures BareKey(StatusKey) && StatusValue != "" && !IsSpace(StatusValue[|StatusValue| - 1])
  {
    assert StatusLimits[|StatusLimits| - 1] == ']';
    assert StatusValue[|StatusValue| - 1] == StatusLimits[|StatusLimits| - 1];
    assert !IsSpace(']');
  }

  lemma TuiTitleKind()
    ensures KindOf(TuiTitle) == Table(TuiTitle)
  {
    HeaderLineKind("tui");
  }

  /** Each kept line is the trimmed first line of its key. */
  lemma {:induction false} FirstKeysFrom(body: seq<Line>, seen: set<string>, j: nat)
    requires j < |FirstKeys(body, seen)|
    ensures var kept := FirstKeys(body, seen)[j];
            var key := TuiKey(kept);
            && key != "" && key != StatusKey && key !in seen && Trim(kept) == kept
            && exists i :: 0 <= i < |body| && Trim(body[i]) == kept && TuiKey(body[i]) == key
                           && forall h :: 0 <= h < i ==> TuiKey(body[h]) != key
    decreases |body|
  {
    hide KindOf, IsWord;
    var key := TuiKey(body[0]);
    if key == "" || key == StatusKey || key in seen {
      FirstKeysFrom(body[1..], seen, j);
      FirstKeysShift(body, FirstKeys(body, seen)[j]);
    } else if j == 0 {
      KeyOfTrimmed(body[0]);
    } else {
      assert FirstKeys(body, seen)[j] == FirstKeys(body[1..], seen + {key})[j - 1];
      FirstKeysFrom(body[1..], seen + {key}, j - 1);
      FirstKeysShift(body, FirstKeys(body, seen)[j]);
    }
  }

  lemma KeyOfTrimmed(l: Line)
    ensures TuiKey(Trim(l)) == TuiKey(l) && Trim(Trim(l)) == Trim(l)
  {
    hide KindOf, TrimEnd, TrimStart;
    KindIgnoresTrim(l);
    TrimTwice(l);
  }

  lemma TrimTwice(l: Line)
    ensures Trim(Trim(l)) == Trim(l)
  {
    hide TrimEnd, TrimStart;
    TrimCommutes(Trim(l));
    TrimCommutes(l);
    TrimEndTwice(TrimStart(l));
    TrimStartTwice(TrimEnd(l));
  }

  lemma FirstKeysShift(body: seq<Line>, kept: Line)
    requires body != [] && TuiKey(body[0]) != TuiKey(kept)
    requires exists i :: 0 <= i < |body[1..]| && Trim(body[1..][i]) == kept && TuiKey(body[1..][i]) == TuiKey(kept)
                         && forall h :: 0 <= h < i ==> TuiKey(body[1..][h]) != TuiKey(kept)
    ensures exists i :: 0 <= i < |body| && Trim(body[i]) == kept && TuiKey(body[i]) == TuiKey(kept)
                        && forall h :: 0 <= h < i ==> TuiKey(body[h]) != TuiKey(kept)
  {
    hide KindOf, IsWord, TuiKey;
    var i :| 0 <= i < |body[1..]| && Trim(body[1..][i]) == kept && TuiKey(body[1..][i]) == TuiKey(kept)
             && forall h :: 0 <= h < i ==> TuiKey(body[1..][h]) != TuiKey(kept);
    assert body[i + 1] == body[1..][i];
    forall h | 0 <= h < i + 1 ensures TuiKey(body[h]) != TuiKey(kept) {
      if h > 0 { assert body[h] == body[1..][h - 1]; }
    }
  }

  /** Every key of the bodies is kept once. */
  lemma {:induction false} FirstKeysHolds(body: seq<Line>, seen: set<string>, key: string)
    requires key != "" && key != StatusKey && key !in seen
    ensures (exists l :: l in FirstKeys(body, seen) && TuiKey(l) == key) <==> (exists l :: l in body && TuiKey(l) == key)
    decreases |body|
  {
    hide KindOf, IsWord, TuiKey;
    if body != [] {
      assert body == [body[0]] + body[1..];
      var first := TuiKey(body[0]);
      if first == key {
        KeyOfTrimmed(body[0]);
        assert Trim(body[0]) in FirstKeys(body, seen);
      } else if first == "" || first == StatusKey || first in seen {
        FirstKeysHolds(body[1..], seen, key);
      } else {
        FirstKeysHolds(body[1..], seen + {first}, key);
        KeyOfTrimmed(body[0]);
      }
    }
  }

  lemma {:induction false} FirstKeysDistinct(body: seq<Line>, seen: set<string>, i: nat, j: nat)
    requires i < j < |FirstKeys(body, seen)|
    ensures TuiKey(FirstKeys(body, seen)[i]) != TuiKey(FirstKeys(body, seen)[j])
    decreases |body|
  {
    hide KindOf, IsWord, TuiKey;
    var key := TuiKey(body[0]);
    if key == "" || key == StatusKey || key in seen {
      FirstKeysDistinct(body[1..], seen, i, j);
    } else {
      var rest := FirstKeys(body[1..], seen + {key});
      assert FirstKeys(body, seen) == [Trim(body[0])] + rest;
      KeyOfTrimmed(body[0]);
      if i == 0 {
        FirstKeysFrom(body[1..], seen + {key}, j - 1);
      } else {
        FirstKeysDistinct(body[1..], seen + {key}, i - 1, j - 1);
      }
    }
  }

  /** Trimmed lines with distinct new keys are kept as they are. */
  lemma {:induction false} FirstKeysFixed(kept: seq<Line>, rest: seq<Line>, seen: set<string>)
    requires forall i :: 0 <= i < |kept| ==> Trim(kept[i]) == kept[i] && TuiKey(kept[i]) != "" && TuiKey(kept[i]) != StatusKey && TuiKey(kept[i]) !in seen
    requires forall i, j :: 0 <= i < j < |kept| ==> TuiKey(kept[i]) != TuiKey(kept[j])
    requires forall l :: l in rest ==> TuiKey(l) == "" || TuiKey(l) == StatusKey
    ensures FirstKeys(kept + rest, seen) == kept
    decreases |kept| + |rest|
  {
    hide KindOf, IsWord, TuiKey;
    if kept == [] {
      assert kept + rest == rest;
      if rest != [] {
        assert rest[0] in rest;
        assert [] + rest[1..] == rest[1..];
        FirstKeysFixed([], rest[1..], seen);
      }
    } else {
      assert (kept + rest)[0] == kept[0] && (kept + rest)[1..] == kept[1..] + rest;
      FirstKeysFixed(kept[1..], rest, seen + {TuiKey(kept[0])});
    }
  }

  /** Folding the folded keys again gives the same keys. */
  lemma FirstKeysTwice(body: seq<Line>, rest: seq<Line>)
    requires forall l :: l in rest ==> TuiKey(l) == "" || TuiKey(l) == StatusKey
    ensures FirstKeys(FirstKeys(body, {}) + rest, {}) == FirstKeys(body, {})
  {
    hide KindOf, IsWord, TuiKey, FirstKeys;
    var kept := FirstKeys(body, {});
    forall i | 0 <= i < |kept|
      ensures Trim(kept[i]) == kept[i] && TuiKey(kept[i]) != "" && TuiKey(kept[i]) != StatusKey
    {
      FirstKeysFrom(body, {}, i);
    }
    forall i, j | 0 <= i < j < |kept| ensures TuiKey(kept[i]) != TuiKey(kept[j]) {
      FirstKeysDistinct(body, {}, i, j);
    }
    FirstKeysFixed(kept, rest, {});
  }

  // ----- the shape of the result -----

  lemma {:induction false} OutsideTuiIs(lines: seq<Line>)
    ensures NoneTitled(OutsideTui(lines), TuiTitle)
    ensures forall l :: l in OutsideTui(lines) ==> l in lines
    ensures StartsSection(lines) ==> StartsSection(OutsideTui(lines))
    decreases |lines|
  {
    hide KindOf, HasTitle, CutAt, TuiTitle;
    if HasTitle(lines, TuiTitle) {
      var c := CutAt(lines, TuiTitle);
      CutAtIs(lines, TuiTitle);
      OutsideTuiIs(c.after);
      if c.before != [] {
        assert OutsideTui(lines)[0] == lines[0];
      }
    } else {
      NoTitleAt(lines, TuiTitle);
    }
  }

  function TuiBody(bodies: seq<Line>): seq<Line> { FirstKeys(bodies, {}) + [StatusLine] + [""] }

  lemma TuiBodyNoHeaders(bodies: seq<Line>)
    ensures NoHeaders(TuiBody(bodies))
  {
    hide KindOf, FirstKeys, StatusLine, IsWord;
    StatusKind();
    EmptyKind();
    forall l | l in TuiBody(bodies) ensures !IsHeader(l) {
      if l in FirstKeys(bodies, {}) {
        var j :| 0 <= j < |FirstKeys(bodies, {})| && FirstKeys(bodies, {})[j] == l;
        FirstKeysFrom(bodies, {}, j);
      }
    }
  }

  function FoldedCut(lines: seq<Line>): Cut
    requires HasTitle(lines, TuiTitle)
  {
    var c := CutAt(lines, TuiTitle);
    Cut(c.before + Separator(c.before), TuiTitle, TuiBody(TuiBodies(lines)), OutsideTui(c.after))
  }

  lemma FoldedIsCut(lines: seq<Line>)
    requires HasTitle(lines, TuiTitle)
    ensures IsCut(FoldedCut(lines), TuiTitle) && Glue(FoldedCut(lines)) == Folded(lines)
    ensures NoneTitled(FoldedCut(lines).after, TuiTitle)
  {
    hide KindOf, HasTitle, CutAt, TuiTitle, FirstKeys, TuiBodies, OutsideTui;
    var c := CutAt(lines, TuiTitle);
    CutAtIs(lines, TuiTitle);
    OutsideTuiIs(c.after);
    TuiBodyNoHeaders(TuiBodies(lines));
    TuiTitleKind();
    EmptyKind();
    var d := FoldedCut(lines);
    assert Glue(d) == d.before + ([TuiTitle] + TuiBody(TuiBodies(lines))) + d.after;
    assert [TuiTitle] + TuiBody(TuiBodies(lines)) == TuiSection(TuiBodies(lines));
  }

  // ----- blank lines do not matter -----

  function VisibleCut(c: Cut): Cut { Cut(Visible(c.before), c.header, Visible(c.body), Visible(c.after)) }

  lemma VisibleGlue(c: Cut)
    requires !IsBlank(c.header)
    ensures Visible(Glue(c)) == Glue(VisibleCut(c))
  {
    hide KindOf, Visible;
    VisibleConcat(c.before + [c.header] + c.body, c.after);
    VisibleConcat(c.before + [c.header], c.body);
    VisibleConcat(c.before, [c.header]);
    VisibleOne(c.header);
  }

  lemma VisibleIsCut(c: Cut, title: string)
    requires IsCut(c, title)
    ensures IsCut(VisibleCut(c), title)
  {
    hide KindOf;
    forall l ensures l in Visible(c.before) ==> l in c.before { VisibleIn(c.before, l); }
    forall l ensures l in Visible(c.body) ==> l in c.body { VisibleIn(c.body, l); }
    if c.after != [] {
      assert c.after == [c.after[0]] + c.after[1..];
      VisibleConcat([c.after[0]], c.after[1..]);
      VisibleOne(c.after[0]);
    }
  }

  /** Cutting and dropping blank lines commute. */
  lemma CutVisible(lines: seq<Line>, title: string)
    ensures HasTitle(Visible(lines), title) <==> HasTitle(lines, title)
    ensures HasTitle(lines, title) ==> CutAt(Visible(lines), title) == VisibleCut(CutAt(lines, title))
  {
    hide KindOf, HasTitle, CutAt, Visible, Glue;
    if HasTitle(lines, title) {
      var c := CutAt(lines, title);
      CutAtIs(lines, title);
      HeaderNotBlank(c, title);
      VisibleGlue(c);
      VisibleIsCut(c, title);
      CutAtGlue(VisibleCut(c), title);
    } else {
      NoTitleAt(lines, title);
      NoTitleAt(Visible(lines), title);
      forall l ensures l in Visible(lines) ==> l in lines { VisibleIn(lines, l); }
    }
  }

  lemma HeaderNotBlank(c: Cut, title: string)
    requires IsCut(c, title)
    ensures !IsBlank(c.header)
  {
  }

  lemma {:induction false} TuiVisible(lines: seq<Line>)
    ensures TuiBodies(Visible(lines)) == Visible(TuiBodies(lines))
    ensures OutsideTui(Visible(lines)) == Visible(OutsideTui(lines))
    decreases |lines|
  {
    hide KindOf, HasTitle, CutAt, Visible, TuiTitle;
    CutVisible(lines, TuiTitle);
    if HasTitle(lines, TuiTitle) {
      var c := CutAt(lines, TuiTitle);
      CutAtIs(lines, TuiTitle);
      TuiVisible(c.after);
      VisibleConcat(c.body, TuiBodies(c.after));
      VisibleConcat(c.before, OutsideTui(c.after));
    } else {
      EmptyVisible();
    }
  }

  lemma EmptyVisible()
    ensures Visible([]) == []
  {
  }

  lemma {:induction false} FirstKeysVisible(body: seq<Line>, seen: set<string>)
    ensures FirstKeys(Visible(body), seen) == FirstKeys(body, seen)
    decreases |body|
  {
    hide KindOf, IsWord;
    if body != [] {
      assert body == [body[0]] + body[1..];
      VisibleConcat([body[0]], body[1..]);
      VisibleOne(body[0]);
      var key := TuiKey(body[0]);
      var later := if key == "" || key == StatusKey || key in seen then seen else seen + {key};
      FirstKeysVisible(body[1..], later);
      hide Visible;
      if IsBlank(body[0]) {
        assert Visible(body) == Visible(body[1..]);
      } else {
        assert Visible(body) == [body[0]] + Visible(body[1..]);
        assert Visible(body)[0] == body[0] && Visible(body)[1..] == Visible(body[1..]);
      }
    }
  }

  /** The visible lines of the fold, as a function of the visible lines of the file. */
  lemma FoldVisible(lines: seq<Line>)
    ensures Visible(FoldTui(lines)) == Visible(FoldTui(Visible(lines)))
    ensures !HasTitle(lines, TuiTitle) ==> Visible(FoldTui(lines)) == Visible(lines)
    ensures HasTitle(lines, TuiTitle) ==>
              (var c := CutAt(lines, TuiTitle);
               Visible(FoldTui(lines)) == Visible(c.before) + [TuiTitle] + FirstKeys(TuiBodies(lines), {}) + [StatusLine]
                                          + Visible(OutsideTui(c.after)))
  {
    hide KindOf, HasTitle, CutAt, Visible, TuiTitle, Collapse, Folded, FirstKeys, TuiBodies, OutsideTui;
    VisibleTwice(lines);
    CutVisible(lines, TuiTitle);
    if HasTitle(lines, TuiTitle) {
      VisibleFold(lines);
      VisibleFold(Visible(lines));
      var c := CutAt(lines, TuiTitle);
      VisibleTwice(c.before);
      TuiVisible(lines);
      FirstKeysVisible(TuiBodies(lines), {});
      TuiVisible(c.after);
      VisibleTwice(OutsideTui(c.after));
    }
  }

  lemma {:induction false} VisibleTwice(lines: seq<Line>)
    ensures Visible(Visible(lines)) == Visible(lines)
  {
    hide KindOf;
    if lines != [] {
      var n := |lines| - 1;
      VisibleTwice(lines[..n]);
      VisibleConcat(Visible(lines[..n]), if IsBlank(lines[n]) then [] else [lines[n]]);
      VisibleOne(lines[n]);
    }
  }

  lemma CollapsedVisible(lines: seq<Line>)
    ensures Visible(Collapse(lines)) == Visible(lines)
  {
    CollapseVisible(lines, 0);
    assert lines[0..] == lines;
  }

  lemma {:induction false} AllVisible(lines: seq<Line>)
    requires forall l :: l in lines ==> !IsBlank(l)
    ensures Visible(lines) == lines
  {
    hide KindOf;
    if lines != [] {
      var n := |lines| - 1;
      assert lines == lines[..n] + [lines[n]];
      assert lines[n] in lines;
      AllVisible(lines[..n]);
    }
  }

  lemma SeparatorBlank(before: seq<Line>)
    ensures Visible(Separator(before)) == []
  {
    hide KindOf;
    EmptyKind();
    VisibleOne("");
    EmptyVisible();
  }

  lemma TuiBodyVisible(bodies: seq<Line>)
    ensures Visible(TuiBody(bodies)) == FirstKeys(bodies, {}) + [StatusLine]
  {
    hide KindOf, FirstKeys, Visible, IsWord, StatusLine;
    StatusKind();
    EmptyKind();
    VisibleOne("");
    VisibleOne(StatusLine);
    VisibleConcat(FirstKeys(bodies, {}) + [StatusLine], [""]);
    VisibleConcat(FirstKeys(bodies, {}), [StatusLine]);
    forall l | l in FirstKeys(bodies, {}) ensures !IsBlank(l) {
      var j :| 0 <= j < |FirstKeys(bodies, {})| && FirstKeys(bodies, {})[j] == l;
      FirstKeysFrom(bodies, {}, j);
    }
    AllVisible(FirstKeys(bodies, {}));
  }

  lemma VisibleFold(lines: seq<Line>)
    requires HasTitle(lines, TuiTitle)
    ensures var c := CutAt(lines, TuiTitle);
            Visible(FoldTui(lines)) == Visible(c.before) + [TuiTitle] + FirstKeys(TuiBodies(lines), {}) + [StatusLine]
                                       + Visible(OutsideTui(c.after))
  {
    hide KindOf, HasTitle, CutAt, Visible, TuiTitle, Collapse, FirstKeys, TuiBodies, OutsideTui, Folded, Separator, TuiBody, IsCut;
    var c, d := CutAt(lines, TuiTitle), FoldedCut(lines);
    CollapsedVisible(Folded(lines));
    FoldedIsCut(lines);
    HeaderNotBlank(d, TuiTitle);
    VisibleGlue(d);
    VisibleConcat(c.before, Separator(c.before));
    SeparatorBlank(c.before);
    TuiBodyVisible(TuiBodies(lines));
    assert Visible(c.before) + [] == Visible(c.before);
    var keys := FirstKeys(TuiBodies(lines), {});
    assert Visible(c.before) + [TuiTitle] + (keys + [StatusLine]) == Visible(c.before) + [TuiTitle] + keys + [StatusLine];
  }

  // ----- the laws of the fold -----

  /** One [tui] section is left, in the place of the first; visibly it holds the first line of each
      key and the status line, and the lines around it are the lines outside all [tui] sections. */
  lemma OneTuiSection(lines: seq<Line>)
    requires HasTitle(lines, TuiTitle)
    ensures var z := FoldTui(lines);
            && HasTitle(z, TuiTitle)
            && (var c, d := CutAt(lines, TuiTitle), CutAt(z, TuiTitle);
                && d.header == TuiTitle
                && NoneTitled(d.after, TuiTitle)
                && Visible(d.before) == Visible(c.before)
                && Visible(d.body) == FirstKeys(TuiBodies(lines), {}) + [StatusLine]
                && Visible(d.after) == Visible(OutsideTui(c.after)))
  {
    hide KindOf, HasTitle, CutAt, Visible, TuiTitle, Collapse, FirstKeys, TuiBodies, OutsideTui, Folded, Separator, TuiBody, IsCut, NoneTitled;
    var c, f := CutAt(lines, TuiTitle), FoldedCut(lines);
    FoldedIsCut(lines);
    CutAtGlue(f, TuiTitle);
    CollapsedVisible(Folded(lines));
    CutVisible(Folded(lines), TuiTitle);
    CutVisible(FoldTui(lines), TuiTitle);
    VisibleConcat(c.before, Separator(c.before));
    SeparatorBlank(c.before);
    TuiBodyVisible(TuiBodies(lines));
    assert Visible(c.before) + [] == Visible(c.before);
    var d := CutAt(FoldTui(lines), TuiTitle);
    NoneTitledVisible(f.after, TuiTitle);
    NoneTitledVisible(d.after, TuiTitle);
  }

  lemma NoneTitledVisible(lines: seq<Line>, title: string)
    ensures NoneTitled(Visible(lines), title) <==> NoneTitled(lines, title)
  {
    hide Visible;
    forall l ensures l in Visible(lines) <==> l in lines && !IsBlank(l) {
      VisibleIn(lines, l);
    }
    hide KindOf;
  }

  /** The fold is idempotent up to blank lines. */
  lemma FoldTwice(lines: seq<Line>)
    ensures Visible(FoldTui(FoldTui(lines))) == Visible(FoldTui(lines))
  {
    hide KindOf, HasTitle, CutAt, Visible, TuiTitle, Collapse, FirstKeys, TuiBodies, OutsideTui, Folded, Separator, TuiBody, IsCut, NoneTitled;
    if HasTitle(lines, TuiTitle) {
      var f := FoldedCut(lines);
      var y := Folded(lines);
      FoldedIsCut(lines);
      CutAtGlue(f, TuiTitle);
      CollapsedVisible(y);
      FoldVisible(FoldTui(lines));
      FoldVisible(y);
      VisibleFold(lines);
      NoTitleAt(f.after, TuiTitle);
      FoldedBodies(lines);
      var c := CutAt(lines, TuiTitle);
      VisibleConcat(c.before, Separator(c.before));
      SeparatorBlank(c.before);
      assert Visible(c.before) + [] == Visible(c.before);
    }
  }

  lemma FoldedBodies(lines: seq<Line>)
    requires HasTitle(lines, TuiTitle) && HasTitle(Folded(lines), TuiTitle)
    requires CutAt(Folded(lines), TuiTitle) == FoldedCut(lines) && !HasTitle(FoldedCut(lines).after, TuiTitle)
    ensures FirstKeys(TuiBodies(Folded(lines)), {}) == FirstKeys(TuiBodies(lines), {})
    ensures OutsideTui(CutAt(Folded(lines), TuiTitle).after) == OutsideTui(CutAt(lines, TuiTitle).after)
  {
    hide KindOf, HasTitle, CutAt, TuiTitle, FirstKeys, Folded, Separator, TuiBody, TuiKey;
    var f := FoldedCut(lines);
    assert TuiBodies(f.after) == [];
    assert f.body + [] == f.body;
    assert TuiBodies(Folded(lines)) == f.body;
    hide TuiBodies;
    TuiBodyTwice(TuiBodies(lines));
  }

  lemma TuiBodyTwice(bodies: seq<Line>)
    ensures FirstKeys(TuiBody(bodies), {}) == FirstKeys(bodies, {})
  {
    hide KindOf, FirstKeys, IsWord, StatusLine;
    StatusKind();
    EmptyKind();
    var tail := [StatusLine] + [""];
    forall l | l in tail ensures TuiKey(l) == "" || TuiKey(l) == StatusKey {
    }
    assert TuiBody(bodies) == FirstKeys(bodies, {}) + tail;
    FirstKeysTwice(bodies, tail);
  }
}
