/** How the rewriting steps of src/config/generator.ts leave each other's results alone. */
module ConfigStable {
  import opened Text
  import opened ConfigLines
  import opened ConfigSections
  import opened ConfigTui
  import opened ConfigMarkers
  import Root = ConfigRoot
  import opened ConfigTimeouts

  // ----- the body of a section, wherever it is -----

  /** The section exists and setup has nothing to change in it. */
  predicate FixedIn(sec: Section, lines: seq<Line>) {
    HasTitle(lines, Title(sec)) && Fixed(sec, CutAt(lines, Title(sec)).body)
  }

  lemma FixedInIff(sec: Section, lines: seq<Line>)
    requires HasTitle(lines, Title(sec))
    ensures Upsert(sec, lines) == lines <==> FixedIn(sec, lines)
  {
    hide KindOf, HasTitle, CutAt, IsCut, Fix, Fixed;
    var c := CutAt(lines, Title(sec));
    CutAtIs(lines, Title(sec));
    FixedIff(sec, c.body);
    if Upsert(sec, lines) == lines {
      GlueSame(c, Fix(sec, c.body));
    }
  }

  lemma GlueSame(c: Cut, body: seq<Line>)
    requires Glue(c.(body := body)) == Glue(c)
    ensures body == c.body
  {
    var n := |c.before| + 1;
    assert |body| == |c.body|;
    assert Glue(c)[n..n + |body|] == c.body;
    assert Glue(c.(body := body))[n..n + |body|] == body;
  }

  /** The first titled section of `a + b`, when `b` starts a section. */
  lemma CutConcat(a: seq<Line>, b: seq<Line>, title: string)
    requires StartsSection(b)
    ensures HasTitle(a + b, title) <==> HasTitle(a, title) || HasTitle(b, title)
    ensures HasTitle(a, title) ==> CutAt(a + b, title) == CutAt(a, title).(after := CutAt(a, title).after + b)
    ensures !HasTitle(a, title) && HasTitle(b, title) ==>
              CutAt(a + b, title) == CutAt(b, title).(before := a + CutAt(b, title).before)
  {
    hide KindOf, HasTitle, CutAt, NoneTitled, NoHeaders;
    NoTitleAt(a, title);
    NoTitleAt(b, title);
    NoTitleAt(a + b, title);
    NoneTitledConcat(a, b, title);
    if HasTitle(a, title) {
      var c := CutAt(a, title);
      CutAtIs(a, title);
      var d := c.(after := c.after + b);
      assert IsCut(d, title) by { if c.after == [] { assert c.after + b == b; } }
      CutAtGlue(d, title);
      GlueAfter(c, b);
    } else if HasTitle(b, title) {
      var c := CutAt(b, title);
      CutAtIs(b, title);
      NoneTitledConcat(a, c.before, title);
      CutAtGlue(c.(before := a + c.before), title);
      GlueBefore(c, a);
    }
  }

  lemma NoneTitledConcat(a: seq<Line>, b: seq<Line>, title: string)
    ensures NoneTitled(a + b, title) <==> NoneTitled(a, title) && NoneTitled(b, title)
  {
    hide KindOf;
    if NoneTitled(a + b, title) {
      forall l | l in a ensures !Titled(l, title) { assert l in a + b; }
      forall l | l in b ensures !Titled(l, title) { assert l in a + b; }
    }
  }

  lemma GlueAfter(c: Cut, b: seq<Line>)
    ensures Glue(c.(after := c.after + b)) == Glue(c) + b
  {
  }

  lemma GlueBefore(c: Cut, a: seq<Line>)
    ensures Glue(c.(before := a + c.before)) == a + Glue(c)
  {
  }

  /** A section with another title in between changes nothing for this one. */
  lemma CutAround(a: seq<Line>, h: Line, body: seq<Line>, c: seq<Line>, title: string)
    requires IsHeader(h) && !Titled(h, title) && NoHeaders(body) && StartsSection(c)
    ensures var whole := a + [h] + body + c;
            && (HasTitle(whole, title) <==> HasTitle(a, title) || HasTitle(c, title))
            && (HasTitle(a, title) ==> CutAt(whole, title).body == CutAt(a, title).body)
            && (!HasTitle(a, title) && HasTitle(c, title) ==> CutAt(whole, title).body == CutAt(c, title).body)
  {
    hide KindOf, HasTitle, CutAt, NoneTitled;
    var rest := [h] + body + c;
    assert a + [h] + body + c == a + rest;
    CutConcat(a, rest, title);
    CutConcat([h] + body, c, title);
    NoTitleAt([h] + body, title);
    BodyNotTitled(h, body, title);
  }

  lemma BodyNotTitled(h: Line, body: seq<Line>, title: string)
    requires !Titled(h, title) && NoHeaders(body)
    ensures NoneTitled([h] + body, title)
  {
  }

  // ----- fixed sections and blank lines -----

  lemma {:induction false} LastSetVisible(body: seq<Line>, key: string, line: Line)
    ensures LastSet(Visible(body), key, line) <==> LastSet(body, key, line)
  {
    hide KindOf, Visible, LastSet;
    if body == [] {
      EmptyVisible();
    } else {
      var n := |body| - 1;
      var front, last := body[..n], body[n];
      assert body == front + [last];
      LastSetVisible(front, key, line);
      VisibleConcat(front, [last]);
      VisibleOne(last);
      LastSetSnoc(front, last, key, line);
      if IsBlank(last) {
        assert Visible(front) + [] == Visible(front);
      } else {
        LastSetSnoc(Visible(front), last, key, line);
      }
    }
  }

  lemma LastSetSnoc(front: seq<Line>, last: Line, key: string, line: Line)
    ensures LastSet(front + [last], key, line) <==> if Sets(last, key) then last == line else LastSet(front, key, line)
  {
    hide KindOf;
    assert (front + [last])[..|front|] == front;
  }

  lemma HasKeyVisible(body: seq<Line>, key: string)
    ensures HasKey(Visible(body), key) <==> HasKey(body, key)
  {
    hide KindOf, Visible;
    forall l ensures l in Visible(body) <==> l in body && !IsBlank(l) { VisibleIn(body, l); }
  }

  lemma FixedVisible(sec: Section, body: seq<Line>)
    ensures Fixed(sec, Visible(body)) <==> Fixed(sec, body)
  {
    hide KindOf, Visible, LastSet, HasKey, SettingLine;
    match sec
    case Features =>
      HasKeyVisible(body, Collab);
      LastSetVisible(body, MultiAgent, SettingLine(MultiAgent, "true"));
      LastSetVisible(body, ChildAgents, SettingLine(ChildAgents, "true"));
      LastSetVisible(body, CodexHooks, SettingLine(CodexHooks, "true"));
    case Env => HasKeyVisible(body, ExploreCmd);
    case Agents =>
      HasKeyVisible(body, MaxThreads);
      HasKeyVisible(body, MaxDepth);
  }

  lemma FixedInVisible(sec: Section, lines: seq<Line>)
    ensures FixedIn(sec, Visible(lines)) <==> FixedIn(sec, lines)
  {
    hide KindOf, Visible, Fixed, HasTitle, CutAt;
    CutVisible(lines, Title(sec));
    if HasTitle(lines, Title(sec)) {
      FixedVisible(sec, CutAt(lines, Title(sec)).body);
    }
  }

  // ----- fixed sections and trimming the end of the file -----

  function TrimLast(lines: seq<Line>): seq<Line> {
    if lines == [] then [] else lines[..|lines| - 1] + [TrimEnd(lines[|lines| - 1])]
  }

  lemma {:induction false} TrimEndVisible(lines: seq<Line>)
    ensures Visible(TrimEndLines(lines)) == TrimLast(Visible(lines))
  {
    hide KindOf, TrimEnd;
    if lines != [] {
      var n := |lines| - 1;
      if IsBlank(lines[n]) {
        TrimEndVisible(lines[..n]);
      } else {
        KindIgnoresTrim(lines[n]);
        VisibleConcat(lines[..n], [TrimEnd(lines[n])]);
        VisibleOne(TrimEnd(lines[n]));
        LastVisible(lines);
      }
    }
  }

  /** Default lines have nothing to trim. */
  lemma CanonicalTrim(sec: Section, l: Line)
    requires l in Defaults(sec)
    ensures TrimEnd(l) == l
  {
    hide KindOf, SettingLine, IsSpace, TrimEnd;
    FeatureKeysBare();
    OtherKeysBare();
    VisibleEnds();
    SettingLineKind(MultiAgent, "true");
    SettingLineKind(ChildAgents, "true");
    SettingLineKind(CodexHooks, "true");
    SettingLineKind(ExploreCmd, ExploreValue);
    SettingLineKind(MaxThreads, "6");
    SettingLineKind(MaxDepth, "2");
  }

  lemma {:induction false} LastSetTrim(body: seq<Line>, key: string, line: Line)
    requires LastSet(body, key, line) && TrimEnd(line) == line
    ensures LastSet(TrimLast(body), key, line)
  {
    hide KindOf, TrimEnd;
    var n := |body| - 1;
    KindIgnoresTrim(body[n]);
    assert TrimLast(body)[..n] == body[..n];
  }

  lemma HasKeyTrim(body: seq<Line>, key: string)
    ensures HasKey(TrimLast(body), key) <==> HasKey(body, key)
  {
    hide KindOf, TrimEnd;
    if body != [] {
      var n := |body| - 1;
      KindIgnoresTrim(body[n]);
      assert body == body[..n] + [body[n]];
      assert HasKey(body, key) <==> HasKey(body[..n], key) || Sets(body[n], key);
      assert TrimEnd(body[n]) in TrimLast(body);
      assert HasKey(TrimLast(body), key) <==> HasKey(body[..n], key) || Sets(TrimEnd(body[n]), key);
    }
  }

  lemma FixedTrim(sec: Section, body: seq<Line>)
    requires Fixed(sec, body)
    ensures Fixed(sec, TrimLast(body))
  {
    hide KindOf, TrimEnd, LastSet, HasKey, SettingLine, TrimLast;
    match sec
    case Features =>
      HasKeyTrim(body, Collab);
      CanonicalTrim(Features, SettingLine(MultiAgent, "true"));
      CanonicalTrim(Features, SettingLine(ChildAgents, "true"));
      CanonicalTrim(Features, SettingLine(CodexHooks, "true"));
      LastSetTrim(body, MultiAgent, SettingLine(MultiAgent, "true"));
      LastSetTrim(body, ChildAgents, SettingLine(ChildAgents, "true"));
      LastSetTrim(body, CodexHooks, SettingLine(CodexHooks, "true"));
    case Env => HasKeyTrim(body, ExploreCmd);
    case Agents =>
      HasKeyTrim(body, MaxThreads);
      HasKeyTrim(body, MaxDepth);
  }

  /** Trimming the last line of a cut file trims its last part. */
  function TrimCut(c: Cut): Cut {
    if c.after != [] then c.(after := TrimLast(c.after))
    else if c.body != [] then c.(body := TrimLast(c.body))
    else c.(header := TrimEnd(c.header))
  }

  lemma TrimLastKinds(lines: seq<Line>)
    ensures NoHeaders(lines) ==> NoHeaders(TrimLast(lines))
    ensures StartsSection(lines) ==> StartsSection(TrimLast(lines))
  {
    hide KindOf, TrimEnd;
    if lines != [] {
      KindIgnoresTrim(lines[|lines| - 1]);
      assert lines == lines[..|lines| - 1] + [lines[|lines| - 1]];
      assert TrimLast(lines)[0] == if |lines| == 1 then TrimEnd(lines[0]) else lines[0];
      assert lines[|lines| - 1] in lines;
      if NoHeaders(lines) {
        forall l | l in TrimLast(lines) ensures !IsHeader(l) {
          assert l in lines[..|lines| - 1] || l == TrimEnd(lines[|lines| - 1]);
        }
      }
    }
  }

  lemma TrimLastConcat(a: seq<Line>, b: seq<Line>)
    requires b != []
    ensures TrimLast(a + b) == a + TrimLast(b)
  {
    hide TrimEnd;
    assert (a + b)[..|a + b| - 1] == a + b[..|b| - 1];
  }

  lemma TrimCutIs(c: Cut, title: string)
    requires IsCut(c, title)
    ensures IsCut(TrimCut(c), title) && Glue(TrimCut(c)) == TrimLast(Glue(c))
  {
    hide KindOf, TrimEnd, NoHeaders, StartsSection, TrimLast, NoneTitled;
    KindIgnoresTrim(c.header);
    TrimLastKinds(c.body);
    TrimLastKinds(c.after);
    if c.after != [] {
      TrimLastConcat(c.before + [c.header] + c.body, c.after);
    } else if c.body != [] {
      TrimLastConcat(c.before + [c.header], c.body);
      GlueEnd(c);
      GlueEnd(TrimCut(c));
    } else {
      TrimLastConcat(c.before, [c.header]);
      TrimLastOne(c.header);
      GlueEnd(c);
      GlueEnd(TrimCut(c));
    }
  }

  lemma TrimLastOne(l: Line)
    ensures TrimLast([l]) == [TrimEnd(l)]
  {
    assert [l][..0] == [];
  }

  lemma GlueEnd(c: Cut)
    requires c.after == []
    ensures Glue(c) == (c.before + [c.header]) + c.body
    ensures c.body == [] ==> Glue(c) == c.before + [c.header]
  {
  }

  lemma CutTrim(lines: seq<Line>, title: string)
    requires HasTitle(lines, title)
    ensures HasTitle(TrimLast(lines), title) && CutAt(TrimLast(lines), title) == TrimCut(CutAt(lines, title))
  {
    hide KindOf, HasTitle, CutAt, IsCut, TrimLast, TrimCut;
    var c := CutAt(lines, title);
    CutAtIs(lines, title);
    TrimCutIs(c, title);
    CutAtGlue(TrimCut(c), title);
  }

  lemma FixedInTrim(sec: Section, lines: seq<Line>, blanks: seq<Line>)
    requires FixedIn(sec, lines) && AllBlank(blanks)
    ensures FixedIn(sec, TrimEndLines(lines) + blanks)
  {
    hide KindOf, HasTitle, CutAt, IsCut, TrimLast, TrimEnd, Fixed, Visible, AllBlank, TrimEndLines;
    FixedInVisible(sec, lines);
    FixedInVisible(sec, TrimEndLines(lines) + blanks);
    VisibleConcat(TrimEndLines(lines), blanks);
    BlankVisible(blanks);
    assert Visible(TrimEndLines(lines)) + [] == Visible(TrimEndLines(lines));
    TrimEndVisible(lines);
    var v := Visible(lines);
    CutTrim(v, Title(sec));
    var c := CutAt(v, Title(sec));
    if c.after == [] && c.body != [] {
      FixedTrim(sec, c.body);
    }
  }

  lemma {:induction false} BlankVisible(blanks: seq<Line>)
    requires AllBlank(blanks)
    ensures Visible(blanks) == []
  {
    hide KindOf;
    if blanks != [] {
      var n := |blanks| - 1;
      assert blanks[n] in blanks;
      BlankVisible(blanks[..n]);
    }
  }

  // ----- one step does not undo another -----

  lemma TitlesDiffer(a: Section, b: Section)
    requires a != b
    ensures Title(a) != Title(b)
  {
    assert Title(Features)[1] == 'f' && Title(Env)[1] == 'e' && Title(Agents)[1] == 'a';
  }

  lemma TuiDiffers(sec: Section)
    ensures Title(sec) != TuiTitle
  {
    assert Title(Features)[1] == 'f' && Title(Env)[1] == 'e' && Title(Agents)[1] == 'a' && TuiTitle[1] == 't';
  }

  lemma GapBlank(sec: Section)
    ensures AllBlank(Gap(sec))
  {
    EmptyKind();
  }

  /** Setting up one section keeps another one fixed. */
  lemma UpsertKeepsFixed(sec: Section, other: Section, lines: seq<Line>)
    requires sec != other && FixedIn(other, lines)
    ensures FixedIn(other, Upsert(sec, lines))
  {
    hide KindOf, HasTitle, CutAt, Fixed, Fix, NoneTitled, NoHeaders, StartsSection, TrimEndLines, HeaderLine, Defaults, AllBlank;
    TitlesDiffer(sec, other);
    TitleKind(sec);
    if HasTitle(lines, Title(sec)) {
      var c := CutAt(lines, Title(sec));
      CutAtIs(lines, Title(sec));
      FixNoHeaders(sec, c.body);
      CutAround(c.before, c.header, c.body, c.after, Title(other));
      CutAround(c.before, c.header, Fix(sec, c.body), c.after, Title(other));
    } else {
      AddedIsCut(sec, lines);
      var d := AddedCut(sec, lines);
      GapBlank(sec);
      FixedInTrim(other, lines, Gap(sec));
      NotEmptyFixed(other, lines, Gap(sec));
      CutAround(d.before, d.header, d.body, d.after, Title(other));
    }
  }

  lemma NotEmptyFixed(sec: Section, lines: seq<Line>, blanks: seq<Line>)
    requires FixedIn(sec, TrimEndLines(lines) + blanks) && AllBlank(blanks)
    ensures TrimEndLines(lines) != []
  {
    if TrimEndLines(lines) == [] {
      assert TrimEndLines(lines) + blanks == blanks;
      NoTitleAt(blanks, Title(sec));
    }
  }

  /** Folding the [tui] sections keeps the other sections fixed. */
  lemma FoldKeepsFixed(sec: Section, lines: seq<Line>)
    requires FixedIn(sec, lines)
    ensures FixedIn(sec, FoldTui(lines))
  {
    hide KindOf, HasTitle, CutAt, Fixed, NoneTitled, NoHeaders, StartsSection, Visible, Collapse, Folded, FoldedCut, OutsideTui, TuiTitle;
    if HasTitle(lines, TuiTitle) {
      FoldedKeepsFixed(sec, lines);
      CollapsedVisible(Folded(lines));
      FixedInVisible(sec, Folded(lines));
      FixedInVisible(sec, FoldTui(lines));
    }
  }

  lemma FoldedKeepsFixed(sec: Section, lines: seq<Line>)
    requires FixedIn(sec, lines) && HasTitle(lines, TuiTitle)
    ensures FixedIn(sec, Folded(lines))
  {
    hide KindOf, HasTitle, CutAt, Fixed, NoneTitled, NoHeaders, StartsSection, Visible, Folded, OutsideTui, TuiTitle, TuiBody, TuiBodies, Separator, HeaderLine;
    var c, d := CutAt(lines, TuiTitle), FoldedCut(lines);
    CutAtIs(lines, TuiTitle);
    FoldedIsCut(lines);
    TuiDiffers(sec);
    TuiTitleKind();
    CutAround(c.before, c.header, c.body, c.after, Title(sec));
    CutAround(d.before, d.header, d.body, d.after, Title(sec));
    OutsideKeeps(c.after, Title(sec));
    if HasTitle(c.before, Title(sec)) {
      FixedInVisible(sec, c.before);
      FixedInVisible(sec, d.before);
      VisibleConcat(c.before, Separator(c.before));
      SeparatorBlank(c.before);
      assert Visible(c.before) + [] == Visible(c.before);
    } else {
      NoTitleAt(c.before, Title(sec));
      NoTitleAt(d.before, Title(sec));
      SeparatorNotTitled(c.before, Title(sec));
      NoneTitledConcat(c.before, Separator(c.before), Title(sec));
    }
  }

  lemma SeparatorNotTitled(before: seq<Line>, title: string)
    ensures NoneTitled(Separator(before), title)
  {
    hide KindOf;
    EmptyKind();
  }

  lemma {:induction false} OutsideKeeps(lines: seq<Line>, title: string)
    requires StartsSection(lines) && title != TuiTitle
    ensures HasTitle(OutsideTui(lines), title) <==> HasTitle(lines, title)
    ensures HasTitle(lines, title) ==> CutAt(OutsideTui(lines), title).body == CutAt(lines, title).body
    decreases |lines|
  {
    hide KindOf, HasTitle, CutAt, NoneTitled, NoHeaders, StartsSection, TuiTitle;
    if HasTitle(lines, TuiTitle) {
      var c := CutAt(lines, TuiTitle);
      CutAtIs(lines, TuiTitle);
      OutsideKeeps(c.after, title);
      OutsideTuiIs(c.after);
      CutAround(c.before, c.header, c.body, c.after, title);
      CutConcat(c.before, OutsideTui(c.after), title);
    }
  }

  // ----- lines with a property, and root keys -----

  ghost predicate Writable(p: Line -> bool) {
    && Robust(p) && p(TuiTitle) && p(StatusLine) && p(TimeoutLine)
    && forall sec: Section :: All(p, Block(sec))
  }

  lemma UpsertKeepsAll(p: Line -> bool, sec: Section, lines: seq<Line>)
    requires Robust(p) && All(p, Block(sec)) && All(p, lines)
    ensures All(p, Upsert(sec, lines))
  {
    hide KindOf, HasTitle, CutAt, TrimEndLines, Robust, HeaderLine, SettingLine;
    forall l | l in Upsert(sec, lines) ensures p(l) {
      if HasTitle(lines, Title(sec)) {
        var c := CutAt(lines, Title(sec));
        CutAtIs(lines, Title(sec));
        if l in Fix(sec, c.body) {
          FixLines(sec, c.body, l);
          assert l in Defaults(sec) ==> l in Block(sec);
        }
      } else {
        TrimEndKeeps(p, lines);
        assert "" in Block(sec);
      }
    }
  }

  lemma {:induction false} CollapseLines(lines: seq<Line>, i: nat, l: Line)
    requires i <= |lines|
    ensures l in CollapseFrom(lines, i) ==> l in lines
    decreases |lines| - i
  {
    if i < |lines| {
      CollapseLines(lines, i + 1, l);
    }
  }

  lemma {:induction false} TuiBodiesLines(lines: seq<Line>, l: Line)
    ensures l in TuiBodies(lines) ==> l in lines
    decreases |lines|
  {
    hide KindOf, HasTitle, CutAt, TuiTitle;
    if HasTitle(lines, TuiTitle) {
      CutAtIs(lines, TuiTitle);
      TuiBodiesLines(CutAt(lines, TuiTitle).after, l);
    }
  }

  lemma RobustTrim(p: Line -> bool, l: Line)
    requires Robust(p) && p(l)
    ensures p(Trim(l))
  {
    hide TrimEnd, TrimStart;
  }

  lemma FoldKeepsAll(p: Line -> bool, lines: seq<Line>)
    requires Writable(p) && All(p, lines)
    ensures All(p, FoldTui(lines))
  {
    hide KindOf, HasTitle, CutAt, Writable, HeaderLine, SettingLine, TuiTitle, StatusLine, TuiBodies, OutsideTui, FirstKeys, Separator;
    forall l | l in FoldTui(lines) ensures p(l) {
      WritableParts(p);
      if HasTitle(lines, TuiTitle) {
        CollapseLines(Folded(lines), 0, l);
        var c := CutAt(lines, TuiTitle);
        CutAtIs(lines, TuiTitle);
        OutsideTuiIs(c.after);
        SeparatorEmpty(c.before);
        var keys := FirstKeys(TuiBodies(lines), {});
        if l in keys {
          var j :| 0 <= j < |keys| && keys[j] == l;
          FirstKeysFrom(TuiBodies(lines), {}, j);
          var i :| 0 <= i < |TuiBodies(lines)| && Trim(TuiBodies(lines)[i]) == l;
          TuiBodiesLines(lines, TuiBodies(lines)[i]);
          RobustTrim(p, TuiBodies(lines)[i]);
        }
      }
    }
  }

  lemma WritableParts(p: Line -> bool)
    requires Writable(p)
    ensures Robust(p) && p("") && p(TuiTitle) && p(StatusLine) && p(TimeoutLine)
  {
  }

  lemma SeparatorEmpty(before: seq<Line>)
    ensures forall l :: l in Separator(before) ==> l == ""
  {
  }

  lemma {:induction false} RootFreeTrim(lines: seq<Line>, keys: set<string>)
    requires Root.RootFree(lines, keys)
    ensures Root.RootFree(TrimEndLines(lines), keys)
    decreases |lines|
  {
    hide KindOf, TrimEnd;
    if lines != [] {
      var n := |lines| - 1;
      assert lines == lines[..n] + [lines[n]];
      Root.RootFreeConcat(lines[..n], [lines[n]], keys);
      if IsBlank(lines[n]) {
        RootFreeTrim(lines[..n], keys);
      } else {
        Root.RootFreeConcat(lines[..n], [TrimEnd(lines[n])], keys);
        RootFreeOne(lines[n], keys);
        RootFreeOne(TrimEnd(lines[n]), keys);
        KindIgnoresTrim(lines[n]);
      }
    }
  }

  lemma RootFreeOne(l: Line, keys: set<string>)
    ensures Root.RootFree([l], keys) <==> Opens(l) || !Root.SetsOneOf(l, keys)
  {
    assert [l][1..] == [];
  }

  lemma RootFreeHeader(h: Line, rest: seq<Line>, keys: set<string>)
    requires Opens(h)
    ensures Root.RootFree([h] + rest, keys)
  {
  }

  /** Root lines in front of a header are what decides. */
  lemma RootFreeFront(a: seq<Line>, h: Line, rest: seq<Line>, keys: set<string>)
    requires Opens(h)
    ensures Root.RootFree(a + [h] + rest, keys) <==> Root.RootFree(a, keys)
  {
    hide KindOf, Root.RootFree;
    assert a + [h] + rest == a + ([h] + rest);
    Root.RootFreeConcat(a, [h] + rest, keys);
    RootFreeHeader(h, rest, keys);
  }

  lemma RootFreeBlanks(blanks: seq<Line>, keys: set<string>)
    requires AllBlank(blanks) && |blanks| <= 1
    ensures Root.RootFree(blanks, keys)
  {
    if blanks != [] {
      assert blanks[0] in blanks;
      RootFreeOne(blanks[0], keys);
      assert blanks == [blanks[0]];
    }
  }

  lemma UpsertKeepsRoot(sec: Section, lines: seq<Line>, keys: set<string>)
    requires Root.RootFree(lines, keys)
    ensures Root.RootFree(Upsert(sec, lines), keys)
  {
    hide KindOf, HasTitle, CutAt, TrimEndLines, HeaderLine, Root.RootFree, Root.HasOpener, AllBlank, Fix, Defaults;
    TitleKind(sec);
    if HasTitle(lines, Title(sec)) {
      var c := CutAt(lines, Title(sec));
      CutAtIs(lines, Title(sec));
      GlueTail(c);
      GlueTail(c.(body := Fix(sec, c.body)));
      RootFreeFront(c.before, c.header, c.body + c.after, keys);
      RootFreeFront(c.before, c.header, Fix(sec, c.body) + c.after, keys);
    } else {
      AddedIsCut(sec, lines);
      var d := AddedCut(sec, lines);
      GlueTail(d);
      RootFreeFront(d.before, d.header, d.body + d.after, keys);
      RootFreeTrim(lines, keys);
      GapBlank(sec);
      RootFreeBlanks(Gap(sec), keys);
      Root.RootFreeConcat(TrimEndLines(lines), Gap(sec), keys);
    }
  }

  lemma GlueTail(c: Cut)
    ensures Glue(c) == c.before + [c.header] + (c.body + c.after)
  {
  }

  lemma {:induction false} RootFreeVisible(lines: seq<Line>, keys: set<string>)
    ensures Root.RootFree(Visible(lines), keys) <==> Root.RootFree(lines, keys)
    decreases |lines|
  {
    hide KindOf;
    if lines != [] {
      var n := |lines| - 1;
      assert lines == lines[..n] + [lines[n]];
      RootFreeVisible(lines[..n], keys);
      VisibleConcat(lines[..n], [lines[n]]);
      VisibleOne(lines[n]);
      hide Visible, Root.RootFree;
      Root.RootFreeConcat(lines[..n], [lines[n]], keys);
      Root.RootFreeConcat(Visible(lines[..n]), Visible([lines[n]]), keys);
      OpenerVisible(lines[..n]);
      RootFreeOne(lines[n], keys);
      if IsBlank(lines[n]) {
        assert Visible(lines[..n]) + [] == Visible(lines[..n]);
      }
    }
  }

  lemma OpenerVisible(lines: seq<Line>)
    ensures Root.HasOpener(Visible(lines)) <==> Root.HasOpener(lines)
  {
    hide KindOf, Visible;
    forall l ensures l in Visible(lines) <==> l in lines && !IsBlank(l) { VisibleIn(lines, l); }
  }

  lemma FoldKeepsRoot(lines: seq<Line>, keys: set<string>)
    requires Root.RootFree(lines, keys)
    ensures Root.RootFree(FoldTui(lines), keys)
  {
    hide KindOf, HasTitle, CutAt, Root.RootFree, Visible, Folded, FoldedCut, TuiTitle, Collapse;
    if HasTitle(lines, TuiTitle) {
      FoldedKeepsRoot(lines, keys);
      CollapsedVisible(Folded(lines));
      RootFreeVisible(Folded(lines), keys);
      RootFreeVisible(FoldTui(lines), keys);
    }
  }

  lemma FoldedKeepsRoot(lines: seq<Line>, keys: set<string>)
    requires Root.RootFree(lines, keys) && HasTitle(lines, TuiTitle)
    ensures Root.RootFree(Folded(lines), keys)
  {
    hide KindOf, HasTitle, CutAt, Root.RootFree, Visible, Folded, TuiTitle, Root.HasOpener, Separator, TuiBody, TuiBodies, OutsideTui;
    var c, d := CutAt(lines, TuiTitle), FoldedCut(lines);
    CutAtIs(lines, TuiTitle);
    FoldedIsCut(lines);
    GlueTail(c);
    GlueTail(d);
    RootFreeFront(c.before, c.header, c.body + c.after, keys);
    RootFreeFront(d.before, d.header, d.body + d.after, keys);
    Root.RootFreeConcat(c.before, Separator(c.before), keys);
    SeparatorShort(c.before);
    RootFreeBlanks(Separator(c.before), keys);
  }

  lemma SeparatorShort(before: seq<Line>)
    ensures AllBlank(Separator(before)) && |Separator(before)| <= 1
  {
    EmptyKind();
  }
}
