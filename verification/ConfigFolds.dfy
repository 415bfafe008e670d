/** Which lines of a file the [tui] fold and the timeout repair leave alone. */
module ConfigFolds {
  import opened Text
  import opened ConfigLines
  import opened ConfigSections
  import opened ConfigTui
  import opened ConfigMarkers
  import opened ConfigTimeouts
  import opened ConfigRoot
  import opened ConfigStable
  import opened ConfigMerge
  import opened ConfigSettled
  import opened ConfigRepaired
  import opened ConfigFooter
  import opened ConfigKeeps
  import opened ConfigUpserts

  // ----- the [tui] fold -----

  /** Nothing of the [tui] table is looked for. */
  ghost predicate NoTui(pick: Pick) { forall e :: pick(e) ==> e.table != TuiTitle }

  /** Nothing below a bracket line that is no whole header is looked for. */
  ghost predicate NoneBelow(pick: Pick) { forall e :: pick(e) ==> !KindOf(e.table).Opener? }

  ghost predicate Unpicked(pick: Pick, table: string) { forall e :: pick(e) ==> e.table != table }

  lemma {:induction false} PickedNowhere(pick: Pick, table: string, lines: seq<Line>)
    requires Unpicked(pick, table) && forall l :: l in lines && Opens(l) ==> Unpicked(pick, Trim(l))
    ensures Picked(pick, table, lines) == []
    decreases |lines|
  {
    hide KindOf, Trim, Opens;
    if lines != [] {
      assert lines == [lines[0]] + lines[1..];
      assert lines[0] in lines;
      forall l | l in lines[1..] ensures l in lines { }
      PickedNowhere(pick, TableOf(table, lines[0]), lines[1..]);
    }
  }

  lemma TuiBodyNotPicked(pick: Pick, body: seq<Line>)
    requires NoTui(pick) && NoHeaders(body) && (NoOpens(body) || NoneBelow(pick))
    ensures Picked(pick, TuiTitle, body) == []
  {
    forall l | l in body && Opens(l) ensures Unpicked(pick, Trim(l)) {
      OpenerTrims(l);
    }
    hide KindOf, Trim, TuiTitle;
    PickedNowhere(pick, TuiTitle, body);
  }

  lemma {:induction false} TuiBodiesPlain(lines: seq<Line>)
    ensures NoHeaders(TuiBodies(lines))
    decreases |lines|
  {
    hide KindOf, HasTitle, CutAt, TuiTitle;
    if HasTitle(lines, TuiTitle) {
      CutAtIs(lines, TuiTitle);
      TuiBodiesPlain(CutAt(lines, TuiTitle).after);
    }
  }

  lemma NoOpensParts(a: seq<Line>, b: seq<Line>)
    ensures NoOpens(a + b) <==> NoOpens(a) && NoOpens(b)
  {
    hide Opens;
    if NoOpens(a + b) {
      forall l | l in a ensures !Opens(l) { assert l in a + b; }
      forall l | l in b ensures !Opens(l) { assert l in a + b; }
    }
  }

  lemma TuiCut(lines: seq<Line>) returns (c: Cut)
    requires HasTitle(lines, TuiTitle)
    ensures c == CutAt(lines, TuiTitle) && IsCut(c, TuiTitle) && Glue(c) == lines && |c.after| < |lines|
    ensures TuiBodies(lines) == c.body + TuiBodies(c.after) && OutsideTui(lines) == c.before + OutsideTui(c.after)
  {
    hide KindOf, HasTitle, CutAt, TuiTitle, IsCut;
    c := CutAt(lines, TuiTitle);
    CutAtIs(lines, TuiTitle);
  }

  lemma {:induction false} PickedOutside(pick: Pick, table: string, lines: seq<Line>)
    requires NoTui(pick) && (NoOpens(TuiBodies(lines)) || NoneBelow(pick))
    ensures Picked(pick, table, OutsideTui(lines)) == Picked(pick, table, lines)
    decreases |lines|
  {
    hide KindOf, Picked, TableAfter, HasTitle, CutAt, Glue, TuiTitle, NoOpens, NoTui, NoneBelow, TuiBodies;
    if HasTitle(lines, TuiTitle) {
      var c := TuiCut(lines);
      NoOpensParts(c.body, TuiBodies(c.after));
      PickedOutside(pick, TuiTitle, c.after);
      PickedGlue(pick, table, c, TuiTitle);
      TuiHeaderSkipped(pick);
      TuiBodyNotPicked(pick, c.body);
      PickedConcat(pick, table, c.before, OutsideTui(c.after));
      OutsideTuiIs(c.after);
      AfterOpens(OutsideTui(c.after));
      PickedFromHeader(pick, TuiTitle, TableAfter(table, c.before), OutsideTui(c.after));
      assert [] + ([] + Picked(pick, TuiTitle, c.after)) == Picked(pick, TuiTitle, c.after);
    }
  }

  lemma TuiHeaderSkipped(pick: Pick)
    requires NoTui(pick)
    ensures HeaderEntry(pick, TuiTitle) == []
  {
    hide TuiTitle;
  }

  lemma TuiBodyNoOpens(bodies: seq<Line>)
    ensures NoOpens(TuiBody(bodies))
  {
    hide KindOf, FirstKeys, StatusLine, IsWord;
    StatusKind();
    EmptyKind();
    forall l | l in TuiBody(bodies) ensures !Opens(l) {
      if l in FirstKeys(bodies, {}) {
        var j :| 0 <= j < |FirstKeys(bodies, {})| && FirstKeys(bodies, {})[j] == l;
        FirstKeysFrom(bodies, {}, j);
      }
    }
  }

  lemma PickedFolded(pick: Pick, table: string, lines: seq<Line>)
    requires Quiet(pick) && NoTui(pick) && (NoOpens(TuiBodies(lines)) || NoneBelow(pick)) && HasTitle(lines, TuiTitle)
    ensures Picked(pick, table, Folded(lines)) == Picked(pick, table, lines)
  {
    hide KindOf, Picked, TableAfter, HasTitle, CutAt, IsCut, Glue, TuiTitle, NoOpens, Folded, Separator, TuiBody, OutsideTui, TuiBodies, NoTui, NoneBelow, Quiet;
    var c := TuiCut(lines);
    var d := FoldedCut(lines);
    NoOpensParts(c.body, TuiBodies(c.after));
    FoldedIsCut(lines);
    CutBodies(c);
    CutBodies(d);
    TuiBodyNoOpens(TuiBodies(lines));
    PickedGlue(pick, table, c, TuiTitle);
    PickedGlue(pick, table, d, TuiTitle);
    TuiBodyNotPicked(pick, c.body);
    TuiBodyNotPicked(pick, d.body);
    PickedOutside(pick, TuiTitle, c.after);
    PickedConcat(pick, table, c.before, Separator(c.before));
    SeparatorShort(c.before);
    PickedBlanks(pick, TableAfter(table, c.before), Separator(c.before));
    assert Picked(pick, table, c.before) + [] == Picked(pick, table, c.before);
  }

  lemma CutBodies(c: Cut)
    requires IsCut(c, TuiTitle)
    ensures NoHeaders(c.body)
  {
  }

  /** The fold keeps what is looked for, if no bracket line stands in a [tui] section or nothing below one
      is looked for. */
  lemma FoldKeeps(pick: Pick, table: string, lines: seq<Line>)
    requires Quiet(pick) && NoTui(pick) && (NoOpens(TuiBodies(lines)) || NoneBelow(pick))
    ensures Picked(pick, table, FoldTui(lines)) == Picked(pick, table, lines)
  {
    hide KindOf, Picked, HasTitle, TuiTitle, Folded, Collapse, Visible, NoOpens, TuiBodies, Quiet, NoTui, NoneBelow;
    if HasTitle(lines, TuiTitle) {
      PickedFolded(pick, table, lines);
      CollapsedVisible(Folded(lines));
      PickedVisible(pick, table, Folded(lines));
      PickedVisible(pick, table, FoldTui(lines));
    }
  }

  // ----- what the fold drops -----

  /** The lines that open with a bracket and are no whole headers. */
  function OpenerPick(): Pick { (e: Entry) => KindOf(e.line).Opener? && e.table == e.line }

  lemma OpenerPickIs()
    ensures Quiet(OpenerPick()) && !OpenerPick()(Entry(TuiTitle, TuiTitle))
    ensures forall key :: Skips(OpenerPick(), key)
    ensures forall sec: Section :: SkipsTitle(OpenerPick(), Title(sec))
  {
    TuiTitleKind();
    forall sec: Section ensures SkipsTitle(OpenerPick(), Title(sec)) { TitleKind(sec); }
    hide HeaderLine, TuiTitle;
  }

  lemma OpenerPicked(table: string, l: Line)
    ensures OpenerPick()(EntryOf(table, l)) <==> KindOf(l).Opener?
    ensures KindOf(l).Opener? ==> EntryOf(table, l) == Entry(Trim(l), Trim(l))
  {
    KindIgnoresTrim(l);
    hide Trim;
  }

  /** Which bracket lines there are does not depend on the table in front. */
  lemma {:induction false} OpenersAnyTable(t1: string, t2: string, lines: seq<Line>)
    ensures Picked(OpenerPick(), t1, lines) == Picked(OpenerPick(), t2, lines)
    decreases |lines|
  {
    hide KindOf, Trim, OpenerPick, TableOf, Picked;
    if lines != [] {
      var l, rest := lines[0], lines[1..];
      assert lines == [l] + rest;
      PickedCons(OpenerPick(), t1, l, rest);
      PickedCons(OpenerPick(), t2, l, rest);
      OpenerPicked(t1, l);
      OpenerPicked(t2, l);
      OpenersAnyTable(TableOf(t1, l), TableOf(t2, l), rest);
    } else {
      NoPicks(OpenerPick(), t1);
      NoPicks(OpenerPick(), t2);
    }
  }

  lemma {:induction false} OpenersOutside(table: string, lines: seq<Line>)
    ensures |Picked(OpenerPick(), table, lines)|
         == |Picked(OpenerPick(), table, OutsideTui(lines))| + |Picked(OpenerPick(), TuiTitle, TuiBodies(lines))|
    decreases |lines|
  {
    hide KindOf, Picked, TableAfter, HasTitle, CutAt, Glue, TuiTitle, OpenerPick, TuiBodies;
    var h := OpenerPick();
    if HasTitle(lines, TuiTitle) {
      var c := TuiCut(lines);
      OpenersOutside(TuiTitle, c.after);
      PickedGlue(h, table, c, TuiTitle);
      OpenerPickIs();
      PickedConcat(h, table, c.before, OutsideTui(c.after));
      OpenersAnyTable(TuiTitle, TableAfter(table, c.before), OutsideTui(c.after));
      PickedConcat(h, TuiTitle, c.body, TuiBodies(c.after));
      OpenersAnyTable(TuiTitle, TableAfter(TuiTitle, c.body), TuiBodies(c.after));
    } else {
      NoBodies(lines);
      NoPicks(h, TuiTitle);
    }
  }

  lemma NoBodies(lines: seq<Line>)
    requires !HasTitle(lines, TuiTitle)
    ensures TuiBodies(lines) == []
  {
  }

  lemma {:induction false} NoneFound(table: string, body: seq<Line>)
    requires NoHeaders(body)
    ensures Picked(OpenerPick(), table, body) == [] <==> NoOpens(body)
    decreases |body|
  {
    hide KindOf, Trim, OpenerPick, TableOf, Picked, Opens;
    if body != [] {
      var l, rest := body[0], body[1..];
      assert body == [l] + rest && l in body;
      PickedCons(OpenerPick(), table, l, rest);
      OpenerPicked(table, l);
      OpenerTrims(l);
      forall x | x in rest ensures x in body { }
      NoneFound(TableOf(table, l), rest);
      NoOpensParts([l], rest);
    } else {
      NoPicks(OpenerPick(), table);
    }
  }

  /** Bracket lines in [tui] sections are lost. */
  lemma FoldLoses(table: string, lines: seq<Line>)
    requires Picked(OpenerPick(), table, FoldTui(lines)) == Picked(OpenerPick(), table, lines)
    ensures NoOpens(TuiBodies(lines))
  {
    hide KindOf, Picked, HasTitle, TuiTitle, Folded, Collapse, Visible, NoOpens, TuiBodies, OpenerPick, OutsideTui;
    if HasTitle(lines, TuiTitle) {
      OpenersFolded(table, lines);
      TuiBodiesPlain(lines);
      NoneFound(TuiTitle, TuiBodies(lines));
    } else {
      NoBodies(lines);
      NoOpensNothing();
    }
  }

  lemma NoOpensNothing()
    ensures NoOpens([])
  {
  }

  lemma OpenersFolded(table: string, lines: seq<Line>)
    requires HasTitle(lines, TuiTitle)
    ensures |Picked(OpenerPick(), table, FoldTui(lines))| + |Picked(OpenerPick(), TuiTitle, TuiBodies(lines))|
         == |Picked(OpenerPick(), table, lines)|
  {
    hide KindOf, Picked, TableAfter, HasTitle, CutAt, IsCut, Glue, TuiTitle, NoOpens, Folded, Separator, TuiBody, OutsideTui, TuiBodies, OpenerPick, Collapse, Visible;
    var h := OpenerPick();
    OpenerPickIs();
    CollapsedVisible(Folded(lines));
    PickedVisible(h, table, Folded(lines));
    PickedVisible(h, table, FoldTui(lines));
    var c := TuiCut(lines);
    var d := FoldedCut(lines);
    FoldedIsCut(lines);
    PickedGlue(h, table, d, TuiTitle);
    CutBodies(d);
    TuiBodyNoOpens(TuiBodies(lines));
    NoneFound(TuiTitle, d.body);
    PickedConcat(h, table, c.before, Separator(c.before));
    SeparatorShort(c.before);
    PickedBlanks(h, TableAfter(table, c.before), Separator(c.before));
    OpenersOutside(table, lines);
    PickedConcat(h, table, c.before, OutsideTui(c.after));
    OpenersAnyTable(TuiTitle, TableAfter(table, c.before), OutsideTui(c.after));
  }

  // ----- startup timeouts -----

  /** The end of the section, where the timeout goes, still belongs to an MCP table. */
  predicate Lands(section: seq<Line>) { StartsMcp(TableAfter("", section)) }

  /** Every section that is given a timeout gets it in an MCP table. */
  predicate RepairsLand(lines: seq<Line>, needs: Needs) {
    if lines == [] then true
    else if StartsMcp(lines[0]) then
      var n := SectionLength(lines);
      (needs(lines[..n]) ==> Lands(lines[..n])) && RepairsLand(lines[n..], needs)
    else RepairsLand(lines[1..], needs)
  }

  lemma LandsPart(head: seq<Line>, rest: seq<Line>, needs: Needs)
    requires IsPart(head, rest)
    ensures RepairsLand(head + rest, needs) <==>
            (StartsMcp(head[0]) && needs(head) ==> Lands(head)) && RepairsLand(rest, needs)
  {
    hide KindOf, SectionLength, NoHeaders, StartsSection, Lands, StartsMcp;
    assert (head + rest)[0] == head[0];
    if StartsMcp(head[0]) {
      SectionLengthOf(head, rest);
    } else {
      assert (head + rest)[1..] == rest && head == [head[0]];
    }
  }

  /** A timeout in an MCP table is taken for one of setup's. */
  ghost predicate McpSkips(pick: Pick) { forall e :: pick(e) && StartsMcp(e.table) ==> e.line != TimeoutLine }

  lemma TimeoutEntry(table: string)
    ensures EntryOf(table, TimeoutLine) == Entry(table, TimeoutLine)
  {
    TimeoutStartsNothing();
    assert TimeoutKey[0] == 's' && !IsSpace('s') && !IsSpace('5');
    TrimVisible(TimeoutLine);
    hide KindOf, Trim;
  }

  lemma {:induction false} PickedTimeout(pick: Pick, table: string, section: seq<Line>)
    requires Quiet(pick) && section != []
    ensures Picked(pick, table, WithTimeout(section))
         == Picked(pick, table, section) + PickedLast(pick, Entry(TableAfter(table, section), TimeoutLine))
    ensures TableAfter(table, WithTimeout(section)) == TableAfter(table, section)
    decreases |section|
  {
    hide KindOf, Trim, Picked, TableAfter, TimeoutLine, Quiet;
    var n := |section| - 1;
    if n > 0 && IsBlank(section[n]) {
      var front := section[..n];
      assert section == front + [section[n]];
      PickedTimeout(pick, table, front);
      BlankLast(pick, table, front, section[n]);
      BlankLast(pick, table, WithTimeout(front), section[n]);
    } else {
      PickedSnoc(pick, table, section, TimeoutLine);
      TimeoutEntry(TableAfter(table, section));
    }
  }

  lemma BlankLast(pick: Pick, table: string, front: seq<Line>, l: Line)
    requires Quiet(pick) && IsBlank(l)
    ensures Picked(pick, table, front + [l]) == Picked(pick, table, front)
    ensures TableAfter(table, front + [l]) == TableAfter(table, front)
  {
    hide KindOf, Trim, Picked, TableAfter, Quiet;
    PickedSnoc(pick, table, front, l);
    IdleNotPicked(pick, TableAfter(table, front), l);
    assert Picked(pick, table, front) + [] == Picked(pick, table, front);
  }

  lemma SectionStart(table: string, head: seq<Line>)
    requires head != [] && StartsMcp(head[0])
    ensures TableAfter(table, head) == TableAfter("", head)
  {
    McpOpens(head[0]);
    hide KindOf, Trim, StartsMcp;
  }

  /** What one part contributes. */
  lemma PickedPartAdded(pick: Pick, table: string, head: seq<Line>, rest: seq<Line>, needs: Needs)
    requires Quiet(pick) && IsPart(head, rest)
    ensures Picked(pick, table, PartAdded(head, needs))
         == Picked(pick, table, head) + (if StartsMcp(head[0]) && needs(head)
                                         then PickedLast(pick, Entry(TableAfter("", head), TimeoutLine)) else [])
    ensures TableAfter(table, PartAdded(head, needs)) == TableAfter(table, head)
  {
    hide KindOf, Trim, Picked, TableAfter, StartsMcp, WithTimeout, Quiet;
    if StartsMcp(head[0]) && needs(head) {
      PickedTimeout(pick, table, head);
      SectionStart(table, head);
    } else {
      assert Picked(pick, table, head) + [] == Picked(pick, table, head);
    }
  }

  lemma {:induction false} AddKeeps(pick: Pick, table: string, lines: seq<Line>, needs: Needs)
    requires Quiet(pick) && McpSkips(pick) && (RepairsLand(lines, needs) || Skips(pick, TimeoutKey))
    ensures Picked(pick, table, AddTimeouts(lines, needs)) == Picked(pick, table, lines)
    decreases |lines|
  {
    if lines == [] {
      NothingAdded(needs);
    } else {
      hide KindOf, Trim, Picked, TableAfter, StartsMcp, AddTimeouts, FirstPart, RepairsLand, IsPart, TimeoutLine, Quiet;
      var head, rest := lines[..FirstPart(lines)], lines[FirstPart(lines)..];
      PartOf(lines);
      AddPart(head, rest, needs);
      LandsPart(head, rest, needs);
      TimeoutKind();
      AddKeeps(pick, TableAfter(table, head), rest, needs);
      PickedPartAdded(pick, table, head, rest, needs);
      PickedConcat(pick, table, head, rest);
      PickedConcat(pick, table, PartAdded(head, needs), AddTimeouts(rest, needs));
      assert Picked(pick, table, head) + [] == Picked(pick, table, head);
    }
  }

  /** Timeouts below bracket lines that open no MCP table. */
  function StrayPick(): Pick {
    (e: Entry) => e.line == TimeoutLine && KindOf(e.table).Opener? && !StartsMcp(e.table)
  }

  /** A section ends in its own table or below a bracket line that is no whole header. */
  lemma SectionEnd(head: seq<Line>, rest: seq<Line>)
    requires IsPart(head, rest) && StartsMcp(head[0])
    ensures StartsMcp(TableAfter("", head)) || KindOf(TableAfter("", head)).Opener?
  {
    McpOpens(head[0]);
    McpTrim(head[0]);
    hide KindOf, Trim, StartsMcp;
    BodyTable(Trim(head[0]), head[1..]);
  }

  lemma StrayPickIs()
    ensures Quiet(StrayPick()) && McpSkips(StrayPick())
    ensures forall key :: key != TimeoutKey ==> Skips(StrayPick(), key)
    ensures forall table: string :: SkipsTitle(StrayPick(), table)
    ensures NoTui(StrayPick())
  {
    TimeoutKind();
    TimeoutStartsNothing();
    TuiTitleKind();
    hide StartsMcp, TimeoutLine, TuiTitle;
  }

  lemma {:induction false} AddIff(table: string, lines: seq<Line>, needs: Needs)
    ensures Picked(StrayPick(), table, AddTimeouts(lines, needs)) == Picked(StrayPick(), table, lines) <==> RepairsLand(lines, needs)
    ensures |Picked(StrayPick(), table, lines)| <= |Picked(StrayPick(), table, AddTimeouts(lines, needs))|
    decreases |lines|
  {
    if lines == [] {
      NothingAdded(needs);
    } else {
      hide KindOf, Trim, Picked, TableAfter, StartsMcp, AddTimeouts, FirstPart, RepairsLand, IsPart, TimeoutLine;
      var q := StrayPick();
      var head, rest := lines[..FirstPart(lines)], lines[FirstPart(lines)..];
      PartOf(lines);
      AddPart(head, rest, needs);
      LandsPart(head, rest, needs);
      StrayPickIs();
      var t := TableAfter(table, head);
      AddIff(t, rest, needs);
      PickedPartAdded(q, table, head, rest, needs);
      PickedConcat(q, table, head, rest);
      PickedConcat(q, table, PartAdded(head, needs), AddTimeouts(rest, needs));
      if StartsMcp(head[0]) { SectionEnd(head, rest); }
      hide StrayPick;
      GrownIff(Picked(q, table, head), Picked(q, table, PartAdded(head, needs)), Picked(q, t, rest), Picked(q, t, AddTimeouts(rest, needs)));
    }
  }

  /** Two lists that only grow stay equal together exactly when each does. */
  lemma GrownIff(a: seq<Entry>, b: seq<Entry>, x: seq<Entry>, y: seq<Entry>)
    requires a <= b && |x| <= |y|
    ensures b + y == a + x <==> b == a && y == x
  {
    if b + y == a + x {
      assert |b| == |a|;
      assert (b + y)[|b|..] == y && (a + x)[|a|..] == x;
    }
  }

  /** Without bracket lines that are no headers every timeout lands in its own table. */
  lemma {:induction false} PlainRepairsLand(lines: seq<Line>, needs: Needs)
    requires NoOpeners(lines)
    ensures RepairsLand(lines, needs)
    decreases |lines|
  {
    hide KindOf, Trim, StartsMcp, SectionLength, Opens, TableAfter;
    if lines != [] {
      if StartsMcp(lines[0]) {
        var n := SectionLength(lines);
        SectionIs(lines);
        TailNoOpens(lines, n);
        PlainLands(lines[..n]);
        PartNoOpeners(lines, n);
        PlainRepairsLand(lines[n..], needs);
      } else {
        PartNoOpeners(lines, 1);
        PlainRepairsLand(lines[1..], needs);
      }
    }
  }

  lemma PlainLands(section: seq<Line>)
    requires section != [] && StartsMcp(section[0]) && NoOpens(section[1..])
    ensures Lands(section)
  {
    McpOpens(section[0]);
    McpTrim(section[0]);
    hide KindOf, Trim, StartsMcp;
    TableAfterNone(Trim(section[0]), section[1..]);
  }

  lemma McpTrim(l: Line)
    requires StartsMcp(l)
    ensures StartsMcp(Trim(l))
  {
    var p := "[mcp_servers.";
    var t := TrimStart(l);
    TrimCommutes(l);
    TrimEndCuts(t);
    var r := TrimEnd(t);
    assert p[|p| - 1] == '.' && !IsSpace('.') && !IsSpace('[');
    VisibleAt(t, |r|, |p| - 1);
    assert t[|p| - 1] == '.';
    assert p <= r;
    TrimStartOfVisible(r);
  }
}
