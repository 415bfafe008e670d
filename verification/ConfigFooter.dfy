/** The managed blocks at the end of config.toml: what the timeout repair does to them, and that
    stripping them gives back the lines in front. */
module ConfigFooter {
  import opened Text
  import opened ConfigLines
  import opened ConfigSections
  import opened ConfigTui
  import opened ConfigMarkers
  import opened ConfigTimeouts
  import opened ConfigRoot
  import opened ConfigStable
  import opened ConfigMerge
  import opened ConfigSettled

  // ----- the fixed lines -----

  lemma RemarkKind(l: Line)
    requires l != "" && l[0] == '#'
    ensures KindOf(l) == Remark && !Opens(l) && !IsBlank(l)
  {
    assert !IsSpace('#');
    TrimStartEndHead(l);
  }

  lemma FixedRemarks()
    ensures RuleLine[0] == '#' && ("# " + OmcpMarker)[0] == '#' && ("# " + RegistryMarker)[0] == '#'
    ensures ManagedNote[0] == '#' && RegistryNote[0] == '#' && TuiNote[0] == '#' && OmcpEnd[0] == '#' && RegistryEnd[0] == '#'
  {
  }

  /** Without "(" and "E" a line holds none of the block texts. */
  lemma PlainByChars(l: Line)
    requires '(' !in l && 'E' !in l
    ensures Plain(l)
  {
    hide Contains;
    MarkerChars();
    EndChars();
    LacksChar(l, OmcpMarker, '(');
    LacksChar(l, RegistryMarker, '(');
    LacksChar(l, OmcpEnd, 'E');
    LacksChar(l, RegistryEnd, 'E');
  }

  lemma EndChars()
    ensures 'E' in OmcpEnd && 'E' in RegistryEnd
  {
    assert OmcpEnd[2] == 'E' && RegistryEnd[2] == 'E';
  }

  lemma RulePlain()
    ensures Plain(RuleLine) && IsRule(RuleLine)
  {
    PlainByChars(RuleLine);
    assert RuleLine[|RuleLine| - 1] == '=';
    assert !IsSpace('#') && !IsSpace('=');
    TrimVisible(RuleLine);
  }

  lemma NotesPlain()
    ensures Plain(ManagedNote) && Plain(RegistryNote) && Plain("")
  {
    hide Contains;
    NotePartsPlain();
    PlainByChars(ManagedNote);
    PlainByChars(RegistryNote);
    PlainByChars("");
  }

  predicate NoParts(text: string) { '(' !in text && 'E' !in text }

  lemma NotePartsPlain()
    ensures NoParts("# Managed by omcp setup - ") && NoParts("manual edits preserved on next setup")
            && NoParts("edit the registry file instead")
  {
    ManagedByPlain();
    ManualEditsPlain();
    EditRegistryPlain();
  }

  lemma ManagedByPlain() ensures NoParts("# Managed by omcp setup - ") {}
  lemma ManualEditsPlain() ensures NoParts("manual edits preserved on next setup") {}
  lemma EditRegistryPlain() ensures NoParts("edit the registry file instead") {}

  lemma TuiNotePlain()
    ensures Plain(TuiNote)
  {
    hide Contains;
    TuiNoteChars();
    EndChars();
    assert OmcpMarker[1] == 'h' && RegistryMarker[1] == 'h';
    LacksChar(TuiNote, OmcpMarker, 'h');
    LacksChar(TuiNote, RegistryMarker, 'h');
    LacksChar(TuiNote, OmcpEnd, 'E');
    LacksChar(TuiNote, RegistryEnd, 'E');
  }

  lemma TuiNoteChars()
    ensures 'h' !in TuiNote && 'E' !in TuiNote
  {
    assert 'h' !in "# OMCP TUI StatusLine " && 'E' !in "# OMCP TUI StatusLine ";
    assert 'h' !in "(Copilot CLI v0.101.0+)" && 'E' !in "(Copilot CLI v0.101.0+)";
  }

  lemma SettingParts(key: string, value: string)
    requires NoParts(key) && NoParts(value)
    ensures NoParts(SettingLine(key, value))
  {
  }

  lemma TuiLinesPlain()
    ensures Plain(TuiTitle) && Plain(StatusLine) && Plain(TimeoutLine)
  {
    hide Contains;
    StatusParts();
    SettingParts(StatusKey, StatusValue);
    SettingParts(TimeoutKey, "15");
    PlainByChars(TuiTitle);
    PlainByChars(StatusLine);
    PlainByChars(TimeoutLine);
  }

  lemma StatusParts()
    ensures NoParts(StatusValue) && NoParts(StatusKey)
  {
    StatusModelParts();
    StatusContextParts();
    StatusTokensParts();
    StatusLimitsParts();
  }

  lemma StatusModelParts() ensures NoParts(StatusModel) {}
  lemma StatusContextParts() ensures NoParts(StatusContext) {}
  lemma StatusTokensParts() ensures NoParts(StatusTokens) {}
  lemma StatusLimitsParts() ensures NoParts(StatusLimits) {}

  lemma {:induction false} HoldsSuffix(a: string, m: string)
    ensures Contains(a + m, m)
  {
    OccursIff(a + m, m, |a|);
    assert (a + m)[|a|..] == m;
    IndexOfFirst(a + m, m, 0);
  }

  lemma NeverFound(l: Line, m: string, from: nat)
    requires !Contains(l, m)
    ensures IndexOf(l, m, from) < 0
  {
    hide OccursAt;
    IndexOfFirst(l, m, from);
    IndexOfFirst(l, m, 0);
  }

  lemma OmcpMarkerLine()
    ensures Contains("# " + OmcpMarker, OmcpMarker) && !Contains("# " + OmcpMarker, OmcpEnd)
  {
    HoldsSuffix("# ", OmcpMarker);
    assert 'E' !in "# " + OmcpMarker && OmcpEnd[2] == 'E';
    LacksChar("# " + OmcpMarker, OmcpEnd, 'E');
    hide Contains;
  }

  lemma RegistryMarkerLine()
    ensures Contains("# " + RegistryMarker, RegistryMarker) && !Contains("# " + RegistryMarker, RegistryEnd)
    ensures !Contains("# " + RegistryMarker, OmcpMarker)
  {
    hide Contains;
    HoldsSuffix("# ", RegistryMarker);
    RegistryMarkerChars();
    EndChars();
    LacksChar("# " + RegistryMarker, RegistryEnd, 'E');
    assert OmcpMarker[24] == 'f';
    LacksChar("# " + RegistryMarker, OmcpMarker, 'f');
  }

  lemma RegistryMarkerChars()
    ensures 'E' !in RegistryMarker && 'f' !in RegistryMarker
  {
    assert 'E' !in "oh-my-copilot (OMCP) " && 'f' !in "oh-my-copilot (OMCP) ";
    assert 'E' !in "Shared MCP Registry Sync" && 'f' !in "Shared MCP Registry Sync";
  }

  lemma EndLines()
    ensures Contains(OmcpEnd, OmcpEnd) && Contains(RegistryEnd, RegistryEnd) && !Contains(RegistryEnd, OmcpMarker)
  {
    HoldsSuffix("", OmcpEnd);
    HoldsSuffix("", RegistryEnd);
    assert "" + OmcpEnd == OmcpEnd && "" + RegistryEnd == RegistryEnd;
    assert '(' !in OmcpEnd && '(' !in " shared MCP registry sync";
    MarkerChars();
    LacksChar(RegistryEnd, OmcpMarker, '(');
    hide Contains;
  }

  // ----- gaps -----

  lemma InsertInSnoc(g: seq<Line>, l: Line)
    ensures InsertIn(g + [l]) == if IsBlank(l) then InsertIn(g) + [l] else (g + [l]) + [TimeoutLine]
  {
    assert (g + [l])[..|g|] == g;
  }

  lemma {:induction false} InsertInConcat(a: seq<Line>, g: seq<Line>)
    requires HasVisible(g)
    ensures InsertIn(a + g) == a + InsertIn(g)
    decreases |g|
  {
    hide KindOf, InsertIn;
    var front, l := g[..|g| - 1], g[|g| - 1];
    assert g == front + [l];
    InsertInSnoc(front, l);
    InsertInSnoc(a + front, l);
    Assoc(a, front, [l]);
    if IsBlank(l) {
      InsertInConcat(a, front);
      Assoc(a, InsertIn(front), [l]);
    } else {
      Assoc(a, g, [TimeoutLine]);
    }
  }

  lemma {:induction false} InsertInLines(g: seq<Line>, l: Line)
    ensures l in InsertIn(g) ==> l in g || l == TimeoutLine
  {
    hide KindOf;
    if g != [] {
      var n := |g| - 1;
      assert g == g[..n] + [g[n]];
      InsertInLines(g[..n], l);
    }
  }

  /** Lines without headers at the end are left alone by the inside repair. */
  lemma {:induction false} InsideGap(a: seq<Line>, gap: seq<Line>, needs: Needs)
    requires NoOpens(gap) && HasVisible(gap)
    ensures AddInside(a + gap, needs) == AddInside(a, needs) + gap
    decreases |a|
  {
    GapNoHeaders(gap);
    if a == [] {
      assert a + gap == gap;
      AddNone(gap, needs);
      assert AddInside(a, needs) == [];
    } else {
      hide KindOf, StartsMcp, AddTimeouts, AddInside, OpenSection, NoOpens, NoHeaders, HasVisible, FirstPart, PartAdded;
      var head, rest := a[..FirstPart(a)], a[FirstPart(a)..];
      PartOf(a);
      AddPart(head, rest, needs);
      if StartsMcp(head[0]) && rest == [] {
        assert a == head;
        InsideWhole(a, gap, needs);
      } else {
        PartBefore(head, rest, gap);
        AddPart(head, rest + gap, needs);
        Assoc(head, rest, gap);
        InsideGap(rest, gap, needs);
        Assoc(PartAdded(head, needs), AddInside(rest, needs), gap);
      }
    }
  }

  lemma InsideWhole(a: seq<Line>, gap: seq<Line>, needs: Needs)
    requires a != [] && NoHeaders(gap) && StartsMcp(a[0]) && NoHeaders(a[1..])
    ensures AddInside(a + gap, needs) == a + gap
  {
    hide KindOf, StartsMcp, AddInside;
    var whole := a + gap;
    assert whole[1..] == a[1..] + gap;
    AddPart(whole, [], needs);
    assert whole + [] == whole;
  }

  lemma {:induction false} ManagedUntouched(lines: seq<Line>, needs: Needs)
    requires Sensible(needs) && forall l :: l in lines && StartsMcp(l) ==> StartsOmcp(l)
    ensures AddTimeouts(lines, needs) == lines
    decreases |lines|
  {
    if lines == [] {
    } else {
      hide KindOf, StartsMcp, StartsOmcp, AddTimeouts, FirstPart, Visible;
      var head, rest := lines[..FirstPart(lines)], lines[FirstPart(lines)..];
      PartOf(lines);
      AddPart(head, rest, needs);
      assert head[0] in lines;
      ManagedUntouched(rest, needs);
    }
  }

  // ----- the two blocks -----

  /** A block in two parts: up to its first header, and from there on. */
  function BlockGap(w: Written): seq<Line> {
    [""] + [w.rule] + [w.marker] + w.middle[..BodyLength(w.middle)]
  }

  function BlockRest(w: Written): seq<Line> {
    w.middle[BodyLength(w.middle)..] + [w.end] + w.tail
  }

  lemma BlockParts(w: Written)
    ensures WrittenLines(w) == BlockGap(w) + BlockRest(w)
  {
    hide BodyLength;
    var n := BodyLength(w.middle);
    assert w.middle == w.middle[..n] + w.middle[n..];
  }

  predicate BlockOk(w: Written) {
    && KindOf(w.rule).Remark? && KindOf(w.marker).Remark? && NoOpeners(w.middle) && HasHeader(w.middle)
    && w.middle[0..] != [] && !IsBlank(w.middle[0]) && !IsHeader(w.middle[0])
  }

  lemma GapOk(w: Written)
    requires BlockOk(w)
    ensures NoOpens(BlockGap(w)) && HasVisible(BlockGap(w)) && StartsSection(BlockRest(w)) && BlockRest(w) != []
    ensures BodyLength(w.middle) < |w.middle| && HasVisible(w.middle[..BodyLength(w.middle)])
  {
    hide KindOf;
    BodyLengthIs(w.middle);
    var n := BodyLength(w.middle);
    HeaderEnds(w.middle);
    hide BodyLength;
    EmptyKind();
    assert w.middle[..n][0] == w.middle[0];
    assert w.middle[0] in w.middle[..n];
    forall l | l in BlockGap(w) ensures !Opens(l) {
      if l in w.middle[..n] { assert l in w.middle; }
    }
    assert w.rule in BlockGap(w);
  }

  lemma {:induction false} BodyLengthShort(lines: seq<Line>, i: nat)
    requires i < |lines| && IsHeader(lines[i])
    ensures BodyLength(lines) <= i
  {
    hide KindOf;
    if i > 0 && !IsHeader(lines[0]) {
      BodyLengthShort(lines[1..], i - 1);
    }
  }

  lemma HeaderEnds(lines: seq<Line>)
    requires HasHeader(lines)
    ensures BodyLength(lines) < |lines|
    ensures !IsHeader(lines[0]) ==> BodyLength(lines) > 0
  {
    hide KindOf;
    var h :| h in lines && IsHeader(h);
    var i :| 0 <= i < |lines| && lines[i] == h;
    BodyLengthShort(lines, i);
  }

  /** The middle of the block once a timeout of the section in front of it was added. */
  function OpenedMiddle(open: seq<Line>, w: Written, needs: Needs): seq<Line> {
    var n := BodyLength(w.middle);
    (if open != [] && needs(open + BlockGap(w)) then InsertIn(w.middle[..n]) else w.middle[..n]) + w.middle[n..]
  }

  lemma AddedBlockGap(open: seq<Line>, w: Written, needs: Needs)
    requires BlockOk(w)
    ensures AddedGap(open, BlockGap(w), needs) + BlockRest(w)
         == WrittenLines(w.(middle := OpenedMiddle(open, w, needs)))
  {
    GapOk(w);
    hide KindOf, BodyLength, InsertIn, NoOpeners, HasHeader;
    var n := BodyLength(w.middle);
    var head := [""] + [w.rule] + [w.marker];
    var g := w.middle[..n];
    InsertInConcat(head, g);
    var g2 := if open != [] && needs(open + BlockGap(w)) then InsertIn(g) else g;
    assert AddedGap(open, BlockGap(w), needs) == head + g2;
    BlockAssoc(head, g2, w.middle[n..], [w.end], w.tail);
  }

  lemma BlockAssoc(a: seq<Line>, b: seq<Line>, c: seq<Line>, d: seq<Line>, e: seq<Line>)
    ensures (a + b) + (c + d + e) == a + (b + c) + d + e
  {
  }

  lemma OpenedLines(open: seq<Line>, w: Written, needs: Needs)
    ensures forall l :: l in OpenedMiddle(open, w, needs) ==> l in w.middle || l == TimeoutLine
  {
    hide BodyLength;
    var n := BodyLength(w.middle);
    forall l | l in OpenedMiddle(open, w, needs) ensures l in w.middle || l == TimeoutLine {
      InsertInLines(w.middle[..n], l);
    }
  }

  lemma MiddleLines(s: Setup, withTui: bool)
    requires ManagedOk(s.managed)
    ensures forall l :: l in TablesMiddle(s, withTui) ==>
                          Plain(l) && !KindOf(l).Opener? && (StartsMcp(l) ==> StartsOmcp(l))
  {
    hide KindOf, Plain, StartsMcp, StartsOmcp, SettingLine, HeaderLine;
    FixedRemarks();
    RemarkKind(RuleLine);
    RemarkKind(ManagedNote);
    RemarkKind(TuiNote);
    EmptyKind();
    RulePlain();
    NotesPlain();
    TuiNotePlain();
    TuiLinesPlain();
    TuiKinds();
    forall l ensures !Opens(l) ==> !StartsMcp(l) { if StartsMcp(l) { McpOpens(l); } }
    hide Opens, HasHeader, RuleLine, ManagedNote, TuiNote, TuiTitle, StatusLine;
  }

  lemma TablesOk(s: Setup, withTui: bool)
    requires ManagedOk(s.managed)
    ensures BlockOk(Tables(s, withTui))
    ensures forall l :: l in TablesMiddle(s, withTui) ==> Plain(l) && (StartsMcp(l) ==> StartsOmcp(l))
  {
    hide KindOf, Plain, StartsMcp, StartsOmcp, Opens, TuiPart;
    MiddleLines(s, withTui);
    FixedRemarks();
    RemarkKind(RuleLine);
    RemarkKind("# " + OmcpMarker);
    RemarkKind(ManagedNote);
    hide RuleLine, ManagedNote, OmcpMarker;
    var m := TablesMiddle(s, withTui);
    var h :| h in s.managed && IsHeader(h);
    assert h in m;
    assert m[0] == ManagedNote;
  }

  lemma TuiKinds()
    ensures !KindOf(TuiTitle).Opener? && !Opens(StatusLine) && !StartsMcp(TuiTitle) && !KindOf(StatusLine).Opener?
  {
    hide KindOf, SettingLine, StatusLine, TrimStart;
    TuiTitleKind();
    StatusKind();
    HeaderLineKind("tui");
    assert TuiTitle[1] == 't' && "[mcp_servers."[1] == 'm';
  }

  lemma TablesRest(s: Setup, withTui: bool)
    requires ManagedOk(s.managed) && Sensible(s.needs)
    ensures AddTimeouts(BlockRest(Tables(s, withTui)), s.needs) == BlockRest(Tables(s, withTui))
  {
    hide KindOf, Contains, StartsMcp, StartsOmcp, Opens, BodyLength, Sensible, ManagedOk, TablesMiddle;
    TablesOk(s, withTui);
    var w := Tables(s, withTui);
    FixedRemarks();
    RemarkKind(OmcpEnd);
    EmptyKind();
    forall l | l in BlockRest(w) && StartsMcp(l) ensures StartsOmcp(l) {
      if l !in TablesMiddle(s, withTui) {
        assert l == OmcpEnd || l == "";
        NotMcpBlank(l);
      }
    }
    ManagedUntouched(BlockRest(w), s.needs);
  }

  lemma NotMcpBlank(l: Line)
    requires KindOf(l).Remark? || KindOf(l).Empty?
    ensures !StartsMcp(l)
  {
    if StartsMcp(l) { McpOpens(l); }
  }

  /** The tables block behind a section that may have been left open. */
  function TablesBehind(s: Setup, withTui: bool, open: seq<Line>): Written {
    Tables(s, withTui).(middle := OpenedMiddle(open, Tables(s, withTui), s.needs))
  }

  /** The repair of a file that ends in the tables block. */
  lemma TablesAdded(s: Setup, withTui: bool, front: seq<Line>)
    requires ManagedOk(s.managed) && Sensible(s.needs)
    ensures AddTimeouts(front + WrittenLines(Tables(s, withTui)), s.needs)
         == AddInside(front, s.needs) + WrittenLines(TablesBehind(s, withTui, OpenSection(front)))
  {
    hide KindOf, Contains, BodyLength, Sensible, ManagedOk, Tables, AddTimeouts, AddInside, OpenSection, WrittenLines, BlockGap, BlockRest, NoOpens, HasVisible, StartsSection, BlockOk, AddedGap, OpenedMiddle;
    var w := Tables(s, withTui);
    TablesOk(s, withTui);
    BlockParts(w);
    GapOk(w);
    Assoc(front, BlockGap(w), BlockRest(w));
    AddConcat(front + BlockGap(w), BlockRest(w), s.needs);
    AddGap(front, BlockGap(w), s.needs);
    TablesRest(s, withTui);
    Assoc(AddInside(front, s.needs), AddedGap(OpenSection(front), BlockGap(w), s.needs), BlockRest(w));
    AddedBlockGap(OpenSection(front), w, s.needs);
  }

  lemma TablesWritten(s: Setup, withTui: bool, open: seq<Line>)
    requires ManagedOk(s.managed)
    ensures IsWritten(TablesBehind(s, withTui, open), OmcpMarks)
  {
    hide KindOf, Contains, TablesMiddle, OpenedMiddle, IndexOf, ManagedOk, StartsMcp, StartsOmcp, IsRule, BlockOk;
    var w := Tables(s, withTui);
    TablesOk(s, withTui);
    OpenedLines(open, w, s.needs);
    TuiLinesPlain();
    RulePlain();
    OmcpMarkerLine();
    NeverFoundAt("# " + OmcpMarker, OmcpEnd, OmcpMarker);
    EndLines();
    OneBlank();
  }

  lemma NeverFoundAt(l: Line, m: string, other: string)
    requires !Contains(l, m) && Contains(l, other)
    ensures IndexOf(l, m, IndexOf(l, other, 0)) < 0
  {
    NeverFound(l, m, IndexOf(l, other, 0));
  }
}
