/** The default startup timeout that src/config/generator.ts adds to launcher-backed MCP servers. */
module ConfigTimeouts {
  import opened Text
  import opened ConfigLines
  import opened ConfigSections
  import opened ConfigTui
  import opened ConfigMarkers

  const TimeoutKey := "startup_timeout_sec"
  const TimeoutLine := SettingLine(TimeoutKey, "15")

  /** `/^\s*\[mcp_servers\./`. */
  predicate StartsMcp(l: Line) { "[mcp_servers." <= TrimStart(l) }

  predicate StartsOmcp(l: Line) { "[mcp_servers.omcp_" <= TrimStart(l) }

  /** The decision taken on the parsed section: a launcher command and no startup timeout. */
  type Needs = seq<Line> -> bool

  /** The timeout goes below the last visible line of the section, its header at the earliest. */
  function WithTimeout(section: seq<Line>): seq<Line> {
    if |section| <= 1 then section + [TimeoutLine]
    else
      var n := |section| - 1;
      if IsBlank(section[n]) then WithTimeout(section[..n]) + [section[n]] else section + [TimeoutLine]
  }

  function Repaired(section: seq<Line>, needs: Needs): seq<Line> {
    if needs(section) then WithTimeout(section) else section
  }

  /** Length of the section that starts at the first line. */
  function SectionLength(lines: seq<Line>): (n: nat)
    requires lines != []
    ensures 0 < n <= |lines|
  {
    1 + BodyLength(lines[1..])
  }

  function AddTimeouts(lines: seq<Line>, needs: Needs): seq<Line> {
    if lines == [] then []
    else if StartsMcp(lines[0]) then
      var n := SectionLength(lines);
      Repaired(lines[..n], needs) + AddTimeouts(lines[n..], needs)
    else [lines[0]] + AddTimeouts(lines[1..], needs)
  }

  /** The same, but a section that reaches the end of the lines is left alone. */
  function AddInside(lines: seq<Line>, needs: Needs): seq<Line> {
    if lines == [] then []
    else if StartsMcp(lines[0]) then
      var n := SectionLength(lines);
      if n == |lines| then lines else Repaired(lines[..n], needs) + AddInside(lines[n..], needs)
    else [lines[0]] + AddInside(lines[1..], needs)
  }

  /** The MCP section that reaches the end of the lines, if there is one. */
  function OpenSection(lines: seq<Line>): seq<Line> {
    if lines == [] then []
    else if StartsMcp(lines[0]) then
      var n := SectionLength(lines);
      if n == |lines| then lines else OpenSection(lines[n..])
    else OpenSection(lines[1..])
  }

  predicate NoOpeners(lines: seq<Line>) { forall l :: l in lines ==> !KindOf(l).Opener? }
  predicate NoOpens(lines: seq<Line>) { forall l :: l in lines ==> !Opens(l) }

  /** What is asked of the TOML decision: it looks at visible lines only, the managed servers never
      need the repair, and a section that holds one table, with or without a comment behind its header,
      does not need it twice. */
  ghost predicate Sensible(needs: Needs) {
    && (forall a, b :: Visible(a) == Visible(b) ==> needs(a) == needs(b))
    && (forall s: seq<Line> :: s != [] && needs(s) ==> !StartsOmcp(s[0]))
    && (forall s: seq<Line> :: s != [] && needs(s) && NoOpens(s[1..]) ==> !needs(WithTimeout(s)))
  }

  // ----- facts about single lines -----

  lemma TimeoutKind()
    ensures Sets(TimeoutLine, TimeoutKey) && TrimEnd(TimeoutLine) == TimeoutLine
  {
    TimeoutBare();
    SettingLineKind(TimeoutKey, "15");
    hide KindOf, SettingLine;
  }

  lemma TimeoutBare()
    ensures BareKey(TimeoutKey) && !IsSpace('5')
  {
  }

  lemma McpOpens(l: Line)
    requires StartsMcp(l)
    ensures Opens(l)
  {
    var t := TrimStart(l);
    assert t[0] == "[mcp_servers."[0];
    TrimCommutes(l);
    OpensByStart(t);
    KindIgnoresTrim(l);
  }

  lemma OpensByStart(t: string)
    requires t != "" && t[0] == '['
    ensures Opens(t)
  {
    assert !IsSpace('[');
    TrimEndKeepsHead(t);
    assert Trim(t) == TrimEnd(t);
  }

  lemma {:induction false} TrimEndKeepsHead(t: string)
    requires t != "" && !IsSpace(t[0])
    ensures TrimEnd(t) != "" && TrimEnd(t)[0] == t[0]
  {
    hide IsSpace;
    if IsSpace(t[|t| - 1]) {
      TrimEndKeepsHead(t[..|t| - 1]);
    }
  }

  lemma TimeoutStartsNothing()
    ensures !StartsMcp(TimeoutLine) && !IsBlank(TimeoutLine) && !Opens(TimeoutLine)
  {
    TimeoutKind();
    if StartsMcp(TimeoutLine) {
      McpOpens(TimeoutLine);
    }
  }

  // ----- sections and concatenation -----

  /** The first part of the lines: a whole MCP section, or one other line. */
  function FirstPart(lines: seq<Line>): (n: nat)
    requires lines != []
    ensures 0 < n <= |lines|
  {
    if StartsMcp(lines[0]) then SectionLength(lines) else 1
  }

  predicate IsPart(head: seq<Line>, rest: seq<Line>) {
    head != [] && if StartsMcp(head[0]) then NoHeaders(head[1..]) && StartsSection(rest) else |head| == 1
  }

  function PartAdded(head: seq<Line>, needs: Needs): seq<Line>
    requires head != []
  {
    if StartsMcp(head[0]) then Repaired(head, needs) else head
  }

  lemma PartOf(lines: seq<Line>)
    requires lines != []
    ensures var n := FirstPart(lines);
            IsPart(lines[..n], lines[n..]) && lines == lines[..n] + lines[n..]
  {
    hide KindOf, SectionLength, NoHeaders, StartsSection;
    if StartsMcp(lines[0]) {
      SectionIs(lines);
    }
  }

  lemma AddPart(head: seq<Line>, rest: seq<Line>, needs: Needs)
    requires IsPart(head, rest)
    ensures AddTimeouts(head + rest, needs) == PartAdded(head, needs) + AddTimeouts(rest, needs)
    ensures AddInside(head + rest, needs) == if StartsMcp(head[0]) && rest == [] then head
                                              else PartAdded(head, needs) + AddInside(rest, needs)
    ensures OpenSection(head + rest) == if StartsMcp(head[0]) && rest == [] then head else OpenSection(rest)
  {
    hide KindOf, SectionLength, NoHeaders, StartsSection, Repaired, StartsMcp;
    assert (head + rest)[0] == head[0];
    if StartsMcp(head[0]) {
      SectionLengthOf(head, rest);
    } else {
      assert (head + rest)[1..] == rest && head == [head[0]];
    }
    if rest == [] {
      assert head + rest == head;
    }
  }

  lemma Assoc(a: seq<Line>, b: seq<Line>, c: seq<Line>)
    ensures a + (b + c) == (a + b) + c
  {
  }

  lemma {:induction false} AddConcat(a: seq<Line>, b: seq<Line>, needs: Needs)
    requires StartsSection(b)
    ensures AddTimeouts(a + b, needs) == AddTimeouts(a, needs) + AddTimeouts(b, needs)
    ensures b != [] ==> AddInside(a + b, needs) == AddTimeouts(a, needs) + AddInside(b, needs)
    decreases |a|
  {
    if a == [] {
      assert a + b == b;
      assert AddTimeouts(a, needs) == [];
    } else {
      hide KindOf, StartsMcp, StartsSection, NoHeaders, AddTimeouts, AddInside, FirstPart, PartAdded;
      var head, rest := a[..FirstPart(a)], a[FirstPart(a)..];
      PartOf(a);
      PartGrows(head, rest, b);
      AddConcat(rest, b, needs);
      AddPart(head, rest, needs);
      AddPart(head, rest + b, needs);
      Assoc(head, rest, b);
      Assoc(PartAdded(head, needs), AddTimeouts(rest, needs), AddTimeouts(b, needs));
      Assoc(PartAdded(head, needs), AddTimeouts(rest, needs), AddInside(b, needs));
    }
  }

  lemma PartGrows(head: seq<Line>, rest: seq<Line>, b: seq<Line>)
    requires IsPart(head, rest) && StartsSection(b)
    ensures IsPart(head, rest + b)
  {
    hide KindOf, StartsMcp;
    if rest == [] { assert rest + b == b; }
  }

  /** Where the timeout lands when visible lines without headers follow the section. */
  function InsertIn(gap: seq<Line>): seq<Line> {
    if gap == [] then [TimeoutLine]
    else
      var n := |gap| - 1;
      if IsBlank(gap[n]) then InsertIn(gap[..n]) + [gap[n]] else gap + [TimeoutLine]
  }

  predicate HasVisible(lines: seq<Line>) { exists l :: l in lines && !IsBlank(l) }

  lemma {:induction false} WithTimeoutGap(section: seq<Line>, gap: seq<Line>)
    requires section != [] && HasVisible(gap)
    ensures WithTimeout(section + gap) == section + InsertIn(gap)
    decreases |gap|
  {
    hide KindOf;
    var n := |gap| - 1;
    assert gap == gap[..n] + [gap[n]];
    assert (section + gap)[|section| + n] == gap[n];
    assert (section + gap)[..|section| + n] == section + gap[..n];
    if IsBlank(gap[n]) {
      WithTimeoutGap(section, gap[..n]);
      assert section + (InsertIn(gap[..n]) + [gap[n]]) == (section + InsertIn(gap[..n])) + [gap[n]];
    } else {
      assert section + (gap + [TimeoutLine]) == (section + gap) + [TimeoutLine];
    }
  }

  function AddedGap(open: seq<Line>, gap: seq<Line>, needs: Needs): seq<Line> {
    if open != [] && needs(open + gap) then InsertIn(gap) else gap
  }

  /** Lines without a header only extend the section that is open in front of them. */
  lemma {:induction false} AddGap(a: seq<Line>, gap: seq<Line>, needs: Needs)
    requires NoOpens(gap) && HasVisible(gap)
    ensures AddTimeouts(a + gap, needs) == AddInside(a, needs) + AddedGap(OpenSection(a), gap, needs)
    decreases |a|
  {
    GapNoHeaders(gap);
    if a == [] {
      assert a + gap == gap;
      AddNone(gap, needs);
      assert AddInside(a, needs) == [] && OpenSection(a) == [];
    } else {
      hide KindOf, StartsMcp, AddTimeouts, AddInside, OpenSection, NoOpens, NoHeaders, HasVisible, AddedGap, FirstPart, PartAdded;
      var head, rest := a[..FirstPart(a)], a[FirstPart(a)..];
      PartOf(a);
      AddPart(head, rest, needs);
      if StartsMcp(head[0]) && rest == [] {
        assert a == head;
        AddLast(a, gap, needs);
      } else {
        PartBefore(head, rest, gap);
        AddPart(head, rest + gap, needs);
        Assoc(head, rest, gap);
        AddGap(rest, gap, needs);
        Assoc(PartAdded(head, needs), AddInside(rest, needs), AddedGap(OpenSection(a), gap, needs));
      }
    }
  }

  lemma PartBefore(head: seq<Line>, rest: seq<Line>, gap: seq<Line>)
    requires IsPart(head, rest) && !(StartsMcp(head[0]) && rest == []) && HasVisible(gap)
    ensures IsPart(head, rest + gap) && rest + gap != []
  {
    hide KindOf, StartsMcp;
  }

  lemma AddLast(a: seq<Line>, gap: seq<Line>, needs: Needs)
    requires a != [] && HasVisible(gap) && NoHeaders(gap) && StartsMcp(a[0]) && NoHeaders(a[1..])
    ensures AddTimeouts(a + gap, needs) == a + AddedGap(a, gap, needs)
  {
    hide KindOf, StartsMcp, SectionLength, WithTimeout, InsertIn, AddTimeouts;
    var whole := a + gap;
    assert whole[1..] == a[1..] + gap;
    AddPart(whole, [], needs);
    assert whole + [] == whole;
    NothingAdded(needs);
    WithTimeoutGap(a, gap);
    assert PartAdded(whole, needs) + [] == PartAdded(whole, needs);
  }

  lemma NothingAdded(needs: Needs)
    ensures AddTimeouts([], needs) == []
  {
  }

  lemma GapNoHeaders(gap: seq<Line>)
    requires NoOpens(gap)
    ensures NoHeaders(gap)
  {
  }

  lemma {:induction false} AddNone(gap: seq<Line>, needs: Needs)
    requires NoOpens(gap)
    ensures AddTimeouts(gap, needs) == gap && AddInside(gap, needs) == gap && OpenSection(gap) == []
  {
    hide KindOf, Opens, StartsMcp;
    if gap != [] {
      assert gap == [gap[0]] + gap[1..];
      assert gap[0] in gap;
      if StartsMcp(gap[0]) {
        McpOpens(gap[0]);
        assert false;
      }
      AddNone(gap[1..], needs);
    }
  }

  // ----- what a repaired section looks like -----

  lemma {:induction false} WithTimeoutIs(section: seq<Line>)
    requires section != []
    ensures var r := WithTimeout(section);
            r != [] && r[0] == section[0] && forall l :: l in r <==> l in section || l == TimeoutLine
    decreases |section|
  {
    hide KindOf;
    if |section| > 1 {
      var n := |section| - 1;
      assert section == section[..n] + [section[n]];
      if IsBlank(section[n]) {
        WithTimeoutIs(section[..n]);
      }
    }
  }

  lemma RepairedSection(section: seq<Line>, needs: Needs)
    requires section != [] && NoHeaders(section[1..])
    ensures var r := Repaired(section, needs);
            r != [] && r[0] == section[0] && NoHeaders(r[1..]) && (forall l :: l in r ==> l in section || l == TimeoutLine)
  {
    hide KindOf;
    TimeoutKind();
    WithTimeoutIs(section);
    var r := Repaired(section, needs);
    assert section == [section[0]] + section[1..];
    if needs(section) {
      RepairedTail(section);
    }
  }

  lemma {:induction false} RepairedTail(section: seq<Line>)
    requires section != [] && NoHeaders(section[1..])
    ensures WithTimeout(section) != [] && NoHeaders(WithTimeout(section)[1..])
    decreases |section|
  {
    hide KindOf;
    TimeoutKind();
    if |section| <= 1 {
      assert (section + [TimeoutLine])[1..] == [TimeoutLine];
    } else {
      var n := |section| - 1;
      assert section[1..] == section[..n][1..] + [section[n]];
      if IsBlank(section[n]) {
        RepairedTail(section[..n]);
        assert (WithTimeout(section[..n]) + [section[n]])[1..] == WithTimeout(section[..n])[1..] + [section[n]];
      } else {
        assert (section + [TimeoutLine])[1..] == section[1..] + [TimeoutLine];
      }
    }
  }

  lemma SectionIs(lines: seq<Line>)
    requires lines != []
    ensures var n := SectionLength(lines);
            NoHeaders(lines[..n][1..]) && StartsSection(lines[n..]) && lines == lines[..n] + lines[n..]
  {
    hide KindOf, BodyLength;
    BodyLengthIs(lines[1..]);
    var n := SectionLength(lines);
    assert lines[..n][1..] == lines[1..][..n - 1] && lines[n..] == lines[1..][n - 1..];
  }

  lemma SectionLengthOf(section: seq<Line>, rest: seq<Line>)
    requires section != [] && NoHeaders(section[1..]) && StartsSection(rest)
    ensures SectionLength(section + rest) == |section|
    ensures (section + rest)[..|section|] == section && (section + rest)[|section|..] == rest
  {
    hide KindOf, BodyLength;
    assert (section + rest)[1..] == section[1..] + rest;
    BodyLengthSkips(section[1..], rest);
  }

  lemma {:induction false} InsideStarts(lines: seq<Line>, needs: Needs)
    requires StartsSection(lines)
    ensures StartsSection(AddInside(lines, needs)) && StartsSection(AddTimeouts(lines, needs))
    ensures AddInside(lines, needs) != [] <==> lines != []
  {
    hide KindOf, SectionLength, StartsMcp;
    if lines != [] && StartsMcp(lines[0]) {
      var n := SectionLength(lines);
      SectionIs(lines);
      RepairedSection(lines[..n], needs);
    }
  }

  // ----- doing it twice: which sections stay repaired -----

  /** The timeout ends up where the decision looks for it. */
  predicate Takes(section: seq<Line>, needs: Needs) { needs(section) ==> !needs(WithTimeout(section)) }

  /** Every section that is closed by a later header takes the timeout it is given. */
  predicate RepairsTake(lines: seq<Line>, needs: Needs) {
    if lines == [] then true
    else if StartsMcp(lines[0]) then
      var n := SectionLength(lines);
      n == |lines| || (Takes(lines[..n], needs) && RepairsTake(lines[n..], needs))
    else RepairsTake(lines[1..], needs)
  }

  /** How many timeouts the inside repair adds. */
  function Repairs(lines: seq<Line>, needs: Needs): nat {
    if lines == [] then 0
    else if StartsMcp(lines[0]) then
      var n := SectionLength(lines);
      if n == |lines| then 0 else (if needs(lines[..n]) then 1 else 0) + Repairs(lines[n..], needs)
    else Repairs(lines[1..], needs)
  }

  lemma TakesPart(head: seq<Line>, rest: seq<Line>, needs: Needs)
    requires IsPart(head, rest)
    ensures RepairsTake(head + rest, needs) <==>
            (StartsMcp(head[0]) && rest == []) || ((StartsMcp(head[0]) ==> Takes(head, needs)) && RepairsTake(rest, needs))
    ensures Repairs(head + rest, needs) == if StartsMcp(head[0]) && rest == [] then 0
                                           else (if StartsMcp(head[0]) && needs(head) then 1 else 0) + Repairs(rest, needs)
  {
    hide KindOf, SectionLength, NoHeaders, StartsSection, Takes, StartsMcp;
    assert (head + rest)[0] == head[0];
    if StartsMcp(head[0]) {
      SectionLengthOf(head, rest);
    } else {
      assert (head + rest)[1..] == rest && head == [head[0]];
    }
    if rest == [] {
      assert head + rest == head;
    }
  }

  lemma RepairedIsPart(head: seq<Line>, rest: seq<Line>, needs: Needs)
    requires IsPart(head, rest)
    ensures IsPart(PartAdded(head, needs), AddInside(rest, needs))
    ensures PartAdded(head, needs)[0] == head[0] && (AddInside(rest, needs) == [] <==> rest == [])
  {
    hide KindOf, StartsMcp, Repaired, AddInside;
    if StartsMcp(head[0]) {
      RepairedSection(head, needs);
      InsideStarts(rest, needs);
    } else {
      InsideEmpty(rest, needs);
    }
  }

  lemma InsideEmpty(lines: seq<Line>, needs: Needs)
    ensures AddInside(lines, needs) == [] <==> lines == []
  {
    hide KindOf, StartsMcp, SectionLength, BodyLength;
    if lines != [] && StartsMcp(lines[0]) {
      WithTimeoutIs(lines[..SectionLength(lines)]);
    }
  }

  /** The section left open is the same after the repair. */
  lemma {:induction false} OpenStays(lines: seq<Line>, needs: Needs)
    ensures OpenSection(AddInside(lines, needs)) == OpenSection(lines)
    decreases |lines|
  {
    if lines != [] {
      hide KindOf, StartsMcp, AddInside, OpenSection, FirstPart, PartAdded, IsPart;
      var head, rest := lines[..FirstPart(lines)], lines[FirstPart(lines)..];
      PartOf(lines);
      AddPart(head, rest, needs);
      if !(StartsMcp(head[0]) && rest == []) {
        RepairedIsPart(head, rest, needs);
        AddPart(PartAdded(head, needs), AddInside(rest, needs), needs);
        OpenStays(rest, needs);
      }
    }
  }

  /** After one repair, none is needed inside exactly when every timeout was taken. */
  lemma {:induction false} NoneLeftIff(lines: seq<Line>, needs: Needs)
    ensures Repairs(AddInside(lines, needs), needs) == 0 <==> RepairsTake(lines, needs)
    decreases |lines|
  {
    if lines != [] {
      hide KindOf, StartsMcp, AddInside, FirstPart, IsPart, Repairs, RepairsTake, WithTimeout;
      var head, rest := lines[..FirstPart(lines)], lines[FirstPart(lines)..];
      PartOf(lines);
      AddPart(head, rest, needs);
      TakesPart(head, rest, needs);
      if !(StartsMcp(head[0]) && rest == []) {
        RepairedIsPart(head, rest, needs);
        TakesPart(PartAdded(head, needs), AddInside(rest, needs), needs);
        NoneLeftIff(rest, needs);
      } else {
        assert head + rest == head;
      }
    }
  }

  /** Without a repair to make, the lines stay as they are; each repair adds one visible line. */
  lemma {:induction false} RepairsCount(lines: seq<Line>, needs: Needs)
    ensures |Visible(AddInside(lines, needs))| == |Visible(lines)| + Repairs(lines, needs)
    ensures Repairs(lines, needs) == 0 ==> AddInside(lines, needs) == lines
    decreases |lines|
  {
    if lines != [] {
      hide KindOf, StartsMcp, AddInside, FirstPart, Repairs, WithTimeout, Visible, IsBlank;
      var head, rest := lines[..FirstPart(lines)], lines[FirstPart(lines)..];
      PartOf(lines);
      AddPart(head, rest, needs);
      TakesPart(head, rest, needs);
      if !(StartsMcp(head[0]) && rest == []) {
        RepairsCount(rest, needs);
        VisibleConcat(head, rest);
        VisibleConcat(PartAdded(head, needs), AddInside(rest, needs));
        if StartsMcp(head[0]) {
          McpVisible(head[0]);
          WithTimeoutVisible(head);
        }
      } else {
        assert head + rest == head;
      }
    }
  }

  /** The inside repair is idempotent, up to blank lines or to the letter, exactly when every timeout is
      taken. */
  lemma InsideTwiceIff(lines: seq<Line>, needs: Needs)
    ensures Visible(AddInside(AddInside(lines, needs), needs)) == Visible(AddInside(lines, needs)) <==> RepairsTake(lines, needs)
    ensures RepairsTake(lines, needs) ==> AddInside(AddInside(lines, needs), needs) == AddInside(lines, needs)
  {
    hide Visible, AddInside, Repairs, RepairsTake;
    NoneLeftIff(lines, needs);
    RepairsCount(AddInside(lines, needs), needs);
  }

  /** A section of one table takes the timeout, whether or not a comment stands behind its header. */
  predicate SingleTables(lines: seq<Line>, needs: Needs) {
    if lines == [] then true
    else if StartsMcp(lines[0]) then
      var n := SectionLength(lines);
      (n < |lines| && needs(lines[..n]) ==> NoOpens(lines[..n][1..])) && SingleTables(lines[n..], needs)
    else SingleTables(lines[1..], needs)
  }

  lemma {:induction false} SingleTablesTake(lines: seq<Line>, needs: Needs)
    requires Sensible(needs) && SingleTables(lines, needs)
    ensures RepairsTake(lines, needs)
    decreases |lines|
  {
    hide KindOf, StartsMcp, StartsOmcp, WithTimeout, Visible, SectionLength;
    if lines != [] {
      SingleTablesTake(if StartsMcp(lines[0]) then lines[SectionLength(lines)..] else lines[1..], needs);
    }
  }

  /** A decision on the first table of the section: a timeout behind another bracket line is not seen. */
  ghost predicate LooksAtTable(needs: Needs) {
    forall s: seq<Line> :: s != [] && StartsMcp(s[0]) && needs(s) && !NoOpens(s[1..]) ==> needs(WithTimeout(s))
  }

  /** For such a decision the timeouts are taken exactly where each repaired section is one table. */
  lemma {:induction false} SingleTablesIff(lines: seq<Line>, needs: Needs)
    requires Sensible(needs) && LooksAtTable(needs)
    ensures RepairsTake(lines, needs) <==> SingleTables(lines, needs)
    decreases |lines|
  {
    hide KindOf, StartsMcp, StartsOmcp, WithTimeout, Visible, SectionLength, Opens;
    if lines != [] {
      if StartsMcp(lines[0]) {
        var n := SectionLength(lines);
        assert lines[..n][0] == lines[0];
        SingleTablesIff(lines[n..], needs);
        if n == |lines| { assert lines[n..] == []; }
      } else {
        SingleTablesIff(lines[1..], needs);
      }
    }
  }

  /** No line but a whole header opens with a bracket, or the only MCP tables are OMCP's own. */
  lemma {:induction false} OrdinaryTables(lines: seq<Line>, needs: Needs)
    requires Sensible(needs) && (NoOpeners(lines) || forall l :: l in lines && StartsMcp(l) ==> StartsOmcp(l))
    ensures SingleTables(lines, needs)
    decreases |lines|
  {
    hide KindOf, StartsMcp, StartsOmcp, WithTimeout, Visible, SectionLength, Opens;
    if lines != [] {
      assert lines[0] in lines;
      if StartsMcp(lines[0]) {
        var n := SectionLength(lines);
        SectionIs(lines);
        if NoOpeners(lines) {
          TailNoOpens(lines, n);
        }
        forall l | l in lines[n..] ensures l in lines { }
        OrdinaryTables(lines[n..], needs);
      } else {
        OrdinaryTables(lines[1..], needs);
      }
    }
  }

  lemma TailNoOpens(lines: seq<Line>, n: nat)
    requires 0 < n <= |lines| && NoOpeners(lines) && NoHeaders(lines[..n][1..])
    ensures NoOpens(lines[..n][1..])
  {
    forall l | l in lines[..n][1..] ensures !Opens(l) {
      assert l in lines;
    }
  }

  lemma PartNoOpeners(lines: seq<Line>, n: nat)
    requires NoOpeners(lines) && n <= |lines|
    ensures NoOpeners(lines[..n]) && NoOpeners(lines[n..])
  {
  }

  /** What follows the managed lines is repaired alike whether or not the user's sections were
      repaired before, as long as those stay repaired. */
  lemma GapAfterInside(a: seq<Line>, gap: seq<Line>, needs: Needs)
    requires RepairsTake(a, needs) && NoOpens(gap) && HasVisible(gap)
    ensures AddTimeouts(AddInside(a, needs) + gap, needs) == AddTimeouts(a + gap, needs)
  {
    hide KindOf, RepairsTake, AddTimeouts, AddInside, OpenSection;
    AddGap(a, gap, needs);
    AddGap(AddInside(a, needs), gap, needs);
    InsideTwiceIff(a, needs);
    OpenStays(a, needs);
  }

  lemma {:induction false} InsideLines(lines: seq<Line>, needs: Needs, l: Line)
    ensures l in AddInside(lines, needs) ==> l in lines || l == TimeoutLine
    ensures l in AddTimeouts(lines, needs) ==> l in lines || l == TimeoutLine
  {
    hide KindOf, SectionLength, StartsMcp, Repaired, WithTimeout;
    if lines != [] {
      assert lines == [lines[0]] + lines[1..];
      if StartsMcp(lines[0]) {
        var n := SectionLength(lines);
        assert lines == lines[..n] + lines[n..];
        InsideLines(lines[n..], needs, l);
        RepairedLines(lines[..n], needs);
      } else {
        InsideLines(lines[1..], needs, l);
      }
    }
  }

  lemma RepairedLines(section: seq<Line>, needs: Needs)
    requires section != []
    ensures forall l :: l in Repaired(section, needs) ==> l in section || l == TimeoutLine
  {
    WithTimeoutIs(section);
  }

  // ----- blank lines do not matter -----

  lemma {:induction false} WithTimeoutVisible(section: seq<Line>)
    requires section != [] && !IsBlank(section[0])
    ensures Visible(WithTimeout(section)) == Visible(section) + [TimeoutLine]
    ensures WithTimeout(Visible(section)) == Visible(section) + [TimeoutLine]
    decreases |section|
  {
    hide KindOf, TimeoutLine, Visible;
    TimeoutStartsNothing();
    VisibleOne(TimeoutLine);
    VisibleConcat(section, [TimeoutLine]);
    if |section| <= 1 {
      assert section == [section[0]];
      VisibleOne(section[0]);
    } else {
      var n := |section| - 1;
      assert section == section[..n] + [section[n]];
      if IsBlank(section[n]) {
        WithTimeoutVisible(section[..n]);
        BlankEnd(section[..n], section[n]);
        BlankEnd(WithTimeout(section[..n]), section[n]);
      } else {
        LastVisible(section);
        VisibleNotShort(section);
      }
    }
  }

  lemma BlankEnd(front: seq<Line>, l: Line)
    requires IsBlank(l)
    ensures Visible(front + [l]) == Visible(front)
  {
    hide KindOf, Visible;
    VisibleConcat(front, [l]);
    VisibleOne(l);
    assert Visible(front) + [] == Visible(front);
  }

  lemma VisibleNotShort(section: seq<Line>)
    requires Visible(section) != [] && !IsBlank(Visible(section)[|Visible(section)| - 1])
    ensures WithTimeout(Visible(section)) == Visible(section) + [TimeoutLine]
  {
    hide KindOf, Visible, TimeoutLine;
  }

  lemma LastVisible(section: seq<Line>)
    requires section != [] && !IsBlank(section[|section| - 1])
    ensures Visible(section) != [] && Visible(section)[|Visible(section)| - 1] == section[|section| - 1]
  {
  }

  lemma RepairedVisible(section: seq<Line>, needs: Needs)
    requires Sensible(needs) && section != [] && !IsBlank(section[0])
    ensures Visible(Repaired(section, needs)) == Repaired(Visible(section), needs)
  {
    hide KindOf, WithTimeout, Visible, StartsOmcp, NoOpeners;
    WithTimeoutVisible(section);
    VisibleTwice(section);
  }

  lemma VisibleStarts(lines: seq<Line>)
    requires StartsSection(lines)
    ensures StartsSection(Visible(lines))
  {
    hide KindOf;
    if lines != [] {
      assert lines == [lines[0]] + lines[1..];
      VisibleConcat([lines[0]], lines[1..]);
      VisibleOne(lines[0]);
    }
  }

  lemma VisibleSection(section: seq<Line>)
    requires section != [] && NoHeaders(section[1..]) && !IsBlank(section[0])
    ensures Visible(section) != [] && Visible(section)[0] == section[0] && NoHeaders(Visible(section)[1..])
  {
    hide KindOf, Visible;
    assert section == [section[0]] + section[1..];
    VisibleConcat([section[0]], section[1..]);
    VisibleOne(section[0]);
    assert Visible(section)[1..] == Visible(section[1..]);
    forall l | l in Visible(section[1..]) ensures l in section[1..] {
      VisibleIn(section[1..], l);
    }
  }

  /** The repair of the visible lines is what is visible of the repair. */
  lemma {:induction false} AddVisible(lines: seq<Line>, needs: Needs)
    requires Sensible(needs)
    ensures Visible(AddTimeouts(lines, needs)) == AddTimeouts(Visible(lines), needs)
    decreases |lines|
  {
    hide KindOf, SectionLength, StartsMcp, Sensible, Repaired, NoHeaders, StartsSection, Visible, IsBlank;
    if lines == [] {
      EmptyVisible();
    } else if StartsMcp(lines[0]) {
      McpVisible(lines[0]);
      var n := SectionLength(lines);
      SectionIs(lines);
      var section, rest := lines[..n], lines[n..];
      AddVisible(rest, needs);
      VisibleConcat(section, rest);
      VisibleConcat(Repaired(section, needs), AddTimeouts(rest, needs));
      RepairedVisible(section, needs);
      VisibleSection(section);
      VisibleStarts(rest);
      SectionLengthOf(Visible(section), Visible(rest));
    } else {
      var rest := lines[1..];
      assert lines == [lines[0]] + rest;
      AddVisible(rest, needs);
      VisibleConcat([lines[0]], rest);
      VisibleConcat([lines[0]], AddTimeouts(rest, needs));
      VisibleOne(lines[0]);
      if IsBlank(lines[0]) {
        assert [] + Visible(rest) == Visible(rest);
      } else {
        assert ([lines[0]] + Visible(rest))[1..] == Visible(rest);
      }
    }
  }

  lemma McpVisible(l: Line)
    requires StartsMcp(l)
    ensures !IsBlank(l)
  {
    McpOpens(l);
  }
}
