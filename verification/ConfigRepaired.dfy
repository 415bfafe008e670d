/** Adding startup timeouts to a settled file leaves it settled. */
module ConfigRepaired {
  import opened Text
  import opened ConfigLines
  import opened ConfigSections
  import opened ConfigTui
  import opened ConfigMarkers
  import opened ConfigTimeouts
  import opened ConfigRoot
  import opened ConfigStable
  import opened ConfigMerge
  import opened ConfigSettled

  lemma McpText(l: Line)
    requires StartsMcp(l)
    ensures |Trim(l)| >= 2 && Trim(l)[1] == 'm'
  {
    var t := TrimStart(l);
    assert "[mcp_servers."[1] == 'm';
    assert t[1] == 'm' && |t| >= 2;
    TrimCommutes(l);
    TrimEndCuts(t);
    assert !IsSpace('m');
    var r := TrimEnd(t);
    if |r| < 2 {
      SecondVisible(t, |r|);
    }
    assert r == t[..|r|];
  }

  lemma SecondVisible(t: string, k: nat)
    requires |t| >= 2 && !IsSpace(t[1]) && k < 2
    ensures !Blank(t[k..])
  {
    assert t[k..][1 - k] == t[1];
  }

  predicate NotMcpTitle(title: string) { |title| >= 2 && title[1] != 'm' }

  lemma TitledNotMcp(l: Line, title: string)
    requires NotMcpTitle(title) && Titled(l, title)
    ensures !StartsMcp(l)
  {
    if StartsMcp(l) {
      McpText(l);
    }
  }

  lemma TitlesNotMcp(sec: Section)
    ensures NotMcpTitle(Title(sec)) && NotMcpTitle(TuiTitle)
  {
    assert Title(Features)[1] == 'f' && Title(Env)[1] == 'e' && Title(Agents)[1] == 'a' && TuiTitle[1] == 't';
  }

  lemma {:induction false} InsideBody(body: seq<Line>, after: seq<Line>, needs: Needs)
    requires NoOpens(body)
    ensures AddInside(body + after, needs) == body + AddInside(after, needs)
    ensures AddTimeouts(body + after, needs) == body + AddTimeouts(after, needs)
  {
    hide KindOf, Opens, StartsMcp, SectionLength;
    if body == [] {
      assert body + after == after;
    } else {
      hide AddTimeouts, AddInside;
      var head, rest := [body[0]], body[1..];
      assert body == head + rest;
      assert body[0] in body;
      NotMcp(body[0]);
      InsideBody(rest, after, needs);
      AddPart(head, rest + after, needs);
      Assoc(head, rest, after);
      Assoc(head, rest, AddInside(after, needs));
      Assoc(head, rest, AddTimeouts(after, needs));
    }
  }

  lemma NotMcp(l: Line)
    ensures !Opens(l) ==> !StartsMcp(l)
  {
    if StartsMcp(l) {
      McpOpens(l);
    }
  }

  lemma InsideHeader(h: Line, rest: seq<Line>, needs: Needs)
    requires !StartsMcp(h)
    ensures AddInside([h] + rest, needs) == [h] + AddInside(rest, needs)
  {
    assert ([h] + rest)[1..] == rest;
  }

  /** A section without an MCP title may still hold, below a header with a comment behind it, lines that
      are repaired. */
  function RepairedCut(c: Cut, needs: Needs): Cut {
    Cut(AddTimeouts(c.before, needs), c.header,
        if c.after == [] then AddInside(c.body, needs) else AddTimeouts(c.body, needs), AddInside(c.after, needs))
  }

  /** The repair stays within the parts of a cut. */
  lemma InsideGlue(c: Cut, title: string, needs: Needs)
    requires IsCut(c, title) && NotMcpTitle(title)
    ensures AddInside(Glue(c), needs) == Glue(RepairedCut(c, needs))
  {
    hide KindOf, StartsMcp, AddTimeouts, AddInside, Glue, NoneTitled, NoHeaders;
    TitledNotMcp(c.header, title);
    var rest := [c.header] + (c.body + c.after);
    GlueRest(c);
    AddConcat(c.before, rest, needs);
    InsideHeader(c.header, c.body + c.after, needs);
    if c.after == [] {
      assert c.body + c.after == c.body;
      NothingInside(needs);
      assert AddInside(c.body, needs) + AddInside(c.after, needs) == AddInside(c.body, needs);
    } else {
      AddConcat(c.body, c.after, needs);
    }
    GlueRest(RepairedCut(c, needs));
  }

  lemma NothingInside(needs: Needs)
    ensures AddInside([], needs) == []
  {
  }

  lemma GlueRest(c: Cut)
    ensures Glue(c) == c.before + ([c.header] + (c.body + c.after))
  {
  }

  lemma TimeoutNotTitled(title: string)
    ensures !Titled(TimeoutLine, title) && !IsHeader(TimeoutLine)
  {
    TimeoutKind();
    hide KindOf;
  }

  lemma RepairedCutIs(c: Cut, title: string, needs: Needs)
    requires IsCut(c, title)
    ensures IsCut(RepairedCut(c, needs), title)
    ensures NoneTitled(c.after, title) ==> NoneTitled(RepairedCut(c, needs).after, title)
  {
    hide KindOf, AddTimeouts, AddInside;
    InsideStarts(c.after, needs);
    InsideTitles(c.before, title, needs);
    InsideTitles(c.after, title, needs);
    InsideNoHeaders(c.body, needs);
  }

  lemma InsideTitles(lines: seq<Line>, title: string, needs: Needs)
    ensures NoneTitled(lines, title) ==> NoneTitled(AddInside(lines, needs), title) && NoneTitled(AddTimeouts(lines, needs), title)
  {
    hide KindOf, AddTimeouts, AddInside;
    TimeoutNotTitled(title);
    AddedLines(lines, needs);
  }

  lemma InsideNoHeaders(lines: seq<Line>, needs: Needs)
    ensures NoHeaders(lines) ==> NoHeaders(AddInside(lines, needs)) && NoHeaders(AddTimeouts(lines, needs))
  {
    hide KindOf, AddTimeouts, AddInside;
    TimeoutNotTitled("");
    AddedLines(lines, needs);
  }

  lemma CutInside(lines: seq<Line>, title: string, needs: Needs)
    requires NotMcpTitle(title)
    ensures HasTitle(AddInside(lines, needs), title) <==> HasTitle(lines, title)
    ensures HasTitle(lines, title) ==> CutAt(AddInside(lines, needs), title) == RepairedCut(CutAt(lines, title), needs)
  {
    hide KindOf, HasTitle, CutAt, AddTimeouts, AddInside, Glue, IsCut, NoneTitled;
    if HasTitle(lines, title) {
      var c := CutAt(lines, title);
      CutAtIs(lines, title);
      InsideGlue(c, title, needs);
      RepairedCutIs(c, title, needs);
      CutAtGlue(RepairedCut(c, needs), title);
    } else {
      NoTitleAt(lines, title);
      InsideTitles(lines, title, needs);
      NoTitleAt(AddInside(lines, needs), title);
    }
  }

  // ----- keys in repaired lines -----

  lemma {:induction false} KeepsLines(lines: seq<Line>, needs: Needs, l: Line)
    ensures l in lines ==> l in AddInside(lines, needs) && l in AddTimeouts(lines, needs)
    decreases |lines|
  {
    hide KindOf, SectionLength, StartsMcp, WithTimeout;
    if lines != [] {
      if StartsMcp(lines[0]) {
        var n := SectionLength(lines);
        assert lines == lines[..n] + lines[n..];
        KeepsLines(lines[n..], needs, l);
        WithTimeoutIs(lines[..n]);
      } else {
        assert lines == [lines[0]] + lines[1..];
        KeepsLines(lines[1..], needs, l);
      }
    }
  }

  /** The repair only adds timeout lines. */
  lemma AddedLines(lines: seq<Line>, needs: Needs)
    ensures forall l :: l in lines ==> l in AddInside(lines, needs) && l in AddTimeouts(lines, needs)
    ensures forall l :: l in AddInside(lines, needs) || l in AddTimeouts(lines, needs) ==> l in lines || l == TimeoutLine
  {
    forall l ensures l in lines ==> l in AddInside(lines, needs) && l in AddTimeouts(lines, needs) {
      KeepsLines(lines, needs, l);
    }
    forall l ensures l in AddInside(lines, needs) || l in AddTimeouts(lines, needs) ==> l in lines || l == TimeoutLine {
      InsideLines(lines, needs, l);
    }
  }

  lemma HasKeyAdded(lines: seq<Line>, needs: Needs, key: string)
    requires key != TimeoutKey
    ensures HasKey(AddInside(lines, needs), key) <==> HasKey(lines, key)
    ensures HasKey(AddTimeouts(lines, needs), key) <==> HasKey(lines, key)
  {
    hide KindOf, AddTimeouts, AddInside;
    TimeoutKind();
    AddedLines(lines, needs);
  }

  /** What decides is the last part that sets the key. */
  lemma {:induction false} LastSetConcat(a: seq<Line>, b: seq<Line>, key: string, line: Line)
    ensures LastSet(a + b, key, line) <==> if HasKey(b, key) then LastSet(b, key, line) else LastSet(a, key, line)
    decreases |b|
  {
    hide KindOf, LastSet;
    if b == [] {
      assert a + b == a;
    } else {
      var n := |b| - 1;
      var front, last := b[..n], b[n];
      assert b == front + [last] && a + b == (a + front) + [last];
      LastSetConcat(a, front, key, line);
      LastSetSnoc(front, last, key, line);
      LastSetSnoc(a + front, last, key, line);
      assert HasKey(b, key) <==> HasKey(front, key) || Sets(last, key);
    }
  }

  lemma {:induction false} LastSetTimeout(section: seq<Line>, key: string, line: Line)
    requires section != [] && key != TimeoutKey
    ensures LastSet(WithTimeout(section), key, line) <==> LastSet(section, key, line)
    decreases |section|
  {
    hide KindOf, LastSet, TimeoutLine;
    TimeoutKind();
    LastSetSnoc(section, TimeoutLine, key, line);
    var n := |section| - 1;
    if n > 0 && IsBlank(section[n]) {
      assert section == section[..n] + [section[n]];
      LastSetTimeout(section[..n], key, line);
      LastSetSnoc(section[..n], section[n], key, line);
      LastSetSnoc(WithTimeout(section[..n]), section[n], key, line);
    }
  }

  lemma {:induction false} LastSetAdded(lines: seq<Line>, needs: Needs, key: string, line: Line)
    requires key != TimeoutKey
    ensures LastSet(AddInside(lines, needs), key, line) <==> LastSet(lines, key, line)
    ensures LastSet(AddTimeouts(lines, needs), key, line) <==> LastSet(lines, key, line)
    decreases |lines|
  {
    if lines == [] {
      NothingInside(needs);
      NothingAdded(needs);
    } else {
      hide KindOf, StartsMcp, AddTimeouts, AddInside, FirstPart, LastSet, HasKey, IsPart, WithTimeout;
      var head, rest := lines[..FirstPart(lines)], lines[FirstPart(lines)..];
      PartOf(lines);
      PartNotEmpty(head, rest);
      AddPart(head, rest, needs);
      LastSetAdded(rest, needs, key, line);
      HasKeyAdded(rest, needs, key);
      LastSetTimeout(head, key, line);
      LastSetConcat(head, rest, key, line);
      LastSetConcat(PartAdded(head, needs), AddTimeouts(rest, needs), key, line);
      LastSetConcat(PartAdded(head, needs), AddInside(rest, needs), key, line);
      assert head + [] == head;
    }
  }

  lemma PartNotEmpty(head: seq<Line>, rest: seq<Line>)
    requires IsPart(head, rest)
    ensures head != []
  {
  }

  lemma KeysNotTimeout()
    ensures MultiAgent != TimeoutKey && ChildAgents != TimeoutKey && CodexHooks != TimeoutKey && Collab != TimeoutKey
    ensures ExploreCmd != TimeoutKey && MaxThreads != TimeoutKey && MaxDepth != TimeoutKey
  {
    assert TimeoutKey[0] == 's' && MultiAgent[0] == 'm' && ChildAgents[0] == 'c' && CodexHooks[0] == 'c' && Collab[0] == 'c';
    assert ExploreCmd[0] == 'U' && MaxThreads[0] == 'm' && MaxDepth[0] == 'm';
  }

  lemma FixedAdded(sec: Section, body: seq<Line>, needs: Needs)
    requires Fixed(sec, body)
    ensures Fixed(sec, AddInside(body, needs)) && Fixed(sec, AddTimeouts(body, needs))
  {
    hide KindOf, LastSet, HasKey, SettingLine, AddInside, AddTimeouts;
    KeysNotTimeout();
    match sec
    case Features =>
      HasKeyAdded(body, needs, Collab);
      LastSetAdded(body, needs, MultiAgent, SettingLine(MultiAgent, "true"));
      LastSetAdded(body, needs, ChildAgents, SettingLine(ChildAgents, "true"));
      LastSetAdded(body, needs, CodexHooks, SettingLine(CodexHooks, "true"));
    case Env => HasKeyAdded(body, needs, ExploreCmd);
    case Agents =>
      HasKeyAdded(body, needs, MaxThreads);
      HasKeyAdded(body, needs, MaxDepth);
  }

  // ----- what stays settled -----

  lemma {:induction false} InsideRootFree(lines: seq<Line>, keys: set<string>, needs: Needs)
    requires RootFree(lines, keys)
    ensures RootFree(AddInside(lines, needs), keys)
  {
    hide KindOf, SectionLength, StartsMcp, Opens;
    if lines != [] {
      if StartsMcp(lines[0]) {
        McpOpens(lines[0]);
        var n := SectionLength(lines);
        SectionIs(lines);
        RepairedSection(lines[..n], needs);
        hide Repaired;
      } else if !Opens(lines[0]) {
        InsideRootFree(lines[1..], keys, needs);
      }
    }
  }

  lemma {:induction false} InsideRootValue(lines: seq<Line>, key: string, needs: Needs)
    ensures RootValue(AddInside(lines, needs), key) == RootValue(lines, key)
  {
    hide KindOf, SectionLength, StartsMcp, Opens, ValueOf;
    if lines != [] {
      if StartsMcp(lines[0]) {
        McpOpens(lines[0]);
        var n := SectionLength(lines);
        SectionIs(lines);
        RepairedSection(lines[..n], needs);
        hide Repaired;
      } else {
        InsideRootValue(lines[1..], key, needs);
        assert ([lines[0]] + AddInside(lines[1..], needs))[1..] == AddInside(lines[1..], needs);
      }
    }
  }

  /** The last line stays the last line. */
  lemma {:induction false} InsideLast(lines: seq<Line>, needs: Needs)
    requires lines != []
    ensures AddInside(lines, needs) != []
    ensures AddInside(lines, needs)[|AddInside(lines, needs)| - 1] == lines[|lines| - 1]
    decreases |lines|
  {
    hide KindOf, SectionLength, StartsMcp, Repaired;
    if StartsMcp(lines[0]) {
      var n := SectionLength(lines);
      if n < |lines| {
        InsideLast(lines[n..], needs);
      }
    } else if |lines| > 1 {
      InsideLast(lines[1..], needs);
    }
  }

  lemma FixedInside(sec: Section, lines: seq<Line>, needs: Needs)
    requires FixedIn(sec, lines)
    ensures FixedIn(sec, AddInside(lines, needs))
  {
    hide KindOf, HasTitle, CutAt, AddTimeouts, AddInside, Fixed;
    TitlesNotMcp(sec);
    CutInside(lines, Title(sec), needs);
    FixedAdded(sec, CutAt(lines, Title(sec)).body, needs);
  }

  /** A folded section holds settings only. */
  lemma DoneBodyNoOpens(body: seq<Line>)
    requires Visible(body) == FirstKeys(body, {}) + [StatusLine]
    ensures NoOpens(body)
  {
    hide KindOf, Visible, FirstKeys, StatusLine, IsWord;
    StatusKind();
    forall l | l in body ensures !Opens(l) {
      VisibleIn(body, l);
      if l in FirstKeys(body, {}) {
        var j :| 0 <= j < |FirstKeys(body, {})| && FirstKeys(body, {})[j] == l;
        FirstKeysFrom(body, {}, j);
      }
    }
  }

  lemma TuiDoneInside(lines: seq<Line>, needs: Needs)
    requires TuiDone(lines)
    ensures TuiDone(AddInside(lines, needs))
  {
    hide KindOf, HasTitle, CutAt, AddTimeouts, AddInside, Visible, FirstKeys, NoneTitled, StatusLine, TuiTitle;
    TitlesNotMcp(Env);
    CutInside(lines, TuiTitle, needs);
    if HasTitle(lines, TuiTitle) {
      var d := CutAt(lines, TuiTitle);
      CutAtIs(lines, TuiTitle);
      RepairedCutIs(d, TuiTitle, needs);
      DoneBodyNoOpens(d.body);
      InsideBody(d.body, [], needs);
      NothingInside(needs);
      NothingAdded(needs);
      assert d.body + [] == d.body;
    }
  }

  lemma InsideSettled(s: Setup, lines: seq<Line>)
    requires AgentsOk(s.legacyAgent) && Settled(s, lines)
    ensures Settled(s, AddInside(lines, s.needs))
  {
    hide KindOf, AcceptableLine, FixedIn, RootFree, TuiDone, AddInside, Overrides, AgentsOk;
    OtherAcceptable(s.legacyAgent);
    forall l | l in AddInside(lines, s.needs) ensures AcceptableLine(l, s.legacyAgent) {
      InsideLines(lines, s.needs, l);
    }
    InsideRootFree(lines, TopKeys, s.needs);
    if Overrides(s.top) { InsideRootFree(lines, {ModelKey}, s.needs); }
    FixedInside(Features, lines, s.needs);
    FixedInside(Env, lines, s.needs);
    FixedInside(Agents, lines, s.needs);
    if s.includeTui { TuiDoneInside(lines, s.needs); }
  }
}
