/** The merged config has exactly one [tui] header. */
module ConfigOneTui {
  import opened Text
  import opened ConfigLines
  import opened ConfigSections
  import opened ConfigTui
  import opened ConfigMarkers
  import opened ConfigTimeouts
  import opened ConfigRoot
  import opened ConfigStable
  import opened ConfigMerge
  import opened ConfigSettled
  import opened ConfigRepaired
  import opened ConfigFooter
  import opened ConfigIdempotence
  import opened ConfigSecondPass
  import opened ConfigSetup
  import opened ConfigPreserves

  function TuiHeaders(lines: seq<Line>): nat {
    if lines == [] then 0
    else TuiHeaders(lines[..|lines| - 1]) + (if Titled(lines[|lines| - 1], TuiTitle) then 1 else 0)
  }

  lemma {:induction false} HeadersConcat(a: seq<Line>, b: seq<Line>)
    ensures TuiHeaders(a + b) == TuiHeaders(a) + TuiHeaders(b)
    decreases |b|
  {
    hide KindOf, TuiTitle;
    if b == [] {
      assert a + b == a;
    } else {
      var n := |b| - 1;
      assert (a + b)[..|a| + n] == a + b[..n] && (a + b)[|a| + n] == b[n];
      HeadersConcat(a, b[..n]);
    }
  }

  lemma HeadersOne(l: Line)
    ensures TuiHeaders([l]) == if Titled(l, TuiTitle) then 1 else 0
  {
    hide KindOf, TuiTitle;
    assert [l][..0] == [];
  }

  lemma {:induction false} HeadersNone(lines: seq<Line>)
    requires NoneTitled(lines, TuiTitle)
    ensures TuiHeaders(lines) == 0
  {
    hide KindOf, TuiTitle;
    if lines != [] {
      var n := |lines| - 1;
      assert lines[n] in lines;
      HeadersNone(lines[..n]);
    }
  }

  lemma {:induction false} HeadersTrim(lines: seq<Line>)
    ensures TuiHeaders(TrimEndLines(lines)) == TuiHeaders(lines)
  {
    hide KindOf, TuiTitle, TrimEnd;
    if lines != [] {
      var n := |lines| - 1;
      assert lines == lines[..n] + [lines[n]];
      if IsBlank(lines[n]) {
        HeadersTrim(lines[..n]);
      } else {
        KindIgnoresTrim(lines[n]);
        HeadersConcat(lines[..n], [TrimEnd(lines[n])]);
        HeadersOne(TrimEnd(lines[n]));
      }
    }
  }

  lemma {:induction false} HeadersTimeout(section: seq<Line>)
    requires section != []
    ensures TuiHeaders(WithTimeout(section)) == TuiHeaders(section)
    decreases |section|
  {
    hide KindOf, TuiTitle, TimeoutLine, TuiHeaders;
    TimeoutNotTitled(TuiTitle);
    HeadersOne(TimeoutLine);
    HeadersConcat(section, [TimeoutLine]);
    var n := |section| - 1;
    assert section == section[..n] + [section[n]];
    if n > 0 && IsBlank(section[n]) {
      HeadersTimeout(section[..n]);
      HeadersConcat(section[..n], [section[n]]);
      HeadersConcat(WithTimeout(section[..n]), [section[n]]);
    }
  }

  lemma {:induction false} HeadersAdded(lines: seq<Line>, needs: Needs)
    ensures TuiHeaders(AddTimeouts(lines, needs)) == TuiHeaders(lines)
    decreases |lines|
  {
    if lines == [] {
      NothingAdded(needs);
    } else {
      hide KindOf, TuiTitle, StartsMcp, AddTimeouts, FirstPart, TuiHeaders, WithTimeout;
      var head, rest := lines[..FirstPart(lines)], lines[FirstPart(lines)..];
      PartOf(lines);
      AddPart(head, rest, needs);
      HeadersConcat(head, rest);
      HeadersAdded(rest, needs);
      HeadersTimeout(head);
      HeadersConcat(PartAdded(head, needs), AddTimeouts(rest, needs));
    }
  }

  /** The user's part has one header after the fold, or none at all. */
  lemma HeadersFolded(lines: seq<Line>)
    ensures TuiHeaders(FoldTui(lines)) == if HasTitle(lines, TuiTitle) then 1 else 0
  {
    hide KindOf, TuiTitle, HasTitle, CutAt, Visible, FoldTui, TuiHeaders, NoneTitled;
    var z := FoldTui(lines);
    if HasTitle(lines, TuiTitle) {
      OneTuiSection(lines);
      CutAtIs(z, TuiTitle);
      CutHeaders(CutAt(z, TuiTitle));
    } else {
      NoFold(lines);
      NoTitleAt(lines, TuiTitle);
      HeadersNone(lines);
    }
  }

  lemma CutHeaders(c: Cut)
    requires IsCut(c, TuiTitle) && NoneTitled(c.after, TuiTitle)
    ensures TuiHeaders(Glue(c)) == 1
  {
    hide KindOf, TuiTitle, TuiHeaders;
    HeadersConcat(c.before + [c.header] + c.body, c.after);
    HeadersConcat(c.before + [c.header], c.body);
    HeadersConcat(c.before, [c.header]);
    HeadersOne(c.header);
    HeadersNone(c.before);
    HeadersNone(c.after);
    NoHeadersNotTitled(c.body);
    HeadersNone(c.body);
  }

  lemma NoHeadersNotTitled(lines: seq<Line>)
    requires NoHeaders(lines)
    ensures NoneTitled(lines, TuiTitle)
  {
    hide TuiTitle;
  }

  lemma NoOpensNotTitled(lines: seq<Line>)
    requires NoOpens(lines)
    ensures NoneTitled(lines, TuiTitle)
  {
    hide TuiTitle;
  }

  // ----- the blocks -----

  lemma OrphanNotTui(l: Line, legacyAgent: string -> bool)
    requires AgentsOk(legacyAgent) && IsOrphan(l, legacyAgent)
    ensures !Titled(l, TuiTitle)
  {
    assert TuiTitle[1..|TuiTitle| - 1] == "tui";
    TuiIsNoPrefix();
    hide KindOf;
  }

  lemma TuiIsNoPrefix()
    ensures !("mcp_servers.omcp_" <= "tui") && !("agents." <= "tui")
  {
    assert |"mcp_servers.omcp_"| > 3 && |"agents."| > 3;
  }

  lemma ManagedHeaders(s: Setup)
    requires BlocksOk(s) && AgentsOk(s.legacyAgent)
    ensures NoneTitled(s.managed, TuiTitle)
  {
    hide KindOf, TuiTitle, IsOrphan, AgentsOk;
    forall l | l in s.managed ensures !Titled(l, TuiTitle) {
      if Titled(l, TuiTitle) {
        TitledIsHeader(l, TuiTitle);
        OrphanNotTui(l, s.legacyAgent);
      }
    }
  }

  lemma TitledIsHeader(l: Line, title: string)
    requires Titled(l, title)
    ensures IsHeader(l)
  {
  }

  lemma FixedNotTitled()
    ensures !Titled(RuleLine, TuiTitle) && !Titled("# " + OmcpMarker, TuiTitle) && !Titled("# " + RegistryMarker, TuiTitle)
    ensures !Titled(ManagedNote, TuiTitle) && !Titled(RegistryNote, TuiTitle) && !Titled(TuiNote, TuiTitle)
    ensures !Titled(OmcpEnd, TuiTitle) && !Titled(RegistryEnd, TuiTitle) && !Titled("", TuiTitle) && !Titled(StatusLine, TuiTitle)
  {
    hide KindOf, TuiTitle, StatusLine;
    FixedRemarks();
    RemarkKind(RuleLine);
    RemarkKind("# " + OmcpMarker);
    RemarkKind("# " + RegistryMarker);
    RemarkKind(ManagedNote);
    RemarkKind(RegistryNote);
    RemarkKind(TuiNote);
    RemarkKind(OmcpEnd);
    RemarkKind(RegistryEnd);
    EmptyKind();
    StatusKind();
  }

  lemma TablesHeaders(s: Setup, withTui: bool)
    requires BlocksOk(s) && AgentsOk(s.legacyAgent)
    ensures TuiHeaders(WrittenLines(Tables(s, withTui))) == if withTui then 1 else 0
  {
    hide KindOf, TuiTitle, TuiHeaders, BlocksOk, AgentsOk;
    ManagedHeaders(s);
    FixedNotTitled();
    var a := [""] + [RuleLine] + ["# " + OmcpMarker] + ([ManagedNote, RuleLine, ""] + s.managed);
    var z := [RuleLine] + [OmcpEnd] + [""];
    assert WrittenLines(Tables(s, withTui)) == a + TuiPart(withTui) + z;
    HeadersConcat(a + TuiPart(withTui), z);
    HeadersConcat(a, TuiPart(withTui));
    TuiPartHeaders(withTui);
    hide RuleLine, OmcpMarker, ManagedNote, OmcpEnd;
    HeadersNone(a);
    HeadersNone(z);
  }

  lemma TuiPartHeaders(withTui: bool)
    ensures TuiHeaders(TuiPart(withTui)) == if withTui then 1 else 0
  {
    hide KindOf, TuiHeaders, TuiTitle, StatusLine, TuiNote;
    if withTui {
      FixedNotTitled();
      TuiTitleKind();
      var a, z := ["", TuiNote], [StatusLine, ""];
      assert TuiPart(true) == a + [TuiTitle] + z;
      HeadersConcat(a + [TuiTitle], z);
      HeadersConcat(a, [TuiTitle]);
      HeadersOne(TuiTitle);
      HeadersNone(a);
      HeadersNone(z);
    } else {
      HeadersNone([]);
    }
  }

  lemma {:induction false} ServersHeaders(servers: seq<Shared>)
    requires forall x :: x in servers ==> NoneTitled(x.lines, TuiTitle)
    ensures NoneTitled(ServerLines(servers), TuiTitle)
  {
    hide KindOf, TuiTitle;
    if servers != [] {
      assert servers[0] in servers;
      ServersHeaders(servers[1..]);
    }
  }

  lemma RegistryHeaders(s: Setup, existing: seq<Line>)
    requires BlocksOk(s) && forall x :: x in s.shared ==> NoneTitled(x.lines, TuiTitle)
    ensures TuiHeaders(RegistryLines(s, existing)) == 0
  {
    hide KindOf, TuiTitle, TuiHeaders, NewServers, IsOrphan;
    var servers := NewServers(s.shared, existing);
    if servers == [] {
      HeadersNone([]);
    } else {
      forall x | x in servers ensures NoneTitled(x.lines, TuiTitle) { NewServersAre(s.shared, existing, x); }
      ServersHeaders(servers);
      RegistryNotTitled(s, servers);
      HeadersNone(WrittenLines(Registry(s, servers)));
    }
  }

  lemma RegistryNotTitled(s: Setup, servers: seq<Shared>)
    requires BlocksOk(s) && NoneTitled(ServerLines(servers), TuiTitle)
    ensures NoneTitled(WrittenLines(Registry(s, servers)), TuiTitle)
  {
    hide KindOf, TuiTitle, IsOrphan, StartsMcp;
    FixedNotTitled();
    hide RuleLine, RegistryMarker, RegistryNote, RegistryEnd, ServerLines;
  }

  /** With `includeTui`, whatever [tui] sections the file had: exactly one header in the result. */
  lemma MergeHasOneTui(s: Setup, config: seq<Line>)
    requires s.includeTui && BlocksOk(s) && AgentsOk(s.legacyAgent) && TopOk(s.top)
    requires forall x :: x in s.shared ==> NoneTitled(x.lines, TuiTitle)
    ensures TuiHeaders(Merge(s, config)) == 1
  {
    hide KindOf, TuiTitle, TuiHeaders, Unmarked, Cleared, Sectioned, FoldTui, AddTimeouts, TopLines, TrimEndLines, RegistryLines, Tables, WrittenLines, BlocksOk, AgentsOk, TopOk, HasTitle, NoneTitled;
    var lines := Unmarked(config);
    var existing, withTui := Existing(s, lines), WritesTui(s, lines);
    MergeIs(s, config);
    HeadersFolded(Sectioned(Cleared(s, lines)));
    var top := TopLines(s.top, existing) + [""];
    var body := TrimEndLines(existing);
    var footer := Footer(s, existing, withTui);
    HeadersAdded(top + body + footer, s.needs);
    HeadersConcat(top + body, footer);
    HeadersConcat(top, body);
    TopPlain(s, existing);
    NoOpensNotTitled(top);
    HeadersNone(top);
    HeadersTrim(existing);
    HeadersConcat(RegistryLines(s, existing), WrittenLines(Tables(s, withTui)));
    RegistryHeaders(s, existing);
    TablesHeaders(s, withTui);
  }
}
