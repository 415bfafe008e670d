/** The five managed servers as setup writes them, and a decision on launcher sections: they meet what
    the setup theorems ask of them. */
module ConfigShipped {
  import opened Text
  import opened ConfigLines
  import opened ConfigSections
  import opened ConfigTui
  import opened ConfigTimeouts
  import opened ConfigRoot
  import opened ConfigMerge
  import opened ConfigSettled
  import opened ConfigRepaired
  import opened ConfigFooter
  import opened ConfigPreserves

  const TablePrefix := "mcp_servers.omcp_"

  /** One server of getOmcpTablesBlock: comment, table and settings. */
  function ServerBlock(comment: string, name: string, path: string, timeout: string): seq<Line> {
    [comment, HeaderLine(TablePrefix + name), SettingLine("command", "\"node\""),
     SettingLine("args", "[\"" + path + "\"]"), SettingLine("enabled", "true"), SettingLine(TimeoutKey, timeout)]
  }

  /** Where the five server scripts are. */
  datatype Paths = Paths(state: string, memory: string, codeIntel: string, trace: string, wiki: string)

  const CodeIntelNote := "# OMCP Code Intelligence MCP Server " + "(LSP diagnostics, AST search)"
  const TraceNote := "# OMCP Trace MCP Server " + "(agent flow timeline & statistics)"
  const WikiNote := "# OMCP Wiki MCP Server " + "(persistent project knowledge base)"

  function ManagedServers(p: Paths): seq<Line> {
    ServerBlock("# OMCP State Management MCP Server", "state", p.state, "5") + [""]
    + (ServerBlock("# OMCP Project Memory MCP Server", "memory", p.memory, "5") + [""])
    + (ServerBlock(CodeIntelNote, "code_intel", p.codeIntel, "10") + [""])
    + (ServerBlock(TraceNote, "trace", p.trace, "5") + [""])
    + ServerBlock(WikiNote, "wiki", p.wiki, "5")
  }

  predicate PathOk(path: string) { Plain(SettingLine("args", "[\"" + path + "\"]")) }

  predicate PathsOk(p: Paths) {
    PathOk(p.state) && PathOk(p.memory) && PathOk(p.codeIntel) && PathOk(p.trace) && PathOk(p.wiki)
  }

  /** What each managed line is. */
  predicate ManagedLine(l: Line, legacyAgent: string -> bool) {
    && Plain(l) && !KindOf(l).Opener? && (StartsMcp(l) ==> StartsOmcp(l))
    && (IsHeader(l) ==> IsOrphan(l, legacyAgent))
  }

  lemma TableLine(name: string, legacyAgent: string -> bool)
    requires name != "" && ']' !in name && '(' !in name && 'E' !in name
    ensures ManagedLine(HeaderLine(TablePrefix + name), legacyAgent) && IsHeader(HeaderLine(TablePrefix + name))
  {
    hide Contains, KindOf, Plain;
    PrefixChars();
    var l := HeaderLine(TablePrefix + name);
    HeaderLineKind(TablePrefix + name);
    PlainByChars(l);
    assert l[1..|l| - 1] == TablePrefix + name && TablePrefix <= TablePrefix + name;
    TableStarts(name);
    hide StartsOmcp, StartsMcp, HeaderLine;
  }

  lemma TableStarts(name: string)
    requires TrimStart(HeaderLine(TablePrefix + name)) == HeaderLine(TablePrefix + name)
    ensures StartsOmcp(HeaderLine(TablePrefix + name))
  {
    assert "[mcp_servers.omcp_" == "[" + TablePrefix;
    assert "[mcp_servers.omcp_" <= HeaderLine(TablePrefix + name);
  }

  lemma PrefixChars()
    ensures ']' !in TablePrefix && '(' !in TablePrefix && 'E' !in TablePrefix
  {
  }

  lemma PlainSetting(key: string, value: string, legacyAgent: string -> bool)
    requires BareKey(key) && ValueOk(value) && Plain(SettingLine(key, value))
    ensures ManagedLine(SettingLine(key, value), legacyAgent)
  {
    SettingLineKind(key, value);
    hide KindOf, SettingLine, Contains, StartsMcp, StartsOmcp;
    SettingNotMcp(SettingLine(key, value), key);
  }

  lemma SettingNotMcp(l: Line, key: string)
    requires Sets(l, key)
    ensures !StartsMcp(l)
  {
    if StartsMcp(l) { McpOpens(l); }
  }

  lemma PlainComment(l: Line, legacyAgent: string -> bool)
    requires l != "" && l[0] == '#' && Plain(l)
    ensures ManagedLine(l, legacyAgent)
  {
    RemarkKind(l);
    NotMcpBlank(l);
    hide KindOf, Contains, StartsMcp;
  }

  lemma ServerKeys()
    ensures BareKey("command") && BareKey("args") && BareKey("enabled") && BareKey(TimeoutKey)
  {
  }

  lemma ServerParts()
    ensures NoParts("command") && NoParts("enabled") && NoParts(TimeoutKey)
    ensures NoParts("\"node\"") && NoParts("true") && NoParts("5") && NoParts("10")
  {
  }

  lemma ServerValues()
    ensures ValueOk("\"node\"") && ValueOk("true") && ValueOk("5") && ValueOk("10")
  {
  }

  lemma ListValue(path: string)
    ensures ValueOk("[\"" + path + "\"]")
  {
    var v := "[\"" + path + "\"]";
    assert v[0] == '[' && v[|v| - 1] == ']';
    assert !IsSpace('[') && !IsSpace(']');
  }

  lemma ServerBlockOk(comment: string, name: string, path: string, timeout: string, legacyAgent: string -> bool)
    requires comment != "" && comment[0] == '#' && Plain(comment) && PathOk(path) && (timeout == "5" || timeout == "10")
    requires name != "" && ']' !in name && '(' !in name && 'E' !in name
    ensures forall l :: l in ServerBlock(comment, name, path, timeout) ==> ManagedLine(l, legacyAgent)
    ensures KindOf(comment).Remark? && IsHeader(HeaderLine(TablePrefix + name))
  {
    hide Contains, BareKey, ValueOk, NoParts, Plain, ManagedLine, SettingLine, HeaderLine, KindOf;
    RemarkKind(comment);
    PlainComment(comment, legacyAgent);
    TableLine(name, legacyAgent);
    ServerKeys();
    ServerParts();
    ServerValues();
    ListValue(path);
    PartsPlain("command", "\"node\"");
    PartsPlain("enabled", "true");
    PartsPlain(TimeoutKey, timeout);
    PlainSetting("command", "\"node\"", legacyAgent);
    PlainSetting("args", "[\"" + path + "\"]", legacyAgent);
    PlainSetting("enabled", "true", legacyAgent);
    PlainSetting(TimeoutKey, timeout, legacyAgent);
    hide TablePrefix, TimeoutKey;
  }

  lemma PartsPlain(key: string, value: string)
    requires NoParts(key) && NoParts(value)
    ensures Plain(SettingLine(key, value))
  {
    hide SettingLine, Plain;
    SettingParts(key, value);
    PlainByChars(SettingLine(key, value));
  }

  // The notes hold no "(" and no "E", or no "-"; the block texts hold one of each pair.

  lemma StateNotePlain() ensures Plain("# OMCP State Management MCP Server") {
    assert NoParts("# OMCP State Management MCP Server");
    PlainByChars("# OMCP State Management MCP Server");
  }

  lemma MemoryNotePlain() ensures Plain("# OMCP Project Memory MCP Server") {
    assert NoParts("# OMCP Project Memory MCP Server");
    PlainByChars("# OMCP Project Memory MCP Server");
  }

  lemma HyphenMarkers()
    ensures '-' in OmcpMarker && '-' in RegistryMarker && '-' in OmcpEnd && '-' in RegistryEnd
  {
    assert OmcpMarker[2] == '-' && RegistryMarker[2] == '-' && OmcpEnd[8] == '-' && RegistryEnd[8] == '-';
  }

  lemma PlainByHyphen(l: Line)
    requires '-' !in l
    ensures Plain(l)
  {
    hide Contains;
    HyphenMarkers();
    LacksChar(l, OmcpMarker, '-');
    LacksChar(l, RegistryMarker, '-');
    LacksChar(l, OmcpEnd, '-');
    LacksChar(l, RegistryEnd, '-');
  }

  predicate NoHyphen(s: string) { '-' !in s }

  lemma CodeIntelPlain() ensures Plain(CodeIntelNote) {
    assert NoHyphen("# OMCP Code Intelligence MCP Server ") && NoHyphen("(LSP diagnostics, AST search)");
    PlainByHyphen(CodeIntelNote);
  }

  lemma TracePlain() ensures Plain(TraceNote) {
    assert NoHyphen("# OMCP Trace MCP Server ") && NoHyphen("(agent flow timeline & statistics)");
    PlainByHyphen(TraceNote);
  }

  lemma WikiPlain() ensures Plain(WikiNote) {
    assert NoHyphen("# OMCP Wiki MCP Server ") && NoHyphen("(persistent project knowledge base)");
    PlainByHyphen(WikiNote);
  }

  predicate NameOk(name: string) { name != "" && ']' !in name && '(' !in name && 'E' !in name }

  lemma NamesOk()
    ensures NameOk("state") && NameOk("memory") && NameOk("code_intel") && NameOk("trace") && NameOk("wiki")
  {
  }

  lemma NotesStart()
    ensures "# OMCP State Management MCP Server"[0] == '#' && "# OMCP Project Memory MCP Server"[0] == '#'
    ensures CodeIntelNote[0] == '#' && TraceNote[0] == '#' && WikiNote[0] == '#'
  {
  }

  lemma BlankManaged(legacyAgent: string -> bool)
    ensures ManagedLine("", legacyAgent)
  {
    hide Contains, StartsMcp;
    NotesPlain();
    EmptyKind();
    NotMcpBlank("");
  }

  lemma AllManaged(p: Paths, legacyAgent: string -> bool)
    requires PathsOk(p)
    ensures forall l :: l in ManagedServers(p) ==> ManagedLine(l, legacyAgent)
    ensures KindOf(ManagedServers(p)[0]).Remark? && IsHeader(ManagedServers(p)[1]) && |ManagedServers(p)| >= 2
  {
    hide Contains, Plain, ManagedLine, SettingLine, HeaderLine, KindOf, TablePrefix;
    StateNotePlain();
    MemoryNotePlain();
    CodeIntelPlain();
    TracePlain();
    WikiPlain();
    NamesOk();
    NotesStart();
    BlankManaged(legacyAgent);
    ServerBlockOk("# OMCP State Management MCP Server", "state", p.state, "5", legacyAgent);
    ServerBlockOk("# OMCP Project Memory MCP Server", "memory", p.memory, "5", legacyAgent);
    ServerBlockOk(CodeIntelNote, "code_intel", p.codeIntel, "10", legacyAgent);
    ServerBlockOk(TraceNote, "trace", p.trace, "5", legacyAgent);
    ServerBlockOk(WikiNote, "wiki", p.wiki, "5", legacyAgent);
    FirstLines(p);
  }

  lemma FirstLines(p: Paths)
    ensures |ManagedServers(p)| >= 2
    ensures ManagedServers(p)[0] == "# OMCP State Management MCP Server" && ManagedServers(p)[1] == HeaderLine(TablePrefix + "state")
  {
  }

  /** The shipped servers are as `SetupOk` and `BlocksOk` want them, wherever the package lies, unless
      a script's path holds one of the block texts. */
  lemma ShippedServersOk(p: Paths, legacyAgent: string -> bool)
    requires PathsOk(p)
    ensures var managed := ManagedServers(p);
            && ManagedOk(managed) && |managed| >= 2 && KindOf(managed[0]).Remark? && IsHeader(managed[1])
            && forall l :: l in managed && IsHeader(l) ==> IsOrphan(l, legacyAgent)
  {
    hide Contains, Plain, StartsMcp, StartsOmcp, KindOf, IsOrphan, ManagedServers;
    AllManaged(p, legacyAgent);
    assert ManagedServers(p)[1] in ManagedServers(p);
  }

  // ----- the servers to the letter -----

  /** The five lines of a server below its comment. */
  predicate ServerAt(lines: seq<Line>, i: nat, header: string, path: string, timeout: string) {
    && i + 5 <= |lines| && lines[i] == header && lines[i + 1] == "command" + " = " + "\"node\""
    && lines[i + 2] == "args" + " = " + ("[\"" + path + "\"]") && lines[i + 3] == "enabled" + " = " + "true"
    && lines[i + 4] == "startup_timeout_sec" + " = " + timeout
  }

  lemma ServerTexts(comment: string, name: string, path: string, timeout: string)
    ensures var block := ServerBlock(comment, name, path, timeout);
            |block| == 6 && ServerAt(block, 1, "[" + ("mcp_servers.omcp_" + name) + "]", path, timeout)
  {
    assert TimeoutKey == "startup_timeout_sec" && TablePrefix == "mcp_servers.omcp_";
  }

  lemma ServerFirst(block: seq<Line>, rest: seq<Line>, header: string, path: string, timeout: string)
    requires |block| == 6 && ServerAt(block, 1, header, path, timeout)
    ensures ServerAt(block + rest, 1, header, path, timeout)
  {
  }

  lemma ServerLater(block: seq<Line>, rest: seq<Line>, i: nat, header: string, path: string, timeout: string)
    requires |block| == 6 && ServerAt(rest, i, header, path, timeout)
    ensures ServerAt(block + ([""] + rest), 7 + i, header, path, timeout)
  {
    var lines := block + ([""] + rest);
    assert forall k :: 0 <= k < |rest| ==> lines[7 + k] == rest[k];
  }

  lemma InOrder(a: seq<Line>, b: seq<Line>, c: seq<Line>, d: seq<Line>, e: seq<Line>)
    ensures a + [""] + (b + [""]) + (c + [""]) + (d + [""]) + e == a + ([""] + (b + ([""] + (c + ([""] + (d + ([""] + e)))))))
  {
  }

  /** A server in front of the others, which move on by its six lines and a blank one. */
  lemma OneMore(comment: string, name: string, path: string, timeout: string, rest: seq<Line>)
    ensures var block := ServerBlock(comment, name, path, timeout);
            |block + ([""] + rest)| == 7 + |rest|
            && ServerAt(block + ([""] + rest), 1, "[" + ("mcp_servers.omcp_" + name) + "]", path, timeout)
  {
    ServerTexts(comment, name, path, timeout);
    ServerFirst(ServerBlock(comment, name, path, timeout), [""] + rest, "[" + ("mcp_servers.omcp_" + name) + "]", path, timeout);
    hide ServerAt;
  }

  /** Five servers in this order, each run by node on its script. */
  lemma ShippedServersAre(p: Paths)
    ensures var lines := ManagedServers(p);
            && |lines| == 34
            && ServerAt(lines, 1, "[" + ("mcp_servers.omcp_" + "state") + "]", p.state, "5")
            && ServerAt(lines, 8, "[" + ("mcp_servers.omcp_" + "memory") + "]", p.memory, "5")
            && ServerAt(lines, 15, "[" + ("mcp_servers.omcp_" + "code_intel") + "]", p.codeIntel, "10")
            && ServerAt(lines, 22, "[" + ("mcp_servers.omcp_" + "trace") + "]", p.trace, "5")
            && ServerAt(lines, 29, "[" + ("mcp_servers.omcp_" + "wiki") + "]", p.wiki, "5")
  {
    var m, c, t, w := "[" + ("mcp_servers.omcp_" + "memory") + "]", "[" + ("mcp_servers.omcp_" + "code_intel") + "]",
                      "[" + ("mcp_servers.omcp_" + "trace") + "]", "[" + ("mcp_servers.omcp_" + "wiki") + "]";
    var one := ServerBlock("# OMCP State Management MCP Server", "state", p.state, "5");
    var two := ServerBlock("# OMCP Project Memory MCP Server", "memory", p.memory, "5");
    var three, four, five := ServerBlock(CodeIntelNote, "code_intel", p.codeIntel, "10"),
                             ServerBlock(TraceNote, "trace", p.trace, "5"), ServerBlock(WikiNote, "wiki", p.wiki, "5");
    InOrder(one, two, three, four, five);
    var d := four + ([""] + five);
    var e := three + ([""] + d);
    var f := two + ([""] + e);
    assert ManagedServers(p) == one + ([""] + f);
    ServerTexts("# OMCP State Management MCP Server", "state", p.state, "5");
    ServerTexts("# OMCP Project Memory MCP Server", "memory", p.memory, "5");
    ServerTexts(CodeIntelNote, "code_intel", p.codeIntel, "10");
    ServerTexts(TraceNote, "trace", p.trace, "5");
    ServerTexts(WikiNote, "wiki", p.wiki, "5");
    OneMore(TraceNote, "trace", p.trace, "5", five);
    OneMore(CodeIntelNote, "code_intel", p.codeIntel, "10", d);
    OneMore("# OMCP Project Memory MCP Server", "memory", p.memory, "5", e);
    OneMore("# OMCP State Management MCP Server", "state", p.state, "5", f);
    hide ServerBlock, ServerAt, ManagedServers, CodeIntelNote, TraceNote, WikiNote;
    ServerLater(four, five, 1, w, p.wiki, "5");
    ServerLater(three, d, 8, w, p.wiki, "5");
    ServerLater(two, e, 15, w, p.wiki, "5");
    ServerLater(one, f, 22, w, p.wiki, "5");
    ServerLater(three, d, 1, t, p.trace, "5");
    ServerLater(two, e, 8, t, p.trace, "5");
    ServerLater(one, f, 15, t, p.trace, "5");
    ServerLater(two, e, 1, c, p.codeIntel, "10");
    ServerLater(one, f, 8, c, p.codeIntel, "10");
    ServerLater(one, f, 1, m, p.memory, "5");
  }

  // ----- a setup that meets all demands -----

  lemma TopCommentPlain()
    ensures Plain(TopComment)
  {
    hide Contains;
    TopCommentChars();
    assert OmcpMarker[16] == 'M' && RegistryMarker[16] == 'M';
    EndChars();
    LacksChar(TopComment, OmcpMarker, 'M');
    LacksChar(TopComment, RegistryMarker, 'M');
    LacksChar(TopComment, OmcpEnd, 'E');
    LacksChar(TopComment, RegistryEnd, 'E');
  }

  lemma TopCommentChars()
    ensures 'M' !in TopComment && 'E' !in TopComment
  {
    TopCommentHead();
    assert 'M' !in "(must be before any [table])" && 'E' !in "(must be before any [table])";
  }

  lemma TopCommentHead()
    ensures 'M' !in "# oh-my-copilot top-level settings " && 'E' !in "# oh-my-copilot top-level settings "
  {
  }

  const SampleTop := TopOptions("[]", "\"high\"", "\"\"", "m", None)

  lemma SampleTopOk()
    ensures TopOk(SampleTop)
  {
    hide Contains, Plain, SettingLine;
    TopCommentPlain();
    SampleParts();
    PartsPlain(NotifyKey, "[]");
    PartsPlain(EffortKey, "\"high\"");
    PartsPlain(InstructionsKey, "\"\"");
    PartsPlain(ModelKey, "\"m\"");
    assert "\"" + "m" + "\"" == "\"m\"";
    SettingChars(ModelKey, "\"m\"");
    MarkerChars();
    LacksChar(SettingLine(ModelKey, "\"m\""), HookText, '.');
    hide TopComment;
  }

  lemma SampleParts()
    ensures NoParts(NotifyKey) && NoParts(EffortKey) && NoParts(InstructionsKey) && NoParts(ModelKey)
    ensures NoParts("[]") && NoParts("\"high\"") && NoParts("\"\"") && NoParts("\"m\"")
    ensures ValueOk("[]") && ValueOk("\"high\"") && ValueOk("\"\"") && '.' !in ModelKey && '.' !in "\"m\""
  {
    SampleKeys();
    SampleValues();
    SampleEnds();
  }

  lemma SampleKeys()
    ensures NoParts(NotifyKey) && NoParts(EffortKey) && NoParts(InstructionsKey) && NoParts(ModelKey) && '.' !in ModelKey
  {
  }

  lemma SampleValues()
    ensures NoParts("[]") && NoParts("\"high\"") && NoParts("\"\"") && NoParts("\"m\"") && '.' !in "\"m\""
  {
  }

  lemma SampleEnds()
    ensures ValueOk("[]") && ValueOk("\"high\"") && ValueOk("\"\"")
  {
  }

  // ----- a decision on sections, read off their lines -----

  /** The lines in front of the next bracket line. */
  function UpToOpener(lines: seq<Line>): seq<Line> {
    if lines == [] || Opens(lines[0]) then [] else [lines[0]] + UpToOpener(lines[1..])
  }

  const NpxLine := SettingLine("command", "\"npx\"")
  const UvxLine := SettingLine("command", "\"uvx\"")

  /** A server that is not OMCP's own, started by npx or uvx, without a startup timeout in its table. */
  predicate Launches(visible: seq<Line>) {
    visible != [] && StartsMcp(visible[0]) && !StartsOmcp(visible[0])
    && (var table := UpToOpener(visible[1..]);
        (exists l :: l in table && (Trim(l) == NpxLine || Trim(l) == UvxLine)) && !HasKey(table, TimeoutKey))
  }

  function LauncherNeeds(section: seq<Line>): bool { Launches(Visible(section)) }

  lemma {:induction false} UpToOpenerAll(lines: seq<Line>)
    requires NoOpens(lines)
    ensures UpToOpener(lines) == lines
  {
    hide KindOf, Opens;
    if lines != [] {
      assert lines == [lines[0]] + lines[1..];
      assert lines[0] in lines;
      UpToOpenerAll(lines[1..]);
    }
  }

  lemma VisibleHead(section: seq<Line>)
    requires section != []
    ensures if IsBlank(section[0]) then Visible(section) == Visible(section[1..])
            else Visible(section) == [section[0]] + Visible(section[1..])
  {
    hide KindOf, Visible;
    assert section == [section[0]] + section[1..];
    VisibleConcat([section[0]], section[1..]);
    VisibleOne(section[0]);
    assert [] + Visible(section[1..]) == Visible(section[1..]);
  }

  lemma VisibleOpensNone(lines: seq<Line>)
    requires NoOpens(lines)
    ensures NoOpens(Visible(lines))
  {
    hide KindOf, Opens, Visible;
    forall l | l in Visible(lines) ensures !Opens(l) { VisibleIn(lines, l); }
  }

  lemma LauncherStartsNoOmcp(section: seq<Line>)
    requires section != [] && LauncherNeeds(section)
    ensures !StartsOmcp(section[0])
  {
    hide KindOf, Visible, StartsMcp, UpToOpener, HasKey, Trim;
    VisibleHead(section);
    if IsBlank(section[0]) {
      BlankStartsNothing(section[0]);
    }
  }

  lemma BlankStartsNothing(l: Line)
    requires IsBlank(l)
    ensures !StartsMcp(l) && !StartsOmcp(l)
  {
    NotMcpBlank(l);
    assert "[mcp_servers." <= "[mcp_servers.omcp_";
  }

  lemma LauncherTakes(section: seq<Line>)
    requires section != [] && LauncherNeeds(section) && NoOpens(section[1..])
    ensures !LauncherNeeds(WithTimeout(section))
  {
    hide KindOf, Visible, StartsMcp, StartsOmcp, Trim, Opens, WithTimeout, TimeoutLine;
    VisibleHead(section);
    VisibleOpensNone(section[1..]);
    TimeoutKind();
    TimeoutStartsNothing();
    var rest := Visible(section[1..]);
    if IsBlank(section[0]) {
      VisibleMcp(rest);
    } else {
      WithTimeoutVisible(section);
      var longer := rest + [TimeoutLine];
      assert ([section[0]] + rest) + [TimeoutLine] == [section[0]] + longer;
      assert ([section[0]] + longer)[1..] == longer;
      forall l | l in longer ensures !Opens(l) { }
      UpToOpenerAll(longer);
      assert TimeoutLine in longer;
    }
  }

  lemma VisibleMcp(visible: seq<Line>)
    requires NoOpens(visible)
    ensures !Launches(visible)
  {
    if visible != [] {
      assert visible[0] in visible;
      NotMcp(visible[0]);
    }
  }

  lemma {:induction false} UpToOpenerMore(lines: seq<Line>, l: Line)
    requires !NoOpens(lines)
    ensures UpToOpener(lines + [l]) == UpToOpener(lines)
  {
    hide KindOf, Opens;
    assert lines != [] && (lines + [l])[0] == lines[0];
    if !Opens(lines[0]) {
      assert lines == [lines[0]] + lines[1..];
      assert (lines + [l])[1..] == lines[1..] + [l];
      UpToOpenerMore(lines[1..], l);
    }
  }

  lemma LauncherMisses(section: seq<Line>)
    requires section != [] && StartsMcp(section[0]) && LauncherNeeds(section) && !NoOpens(section[1..])
    ensures LauncherNeeds(WithTimeout(section))
  {
    hide KindOf, Visible, StartsMcp, StartsOmcp, Trim, Opens, WithTimeout, TimeoutLine, IsBlank, HasKey;
    McpVisible(section[0]);
    VisibleHead(section);
    WithTimeoutVisible(section);
    var rest := Visible(section[1..]);
    var l :| l in section[1..] && Opens(l);
    OpenerVisibleIn(section[1..], l);
    UpToOpenerMore(rest, TimeoutLine);
    assert ([section[0]] + rest) + [TimeoutLine] == [section[0]] + (rest + [TimeoutLine]);
    assert ([section[0]] + (rest + [TimeoutLine]))[1..] == rest + [TimeoutLine];
  }

  lemma OpenerVisibleIn(lines: seq<Line>, l: Line)
    requires l in lines && Opens(l)
    ensures l in Visible(lines)
  {
    VisibleIn(lines, l);
  }

  /** It decides on the first table of a section. */
  lemma LauncherLooks()
    ensures LooksAtTable(LauncherNeeds)
  {
    hide KindOf, LauncherNeeds, StartsMcp, NoOpens, WithTimeout;
    forall s: seq<Line> | s != [] && StartsMcp(s[0]) && LauncherNeeds(s) && !NoOpens(s[1..]) ensures LauncherNeeds(WithTimeout(s)) {
      LauncherMisses(s);
    }
  }

  /** The decision meets what the theorems ask of it, and is no empty one. */
  lemma LauncherSensible()
    ensures Sensible(LauncherNeeds)
    ensures LauncherNeeds([HeaderLine("mcp_servers.foo"), NpxLine])
  {
    hide KindOf, LauncherNeeds, WithTimeout, StartsOmcp, Opens, Visible;
    forall a, b | Visible(a) == Visible(b) ensures LauncherNeeds(a) == LauncherNeeds(b) { LooksAtVisible(a, b); }
    forall s: seq<Line> | s != [] && LauncherNeeds(s) ensures !StartsOmcp(s[0]) { LauncherStartsNoOmcp(s); }
    forall s: seq<Line> | s != [] && LauncherNeeds(s) && NoOpens(s[1..]) ensures !LauncherNeeds(WithTimeout(s)) { LauncherTakes(s); }
    NpxNeeds();
  }

  lemma LooksAtVisible(a: seq<Line>, b: seq<Line>)
    requires Visible(a) == Visible(b)
    ensures LauncherNeeds(a) == LauncherNeeds(b)
  {
  }

  lemma NpxKind()
    ensures Sets(NpxLine, "command") && Trim(NpxLine) == NpxLine && !IsBlank(NpxLine) && !Opens(NpxLine)
  {
    ServerKeys();
    assert !IsSpace('"');
    SettingLineKind("command", "\"npx\"");
    hide SettingLine, TrimEnd, TrimStart;
  }

  /** A launcher's section in which the table is over after the command. */
  lemma FooNeeds(header: Line, rest: seq<Line>)
    requires StartsMcp(header) && !StartsOmcp(header) && (rest == [] || Opens(rest[0]))
    requires forall l :: l in rest ==> !IsBlank(l)
    ensures LauncherNeeds([header, NpxLine] + rest)
  {
    hide KindOf, StartsMcp, StartsOmcp, Opens, NpxLine, Trim, TimeoutLine;
    NpxKind();
    CommandNotTimeout();
    McpVisible(header);
    var section := [header, NpxLine] + rest;
    forall l | l in section ensures !IsBlank(l) { }
    AllVisible(section);
    assert section[1..] == [NpxLine] + rest;
    NpxTable(rest);
    assert NpxLine in [NpxLine];
  }

  lemma NpxTable(rest: seq<Line>)
    requires rest == [] || Opens(rest[0])
    ensures UpToOpener([NpxLine] + rest) == [NpxLine]
  {
    hide KindOf, Opens, NpxLine;
    NpxKind();
    assert ([NpxLine] + rest)[1..] == rest;
    assert UpToOpener(rest) == [];
  }

  lemma CommandNotTimeout()
    ensures "command" != TimeoutKey
  {
    assert |"command"| == 7 && |TimeoutKey| == 19;
  }

  lemma NpxNeeds()
    ensures LauncherNeeds([HeaderLine("mcp_servers.foo"), NpxLine])
  {
    FooHeader(HeaderLine("mcp_servers.foo"));
    FooNeeds(HeaderLine("mcp_servers.foo"), []);
    assert [HeaderLine("mcp_servers.foo"), NpxLine] + [] == [HeaderLine("mcp_servers.foo"), NpxLine];
  }

  lemma FooHeader(l: Line)
    requires "[mcp_servers.foo]" <= l
    ensures StartsMcp(l) && !StartsOmcp(l)
  {
    assert l[0] == '[' && !IsSpace('[');
    TrimStartOfVisible(l);
    assert "[mcp_servers." <= "[mcp_servers.foo]";
    assert "[mcp_servers.foo]"[13] == 'f' && "[mcp_servers.omcp_"[13] == 'o';
    assert l[13] == 'f';
  }

  // ----- a setup -----

  const SampleAgent := "agents.planner"

  function SampleSetup(p: Paths, includeTui: bool): Setup {
    Setup(SampleTop, includeTui, ManagedServers(p), [], [], LauncherNeeds, lines => DropNotify([], lines), name => name == SampleAgent)
  }

  /** The demands of the setup theorems can be met together, with the shipped servers and decisions that
      go both ways. */
  lemma SetupCanBeMet(p: Paths, includeTui: bool)
    requires PathsOk(p)
    ensures SetupOk(SampleSetup(p, includeTui)) && BlocksOk(SampleSetup(p, includeTui))
    ensures SampleSetup(p, includeTui).needs([HeaderLine("mcp_servers.foo"), NpxLine])
    ensures IsOrphan(HeaderLine(SampleAgent), SampleSetup(p, includeTui).legacyAgent)
  {
    hide Contains, Plain, TopOk, ManagedOk, KindOf, ManagedServers, LauncherNeeds, Sensible;
    SampleTopOk();
    LauncherSensible();
    SampleAgentOk();
    ShippedServersOk(p, name => name == SampleAgent);
    HeaderLineKind(SampleAgent);
    assert HeaderLine(SampleAgent)[1..|HeaderLine(SampleAgent)| - 1] == SampleAgent;
  }

  lemma SampleAgentOk()
    ensures "agents." <= SampleAgent && ']' !in SampleAgent && SampleAgent != ""
  {
  }
}
