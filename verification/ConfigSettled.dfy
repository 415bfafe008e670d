/** What setup leaves of the user's part of config.toml, stage by stage: a file no later step has
    anything to change in. */
module ConfigSettled {
  import opened Text
  import opened ConfigLines
  import opened ConfigSections
  import opened ConfigTui
  import opened ConfigMarkers
  import opened ConfigTimeouts
  import opened ConfigRoot
  import opened ConfigStable
  import opened ConfigMerge

  predicate AcceptableLine(l: Line, legacyAgent: string -> bool) {
    && !Contains(l, OmcpMarker) && !Contains(l, RegistryMarker) && !Contains(l, HookText)
    && !IsTopComment(l) && !IsOrphan(l, legacyAgent)
  }

  function Acceptable(legacyAgent: string -> bool): Line -> bool {
    (l: Line) => AcceptableLine(l, legacyAgent)
  }

  /** A [tui] section, if there is one, is the only one and in the form the fold writes. */
  predicate TuiDone(lines: seq<Line>) {
    HasTitle(lines, TuiTitle) ==>
      (var d := CutAt(lines, TuiTitle);
       && d.header == TuiTitle && NoneTitled(d.after, TuiTitle)
       && Visible(d.body) == FirstKeys(d.body, {}) + [StatusLine])
  }

  ghost predicate Settled(s: Setup, lines: seq<Line>) {
    && All(Acceptable(s.legacyAgent), lines)
    && RootFree(lines, TopKeys) && (Overrides(s.top) ==> RootFree(lines, {ModelKey}))
    && FixedIn(Features, lines) && FixedIn(Env, lines) && FixedIn(Agents, lines)
    && (s.includeTui ==> TuiDone(lines))
  }

  // ----- the lines setup writes are acceptable -----

  lemma ContainsChars(l: Line, m: string, c: char)
    requires Contains(l, m) && c in m
    ensures c in l
  {
    IndexOfFirst(l, m, 0);
    var i := IndexOf(l, m, 0);
    OccursIff(l, m, i);
    var k :| 0 <= k < |m| && m[k] == c;
    assert l[i..i + |m|][k] == l[i + k];
    assert l[i + k] in l;
  }

  lemma LacksChar(l: Line, m: string, c: char)
    requires c in m && c !in l
    ensures !Contains(l, m)
  {
    if Contains(l, m) {
      ContainsChars(l, m, c);
    }
  }

  lemma MarkerChars()
    ensures '(' in OmcpMarker && '(' in RegistryMarker && '.' in HookText
  {
    assert OmcpMarker[14] == '(' && RegistryMarker[14] == '(' && HookText[11] == '.';
  }

  lemma TopCommentKind()
    ensures KindOf(TopComment) == Remark
  {
    assert TopComment[0] == '#';
    assert !IsSpace('#');
    TrimStartEndHead(TopComment);
  }

  lemma TrimStartEndHead(s: string)
    requires s != "" && !IsSpace(s[0])
    ensures Trim(s) != "" && Trim(s)[0] == s[0]
  {
    TrimEndKeepsHead(s);
  }

  /** A setting or one of the four headers, without "(" and ".". */
  lemma WrittenAcceptable(l: Line, legacyAgent: string -> bool)
    requires AgentsOk(legacyAgent) && '(' !in l && '.' !in l
    requires KindOf(l).Setting? || KindOf(l).Empty? || (KindOf(l).Table? && KindOf(l).text == l)
    ensures AcceptableLine(l, legacyAgent)
  {
    hide KindOf, Contains, Trim;
    MarkerChars();
    LacksChar(l, OmcpMarker, '(');
    LacksChar(l, RegistryMarker, '(');
    LacksChar(l, HookText, '.');
    NotTopComment(l);
    if IsOrphan(l, legacyAgent) {
      OrphanDot(l, legacyAgent);
    }
  }

  lemma OrphanDot(l: Line, legacyAgent: string -> bool)
    requires AgentsOk(legacyAgent) && IsOrphan(l, legacyAgent) && KindOf(l).text == l
    ensures '.' in l
  {
    hide KindOf;
    var name := l[1..|l| - 1];
    assert "mcp_servers.omcp_"[11] == '.' && "agents."[6] == '.';
    var k := if "mcp_servers.omcp_" <= name then 11 else 6;
    assert name[k] == '.' && l[k + 1] == name[k];
  }

  lemma NotTopComment(l: Line)
    requires !KindOf(l).Remark?
    ensures !IsTopComment(l)
  {
    TopCommentKind();
    KindIgnoresTrim(l);
    hide KindOf, Trim;
  }

  lemma AcceptableIsRobust(legacyAgent: string -> bool)
    ensures Robust(Acceptable(legacyAgent))
  {
    hide KindOf, Contains, TrimEnd, TrimStart, Trim;
    EmptyKind();
    EmptyAcceptable(legacyAgent);
    forall l | AcceptableLine(l, legacyAgent)
      ensures AcceptableLine(TrimEnd(l), legacyAgent) && AcceptableLine(TrimStart(l), legacyAgent)
    {
      TrimKeepsMarkers(l, OmcpMarker);
      TrimKeepsMarkers(l, RegistryMarker);
      TrimKeepsMarkers(l, HookText);
      KindIgnoresTrim(l);
      TrimsSame(l);
    }
  }

  lemma TrimsSame(l: Line)
    ensures Trim(TrimEnd(l)) == Trim(l) && Trim(TrimStart(l)) == Trim(l)
  {
    hide TrimEnd, TrimStart;
    TrimIgnoresEnd(l);
    TrimCommutes(l);
    TrimCommutes(TrimStart(l));
    TrimStartTwice(l);
  }

  lemma EmptyAcceptable(legacyAgent: string -> bool)
    ensures AcceptableLine("", legacyAgent)
  {
    EmptyKind();
    NotTopComment("");
    hide KindOf;
  }

  lemma BlockAcceptable(sec: Section, legacyAgent: string -> bool)
    requires AgentsOk(legacyAgent)
    ensures All(Acceptable(legacyAgent), Block(sec))
  {
    hide KindOf, AcceptableLine, AgentsOk, Trim;
    TitleKind(sec);
    EmptyKind();
    BlockChars(sec);
    forall l | l in Block(sec) ensures AcceptableLine(l, legacyAgent) {
      if l in Defaults(sec) { DefaultKinds(sec, l); }
      WrittenAcceptable(l, legacyAgent);
    }
  }

  lemma BlockChars(sec: Section)
    ensures forall l :: l in Block(sec) ==> '(' !in l && '.' !in l
  {
    hide SettingLine, HeaderLine, NoMarks;
    FeatureChars();
    OtherChars();
    match sec
    case Features =>
      MarklessSetting(MultiAgent, "true");
      MarklessSetting(ChildAgents, "true");
      MarklessSetting(CodexHooks, "true");
      MarklessHeader("features");
    case Env =>
      MarklessSetting(ExploreCmd, ExploreValue);
      MarklessHeader("env");
    case Agents =>
      MarklessSetting(MaxThreads, "6");
      MarklessSetting(MaxDepth, "2");
      MarklessHeader("agents");
  }

  lemma FeatureChars()
    ensures NoMarks(MultiAgent) && NoMarks(ChildAgents) && NoMarks(CodexHooks) && NoMarks("true") && NoMarks("features")
  {
  }

  lemma OtherChars()
    ensures NoMarks(ExploreCmd) && NoMarks(ExploreValue) && NoMarks(MaxThreads) && NoMarks(MaxDepth)
    ensures NoMarks("6") && NoMarks("2") && NoMarks("env") && NoMarks("agents")
  {
  }

  lemma MarklessSetting(key: string, value: string)
    requires NoMarks(key) && NoMarks(value)
    ensures '(' !in SettingLine(key, value) && '.' !in SettingLine(key, value)
  {
    SettingChars(key, value);
  }

  lemma MarklessHeader(name: string)
    requires NoMarks(name)
    ensures '(' !in HeaderLine(name) && '.' !in HeaderLine(name)
  {
    HeaderChars(name);
  }

  lemma SettingChars(key: string, value: string)
    ensures '(' !in key && '(' !in value ==> '(' !in SettingLine(key, value)
    ensures '.' !in key && '.' !in value ==> '.' !in SettingLine(key, value)
  {
  }

  lemma HeaderChars(name: string)
    ensures '(' !in name ==> '(' !in HeaderLine(name)
    ensures '.' !in name ==> '.' !in HeaderLine(name)
  {
  }

  lemma OtherAcceptable(legacyAgent: string -> bool)
    requires AgentsOk(legacyAgent)
    ensures AcceptableLine(TuiTitle, legacyAgent) && AcceptableLine(StatusLine, legacyAgent) && AcceptableLine(TimeoutLine, legacyAgent)
  {
    hide KindOf, AcceptableLine, AgentsOk, Trim, SettingLine, HeaderLine;
    TuiTitleKind();
    StatusKind();
    TimeoutKind();
    HeaderChars("tui");
    StatusChars();
    SettingChars(TimeoutKey, "15");
    WrittenAcceptable(TuiTitle, legacyAgent);
    WrittenAcceptable(StatusLine, legacyAgent);
    WrittenAcceptable(TimeoutLine, legacyAgent);
  }

  predicate NoMarks(text: string) { '(' !in text && '.' !in text }

  lemma StatusChars()
    ensures '(' !in StatusLine && '.' !in StatusLine
  {
    StatusModelPlain();
    StatusContextPlain();
    StatusTokensPlain();
    StatusLimitsPlain();
    SettingChars(StatusKey, StatusValue);
  }

  lemma StatusModelPlain()
    ensures NoMarks(StatusModel)
  {
  }

  lemma StatusContextPlain()
    ensures NoMarks(StatusContext)
  {
  }

  lemma StatusTokensPlain()
    ensures NoMarks(StatusTokens)
  {
  }

  lemma StatusLimitsPlain()
    ensures NoMarks(StatusLimits)
  {
  }

  lemma AcceptableIsWritable(legacyAgent: string -> bool)
    requires AgentsOk(legacyAgent)
    ensures Writable(Acceptable(legacyAgent))
  {
    hide KindOf, AcceptableLine, AgentsOk, Robust, All, Trim, SettingLine, HeaderLine;
    AcceptableIsRobust(legacyAgent);
    OtherAcceptable(legacyAgent);
    forall sec: Section ensures All(Acceptable(legacyAgent), Block(sec)) {
      BlockAcceptable(sec, legacyAgent);
    }
  }

  // ----- the user's part after setup -----

  predicate TameLine(l: Line) {
    !Contains(l, OmcpMarker) && !Contains(l, RegistryMarker)
  }

  lemma PartRobust(m: string)
    requires m != ""
    ensures Robust((l: Line) => !Contains(l, m))
  {
    hide KindOf, Contains;
    EmptyHolds(m);
    forall l ensures !Contains(l, m) ==> !Contains(TrimEnd(l), m) && !Contains(TrimStart(l), m) {
      TrimKeepsMarkers(l, m);
    }
  }

  lemma NoOpenerRobust()
    ensures Robust((l: Line) => !KindOf(l).Opener?)
  {
    hide KindOf;
    EmptyKind();
    forall l ensures KindOf(TrimEnd(l)) == KindOf(l) == KindOf(TrimStart(l)) {
      KindIgnoresTrim(l);
    }
  }

  lemma UnmarkedTame(config: seq<Line>)
    ensures forall l :: l in Unmarked(config) ==> TameLine(l)
  {
    hide KindOf, Contains, StripBlocks, Robust;
    NonEmptyMarkers();
    var once := StripBlocks(config, OmcpMarks);
    StripBlocksIsClean(config, OmcpMarks);
    PartRobust(OmcpMarker);
    StripBlocksKeeps((l: Line) => !Contains(l, OmcpMarker), once, RegistryMarks);
    StripBlocksIsClean(once, RegistryMarks);
  }

  /** After the notify lines have gone, nothing holds the script's path. */
  lemma NotifyCleared(lines: seq<Line>)
    requires NotifyInLines(lines) && forall l :: l in lines ==> TameLine(l) && !IsTopComment(l)
    ensures forall l :: l in DropNotify([], lines) ==> TameLine(l) && !Contains(l, HookText) && !IsTopComment(l)
  {
    hide KindOf, Contains, IsTopComment, IsNotifyLine, DropNotify;
    NonEmptyMarkers();
    EmptyHolds(OmcpMarker);
    EmptyHolds(RegistryMarker);
    EmptyHolds(HookText);
    EmptyIsNoNotify();
    EmptyKind();
    NotTopComment("");
    var p := (l: Line) => TameLine(l) && !IsTopComment(l) && (Contains(l, HookText) ==> IsNotifyLine(l));
    DropNotifyKeeps(p, [], lines);
  }

  lemma ClearedIs(s: Setup, lines: seq<Line>)
    requires NotifyOk(s.dropNotify) && forall l :: l in lines ==> TameLine(l)
    requires NotifyInLines(StripRootKeys(lines, TopKeys, true))
    ensures All(Acceptable(s.legacyAgent), Cleared(s, lines))
    ensures RootFree(Cleared(s, lines), TopKeys) && (Overrides(s.top) ==> RootFree(Cleared(s, lines), {ModelKey}))
  {
    hide KindOf, Contains, IsTopComment, IsOrphan, StripRootKeys, RootFree, Overrides, StripOrphans, DropNotify, IsNotifyLine;
    var p := (l: Line) => TameLine(l);
    StripRootKeysKeeps(p, lines, TopKeys, true);
    var bare := StripRootKeys(lines, TopKeys, true);
    StrippedRootFree(lines, TopKeys, true, TopKeys);
    NotifyCleared(bare);
    assert [] + bare == bare;
    DropNotifyRoot([], bare, TopKeys);
    var quiet := DropNotify([], bare);
    var q := (l: Line) => TameLine(l) && !Contains(l, HookText) && !IsTopComment(l);
    assert All(q, quiet);
    var ready := if Overrides(s.top) then StripRootKeys(quiet, {ModelKey}, false) else quiet;
    StripRootKeysKeeps(q, quiet, {ModelKey}, false);
    StrippedRootFree(quiet, {ModelKey}, false, TopKeys);
    StripOrphansKeeps(q, [], ready, s.legacyAgent);
    assert [] + ready == ready;
    StripOrphansRoot([], ready, s.legacyAgent, TopKeys);
    if Overrides(s.top) {
      StripOrphansRoot([], ready, s.legacyAgent, {ModelKey});
    }
  }

  lemma StrippedRootFree(lines: seq<Line>, keys: set<string>, dropComment: bool, other: set<string>)
    ensures RootFree(StripRootKeys(lines, keys, dropComment), keys)
    ensures !dropComment && RootFree(lines, other) ==> RootFree(StripRootKeys(lines, keys, dropComment), other)
  {
    hide KindOf, RootFree;
    DropRootKeysFrees(if dropComment then DropTopComment(lines) else lines, keys);
    if !dropComment && RootFree(lines, other) {
      DropRootKeysStaysFree(lines, keys, other);
    }
  }

  lemma SectionedIs(s: Setup, lines: seq<Line>, keys: set<string>)
    requires AgentsOk(s.legacyAgent) && All(Acceptable(s.legacyAgent), lines)
    ensures All(Acceptable(s.legacyAgent), Sectioned(lines))
    ensures RootFree(lines, keys) ==> RootFree(Sectioned(lines), keys)
    ensures FixedIn(Features, Sectioned(lines)) && FixedIn(Env, Sectioned(lines)) && FixedIn(Agents, Sectioned(lines))
  {
    hide KindOf, AcceptableLine, All, Robust, Upsert, FixedIn, RootFree, Block;
    var p := Acceptable(s.legacyAgent);
    AcceptableIsRobust(s.legacyAgent);
    BlockAcceptable(Features, s.legacyAgent);
    BlockAcceptable(Env, s.legacyAgent);
    BlockAcceptable(Agents, s.legacyAgent);
    var f := Upsert(Features, lines);
    var e := Upsert(Env, f);
    UpsertKeepsAll(p, Features, lines);
    UpsertKeepsAll(p, Env, f);
    UpsertKeepsAll(p, Agents, e);
    UpsertFixes(Features, lines);
    UpsertFixes(Env, f);
    UpsertFixes(Agents, e);
    UpsertKeepsFixed(Env, Features, f);
    UpsertKeepsFixed(Agents, Features, e);
    UpsertKeepsFixed(Agents, Env, e);
    if RootFree(lines, keys) {
      UpsertKeepsRoot(Features, lines, keys);
      UpsertKeepsRoot(Env, f, keys);
      UpsertKeepsRoot(Agents, e, keys);
    }
  }

  lemma UpsertFixes(sec: Section, lines: seq<Line>)
    ensures FixedIn(sec, Upsert(sec, lines))
  {
    UpsertEstablishes(sec, lines);
  }

  lemma FoldIsDone(lines: seq<Line>)
    ensures TuiDone(FoldTui(lines))
  {
    hide KindOf, HasTitle, CutAt, Visible, TuiTitle, FoldTui, FirstKeys, TuiBodies, OutsideTui, StatusLine, IsWord;
    if HasTitle(lines, TuiTitle) {
      OneTuiSection(lines);
      var d := CutAt(FoldTui(lines), TuiTitle);
      FirstKeysVisible(d.body, {});
      StatusKind();
      forall l | l in [StatusLine] ensures TuiKey(l) == "" || TuiKey(l) == StatusKey {
      }
      FirstKeysTwice(TuiBodies(lines), [StatusLine]);
    } else {
      NoFold(lines);
    }
  }

  lemma NoFold(lines: seq<Line>)
    requires !HasTitle(lines, TuiTitle)
    ensures FoldTui(lines) == lines
  {
  }

  /** After the steps on the user's part, none of them has anything left to do. */
  lemma ExistingSettled(s: Setup, config: seq<Line>)
    requires SetupOk(s) && Readable(config)
    ensures Settled(s, Existing(s, Unmarked(config)))
  {
    hide KindOf, AcceptableLine, All, Robust, FixedIn, RootFree, TuiDone, FoldTui, Sectioned, Cleared, Contains, Sensible, TopOk, SharedOk, ManagedOk, StripRootKeys, Overrides, Unmarked;
    var lines := Unmarked(config);
    UnmarkedTame(config);
    ClearedIs(s, lines);
    var cleared := Cleared(s, lines);
    SectionedIs(s, cleared, TopKeys);
    SectionedIs(s, cleared, {ModelKey});
    var ready := Sectioned(cleared);
    if s.includeTui {
      AcceptableIsWritable(s.legacyAgent);
      FoldKeepsAll(Acceptable(s.legacyAgent), ready);
      FoldKeepsRoot(ready, TopKeys);
      if Overrides(s.top) { FoldKeepsRoot(ready, {ModelKey}); }
      FoldKeepsFixed(Features, ready);
      FoldKeepsFixed(Env, ready);
      FoldKeepsFixed(Agents, ready);
      FoldIsDone(ready);
    }
  }

  // ----- trimming the end -----

  lemma TuiDoneTrim(lines: seq<Line>)
    requires TuiDone(lines)
    ensures TuiDone(TrimEndLines(lines))
    ensures HasTitle(TrimEndLines(lines), TuiTitle) <==> HasTitle(lines, TuiTitle)
  {
    hide KindOf, HasTitle, CutAt, Visible, TuiTitle, FirstKeys, StatusLine, TrimEndLines, TrimLast, TrimEnd, NoneTitled;
    var b := TrimEndLines(lines);
    TrimEndVisible(lines);
    CutVisible(lines, TuiTitle);
    CutVisible(b, TuiTitle);
    var v := Visible(lines);
    if HasTitle(lines, TuiTitle) {
      CutTrim(v, TuiTitle);
      var d, e := CutAt(lines, TuiTitle), CutAt(b, TuiTitle);
      var c := VisibleCut(d);
      assert VisibleCut(e) == TrimCut(c);
      StatusKind();
      LastStatus(c.body, FirstKeys(d.body, {}));
      NoneTitledTrim(d, e);
      TuiBodySame(d, e);
    } else {
      NoTitleTrim(lines);
    }
  }

  lemma LastStatus(body: seq<Line>, keys: seq<Line>)
    requires body == keys + [StatusLine] && TrimEnd(StatusLine) == StatusLine
    ensures TrimLast(body) == body && body != []
  {
    hide TrimEnd;
    assert body[..|body| - 1] == keys;
  }

  lemma NoneTitledTrim(d: Cut, e: Cut)
    requires VisibleCut(e) == TrimCut(VisibleCut(d)) && NoneTitled(d.after, TuiTitle) && VisibleCut(d).body != []
    ensures NoneTitled(e.after, TuiTitle)
  {
    hide KindOf, Visible, TuiTitle, TrimEnd, TrimLast;
    NoneTitledVisible(d.after, TuiTitle);
    NoneTitledVisible(e.after, TuiTitle);
    TrimLastTitles(Visible(d.after), TuiTitle);
  }

  lemma TrimLastTitles(lines: seq<Line>, title: string)
    requires NoneTitled(lines, title)
    ensures NoneTitled(TrimLast(lines), title)
  {
    hide KindOf, TrimEnd;
    if lines != [] {
      var n := |lines| - 1;
      KindIgnoresTrim(lines[n]);
      assert lines[n] in lines;
    }
  }

  lemma TuiBodySame(d: Cut, e: Cut)
    requires VisibleCut(e) == TrimCut(VisibleCut(d)) && d.header == TuiTitle
    requires Visible(d.body) == FirstKeys(d.body, {}) + [StatusLine] && TrimLast(Visible(d.body)) == Visible(d.body) != []
    ensures e.header == TuiTitle && Visible(e.body) == FirstKeys(e.body, {}) + [StatusLine]
  {
    hide KindOf, Visible, TuiTitle, FirstKeys, StatusLine, TrimEnd, TrimLast;
    FirstKeysVisible(d.body, {});
    FirstKeysVisible(e.body, {});
  }

  lemma NoTitleTrim(lines: seq<Line>)
    requires !HasTitle(lines, TuiTitle)
    ensures !HasTitle(TrimEndLines(lines), TuiTitle)
  {
    hide KindOf, HasTitle, TuiTitle, TrimEndLines;
    NoTitleAt(lines, TuiTitle);
    TrimKeepsAbsent(lines, TuiTitle);
    NoTitleAt(TrimEndLines(lines), TuiTitle);
  }

  lemma TrimSettled(s: Setup, lines: seq<Line>)
    requires Settled(s, lines)
    ensures Settled(s, TrimEndLines(lines)) && EndsTrimmed(TrimEndLines(lines)) && TrimEndLines(lines) != []
  {
    hide KindOf, AcceptableLine, All, Robust, FixedIn, RootFree, TuiDone, TrimEndLines, EndsTrimmed, Overrides;
    AcceptableIsRobust(s.legacyAgent);
    TrimEndKeeps(Acceptable(s.legacyAgent), lines);
    RootFreeTrim(lines, TopKeys);
    if Overrides(s.top) { RootFreeTrim(lines, {ModelKey}); }
    FixedTrimmed(Features, lines);
    FixedTrimmed(Env, lines);
    FixedTrimmed(Agents, lines);
    if s.includeTui { TuiDoneTrim(lines); }
    TrimEndsTrimmed(lines);
  }

  lemma FixedTrimmed(sec: Section, lines: seq<Line>)
    requires FixedIn(sec, lines)
    ensures FixedIn(sec, TrimEndLines(lines)) && TrimEndLines(lines) != []
  {
    hide KindOf, FixedIn, TrimEndLines;
    FixedInTrim(sec, lines, []);
    assert TrimEndLines(lines) + [] == TrimEndLines(lines);
    NotEmptyFixed(sec, lines, []);
  }

  lemma {:induction false} TrimEndsTrimmed(lines: seq<Line>)
    ensures EndsTrimmed(TrimEndLines(lines))
  {
    hide KindOf, TrimEnd;
    if lines != [] {
      var n := |lines| - 1;
      if IsBlank(lines[n]) {
        TrimEndsTrimmed(lines[..n]);
      } else {
        KindIgnoresTrim(lines[n]);
        TrimEndTwice(lines[n]);
      }
    }
  }
}
