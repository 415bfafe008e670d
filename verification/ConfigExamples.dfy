/** Files on which setup breaks its laws, each through the law's exact condition: a bracket line with a
    comment behind it does not end a table for setup. */
module ConfigExamples {
  import opened Text
  import opened ConfigLines
  import opened ConfigSections
  import opened ConfigTui
  import opened ConfigMarkers
  import opened ConfigTimeouts
  import opened ConfigRoot
  import opened ConfigStable
  import opened ConfigMerge
  import opened ConfigSettled
  import opened ConfigRepaired
  import opened ConfigFooter
  import opened ConfigSetup
  import opened ConfigKeeps
  import opened ConfigUpserts
  import opened ConfigFolds
  import opened ConfigOutside
  import opened ConfigPreserves
  import opened ConfigShipped

  // ----- files that reach the section edits as they are -----

  ghost predicate Undisturbed(legacyAgent: string -> bool, a: seq<Line>) {
    a != [] && Opens(a[0]) && EndsTrimmed(a) && All(Acceptable(legacyAgent), a)
  }

  lemma UndisturbedIs(s: Setup, a: seq<Line>)
    requires SetupOk(s) && Undisturbed(s.legacyAgent, a)
    ensures Unmarked(a) == a && Readable(a) && Cleared(s, a) == a && HeadedBlocks(a, Nowhere, false)
  {
    hide KindOf, Contains, IsTopComment, IsOrphan, StripBlocks, StripOrphans, Overrides, IsNotifyLine, DropNotify, TopOk, ManagedOk, SharedOk, Sensible, SetsOneOf, Opens, EndsTrimmed;
    NonEmptyMarkers();
    AcceptableIs(s.legacyAgent, a);
    StripBlocksIsClean(a, OmcpMarks);
    StripBlocksIsClean(a, RegistryMarks);
    DropTopCommentNone(a);
    assert StripRootKeys(a, TopKeys, true) == a && StripRootKeys(a, {ModelKey}, false) == a;
    assert NotifyInLines(a);
    forall l | l in a ensures !IsNotifyLine(l) {
      if IsNotifyLine(l) { NotifyHoldsText(l); }
    }
    DropNotifyNone([], a);
    StripOrphansNone([], a, s.legacyAgent);
    assert [] + a == a;
    PlainHeaded(a);
  }

  lemma AcceptableIs(legacyAgent: string -> bool, a: seq<Line>)
    requires All(Acceptable(legacyAgent), a)
    ensures forall l :: l in a ==> AcceptableLine(l, legacyAgent)
  {
    forall l | l in a ensures AcceptableLine(l, legacyAgent) { assert Acceptable(legacyAgent)(l); }
    hide AcceptableLine;
  }

  lemma {:induction false} PlainHeaded(a: seq<Line>)
    requires forall l :: l in a ==> !Contains(l, OmcpMarker) && !Contains(l, RegistryMarker)
    ensures HeadedBlocks(a, Nowhere, false)
    decreases |a|
  {
    hide KindOf, Contains, Opens, Idle, OmcpMarker, RegistryMarker;
    if a != [] {
      assert a[0] in a;
      PlainHeaded(a[1..]);
    }
  }

  /** A line without a hyphen holds neither a block text nor the hook script's name. */
  lemma HyphenlessAcceptable(l: Line, legacyAgent: string -> bool)
    requires '-' !in l && !KindOf(l).Remark? && !IsOrphan(l, legacyAgent)
    ensures AcceptableLine(l, legacyAgent)
  {
    hide KindOf, Contains, IsOrphan, Trim;
    HyphenMarkers();
    assert HookText[6] == '-';
    LacksChar(l, OmcpMarker, '-');
    LacksChar(l, RegistryMarker, '-');
    LacksChar(l, HookText, '-');
    NotTopComment(l);
  }

  /** A bracket line that ends in neither a bracket nor a space is no whole header. */
  lemma CommentedHeader(l: Line)
    requires l != "" && l[0] == '[' && l[|l| - 1] != ']' && !IsSpace(l[|l| - 1])
    ensures KindOf(l).Opener? && Trim(l) == l
  {
    assert !IsSpace('[');
    TrimVisible(l);
  }

  lemma SettingAcceptable(key: string, value: string, legacyAgent: string -> bool)
    requires BareKey(key) && ValueOk(value) && '-' !in key && '-' !in value
    ensures AcceptableLine(SettingLine(key, value), legacyAgent) && Sets(SettingLine(key, value), key)
    ensures TrimEnd(SettingLine(key, value)) == SettingLine(key, value)
  {
    SettingLineKind(key, value);
    assert '-' !in " = ";
    assert forall c :: c in SettingLine(key, value) ==> c in key || c in " = " || c in value;
    hide KindOf, SettingLine, Contains;
    HyphenlessAcceptable(SettingLine(key, value), legacyAgent);
  }

  lemma CommentedAcceptable(l: Line, legacyAgent: string -> bool)
    requires l != "" && l[0] == '[' && l[|l| - 1] != ']' && !IsSpace(l[|l| - 1]) && '-' !in l
    ensures AcceptableLine(l, legacyAgent)
  {
    CommentedHeader(l);
    hide KindOf, Contains;
    HyphenlessAcceptable(l, legacyAgent);
  }

  lemma TitleAcceptable(name: string, legacyAgent: string -> bool)
    requires AgentsOk(legacyAgent) && name != "" && ']' !in name && '(' !in name && '.' !in name
    ensures AcceptableLine(HeaderLine(name), legacyAgent) && KindOf(HeaderLine(name)) == Table(HeaderLine(name))
  {
    HeaderLineKind(name);
    hide KindOf, Contains;
    WrittenAcceptable(HeaderLine(name), legacyAgent);
  }

  /** A title that is not in the file gets its section behind the file. */
  lemma UpsertBehind(sec: Section, a: seq<Line>, t: seq<Line>) returns (u: seq<Line>)
    requires a != [] && NoneTitled(a, Title(sec)) && StartsSection(t)
    requires t == [] ==> sec == Features && EndsTrimmed(a)
    ensures Upsert(sec, a + t) == a + u && StartsSection(u) && u != []
  {
    hide KindOf, HasTitle, NoneTitled, NoHeaders, CutAt, Fix, TrimEndLines, HeaderLine, EndsTrimmed, Defaults, IsCut;
    NoTitleAt(a, Title(sec));
    CutConcat(a, t, Title(sec));
    TitleKind(sec);
    if HasTitle(t, Title(sec)) {
      var c := CutAt(t, Title(sec));
      CutAtIs(t, Title(sec));
      u := Upsert(sec, t);
      assert u == Glue(c.(body := Fix(sec, c.body)));
      GlueBefore(c.(body := Fix(sec, c.body)), a);
      CutStarts(c, Fix(sec, c.body), Title(sec));
    } else if t == [] {
      u := Block(sec);
      NothingBehind(a);
      assert a + [] == a;
      assert Gap(Features) == [];
    } else {
      TrimBehind(a, t);
      u := TrimEndLines(t) + Gap(sec) + Block(sec);
      assert a + TrimEndLines(t) + Gap(sec) + Block(sec) == a + u;
    }
  }

  lemma NothingBehind(a: seq<Line>)
    requires EndsTrimmed(a)
    ensures TrimEndLines(a + []) == a
  {
    TrimEndBlank(a, []);
  }

  lemma CutStarts(c: Cut, body: seq<Line>, title: string)
    requires IsCut(c, title) && StartsSection(Glue(c))
    ensures StartsSection(Glue(c.(body := body))) && Glue(c.(body := body)) != []
  {
    hide KindOf, NoneTitled, NoHeaders;
    assert Glue(c)[0] == Glue(c.(body := body))[0];
    assert Glue(c) != [];
  }

  lemma {:induction false} TrimBehind(a: seq<Line>, t: seq<Line>)
    requires t != [] && IsHeader(t[0])
    ensures TrimEndLines(a + t) == a + TrimEndLines(t)
    ensures TrimEndLines(t) != [] && IsHeader(TrimEndLines(t)[0])
    decreases |t|
  {
    hide KindOf, TrimEnd;
    var n := |t| - 1;
    assert (a + t)[|a + t| - 1] == t[n] && (a + t)[..|a + t| - 1] == a + t[..n];
    KindIgnoresTrim(t[n]);
    if IsBlank(t[n]) {
      HeaderNotBlankLine(t[0]);
      TrimBehind(a, t[..n]);
    }
  }

  lemma HeaderNotBlankLine(l: Line)
    requires IsHeader(l)
    ensures !IsBlank(l)
  {
  }

  /** All three sections behind the file. */
  lemma SectionedBehind(a: seq<Line>) returns (t: seq<Line>)
    requires a != [] && EndsTrimmed(a) && forall sec: Section :: NoneTitled(a, Title(sec))
    ensures Sectioned(a) == a + t && StartsSection(t) && t != []
  {
    hide KindOf, NoneTitled, Upsert, EndsTrimmed, StartsSection;
    NothingStarts();
    assert a + [] == a;
    t := UpsertBehind(Features, a, []);
    t := UpsertBehind(Env, a, t);
    t := UpsertBehind(Agents, a, t);
  }

  lemma NothingStarts()
    ensures StartsSection([])
  {
  }

  // ----- the timeout that is added again and again -----

  const FooCommented: Line := "[mcp_servers.foo] # note"
  const OtherCommented: Line := "[other] # note"
  const LauncherFile: seq<Line> := [FooCommented, NpxLine, OtherCommented, SettingLine("x", "1")]

  lemma FooChars()
    ensures '-' !in FooCommented && FooCommented[|FooCommented| - 1] == 'e' && FooCommented[0] == '['
    ensures "[mcp_servers.foo]" <= FooCommented
  {
  }

  lemma OtherChars()
    ensures '-' !in OtherCommented && OtherCommented[|OtherCommented| - 1] == 'e' && OtherCommented[0] == '['
  {
  }

  lemma XSetting(legacyAgent: string -> bool)
    ensures AcceptableLine(SettingLine("x", "1"), legacyAgent) && Sets(SettingLine("x", "1"), "x")
    ensures TrimEnd(SettingLine("x", "1")) == SettingLine("x", "1")
  {
    assert BareKey("x") && ValueOk("1") && '-' !in "x" && '-' !in "1";
    hide BareKey, ValueOk;
    SettingAcceptable("x", "1", legacyAgent);
  }

  lemma NpxAcceptable(legacyAgent: string -> bool)
    ensures AcceptableLine(NpxLine, legacyAgent)
  {
    ServerKeys();
    assert ValueOk("\"npx\"") && '-' !in "command" && '-' !in "\"npx\"";
    hide BareKey, ValueOk;
    SettingAcceptable("command", "\"npx\"", legacyAgent);
  }

  lemma LauncherKinds()
    ensures KindOf(FooCommented).Opener? && KindOf(OtherCommented).Opener? && KindOf(NpxLine).Setting? && KindOf(SettingLine("x", "1")).Setting?
  {
    FooChars();
    OtherChars();
    assert !IsSpace('e');
    CommentedHeader(FooCommented);
    CommentedHeader(OtherCommented);
    NpxKind();
    XSetting(name => false);
    hide KindOf, SettingLine, NpxLine, FooCommented, OtherCommented;
  }

  lemma LauncherUndisturbed(legacyAgent: string -> bool)
    ensures Undisturbed(legacyAgent, LauncherFile)
  {
    FooChars();
    OtherChars();
    assert !IsSpace('e');
    CommentedAcceptable(FooCommented, legacyAgent);
    CommentedAcceptable(OtherCommented, legacyAgent);
    NpxAcceptable(legacyAgent);
    XSetting(legacyAgent);
    LauncherKinds();
    hide KindOf, AcceptableLine, SettingLine, NpxLine, FooCommented, OtherCommented, TrimEnd;
  }

  /** One launcher with a comment behind its header, one more table with a comment behind its: setup adds
      a startup timeout below the other table, does not find it there the next time, and adds a second. */
  lemma MergeTwiceFails(p: Paths)
    requires PathsOk(p)
    ensures var s := SampleSetup(p, false);
            SetupOk(s) && Readable(LauncherFile) && Visible(Merge(s, Merge(s, LauncherFile))) != Visible(Merge(s, LauncherFile))
  {
    hide KindOf, Undisturbed, SetupOk, BlocksOk, Merge, Visible, Readable, LauncherFile, Cleared, Unmarked, RepairsTake, Sectioned, EndsTrimmed, ManagedServers, LauncherNeeds, StartsSection, TrimEndLines, PathsOk;
    var s := SampleSetup(p, false);
    SetupCanBeMet(p, false);
    LauncherUndisturbed(s.legacyAgent);
    UndisturbedIs(s, LauncherFile);
    LauncherUntitled();
    var t := SectionedBehind(LauncherFile);
    BehindStarts(t);
    TrimBehind(LauncherFile, t);
    BehindStarts(TrimEndLines(t));
    assert UserPart(s, LauncherFile) == LauncherFile + TrimEndLines(t);
    LauncherTakesNot(TrimEndLines(t));
    MergeTwice(s, LauncherFile);
  }

  lemma BehindStarts(t: seq<Line>)
    ensures t != [] ==> (StartsSection(t) <==> IsHeader(t[0]))
  {
  }

  lemma LauncherUntitled()
    ensures LauncherFile != [] && EndsTrimmed(LauncherFile) && forall sec: Section :: NoneTitled(LauncherFile, Title(sec))
  {
    LauncherKinds();
    XSetting(name => false);
    hide KindOf, AcceptableLine, SettingLine, NpxLine, FooCommented, OtherCommented, TrimEnd, HeaderLine;
  }

  lemma LauncherTakesNot(t: seq<Line>)
    requires t != [] && IsHeader(t[0])
    ensures !RepairsTake(LauncherFile + t, LauncherNeeds)
  {
    hide KindOf, LauncherNeeds, StartsMcp, StartsOmcp, SettingLine, NpxLine, FooCommented, OtherCommented, TimeoutLine, Takes;
    LauncherKinds();
    FooChars();
    FooHeader(FooCommented);
    LauncherPart(t);
    TakesPart(LauncherFile, t, LauncherNeeds);
    LauncherAgain();
  }

  lemma LauncherPart(t: seq<Line>)
    requires StartsMcp(FooCommented) && t != [] && IsHeader(t[0])
    ensures IsPart(LauncherFile, t) && LauncherFile[0] == FooCommented
  {
    hide KindOf, StartsMcp, NpxLine, SettingLine, FooCommented, OtherCommented;
    LauncherKinds();
  }

  lemma LauncherAgain()
    ensures !Takes(LauncherFile, LauncherNeeds)
  {
    hide KindOf, LauncherNeeds, StartsMcp, StartsOmcp, SettingLine, NpxLine, FooCommented, OtherCommented, TimeoutLine;
    LauncherKinds();
    FooChars();
    FooHeader(FooCommented);
    TimeoutStartsNothing();
    var x := SettingLine("x", "1");
    var rest := [OtherCommented, x];
    FooNeeds(FooCommented, rest);
    assert LauncherFile == [FooCommented, NpxLine] + rest;
    FooNeeds(FooCommented, rest + [TimeoutLine]);
    assert [FooCommented, NpxLine] + (rest + [TimeoutLine]) == LauncherFile + [TimeoutLine];
    LauncherLonger();
  }

  lemma LauncherLonger()
    ensures WithTimeout(LauncherFile) == LauncherFile + [TimeoutLine]
  {
    LauncherKinds();
    hide KindOf, SettingLine, NpxLine, FooCommented, OtherCommented, TimeoutLine;
  }

  // ----- lines that change their table -----

  const TuiFile: seq<Line> := [TuiTitle, SettingLine("x", "1"), OtherCommented, SettingLine("x", "1")]

  lemma OtherAcceptable(legacyAgent: string -> bool)
    ensures AcceptableLine(OtherCommented, legacyAgent) && Opens(OtherCommented)
  {
    OtherChars();
    assert !IsSpace('e');
    CommentedAcceptable(OtherCommented, legacyAgent);
    LauncherKinds();
    hide KindOf, AcceptableLine, OtherCommented;
  }

  lemma TuiLine(legacyAgent: string -> bool)
    requires AgentsOk(legacyAgent)
    ensures AcceptableLine(TuiTitle, legacyAgent) && Titled(TuiTitle, TuiTitle)
  {
    assert ']' !in "tui" && '(' !in "tui" && '.' !in "tui";
    TitleAcceptable("tui", legacyAgent);
    hide KindOf, AcceptableLine, HeaderLine;
  }

  lemma TuiUndisturbed(legacyAgent: string -> bool)
    requires AgentsOk(legacyAgent)
    ensures Undisturbed(legacyAgent, TuiFile) && Titled(TuiFile[0], TuiTitle)
  {
    TuiLine(legacyAgent);
    OtherAcceptable(legacyAgent);
    XSetting(legacyAgent);
    hide KindOf, AcceptableLine, SettingLine, OtherCommented, TuiTitle, TrimEnd;
  }

  lemma TuiShape()
    ensures NoHeaders(TuiFile[1..]) && OtherCommented in TuiFile[1..] && Opens(OtherCommented) && Titled(TuiFile[0], TuiTitle)
    ensures forall sec: Section :: NoneTitled(TuiFile, Title(sec))
  {
    TuiLine(name => false);
    LauncherKinds();
    forall sec: Section ensures Title(sec) != TuiTitle { TuiDiffers(sec); }
    assert TuiFile[1..][1] == OtherCommented;
    hide KindOf, AcceptableLine, SettingLine, OtherCommented, TuiTitle, HeaderLine;
  }

  /** Below [tui], a table with a comment behind its header: the fold takes its lines into [tui] and its
      header away. */
  lemma FoldTakesTable(p: Paths)
    requires PathsOk(p)
    ensures var s := SampleSetup(p, true);
            && SetupOk(s) && BlocksOk(s) && Readable(TuiFile)
            && Picked(Users(s), "", Merge(s, TuiFile))
               != TopEntries(s, Users(s), TuiFile)
                  + (UserEntries(Users(s), "", TuiFile, Nowhere) + RegistryEntries(s, Users(s), TuiFile))
  {
    hide KindOf, Undisturbed, SetupOk, BlocksOk, Merge, Readable, TuiFile, TuiTitle, Cleared, Unmarked, Sectioned, ManagedServers, LauncherNeeds, PathsOk, Picked, Users, TopEntries, RegistryEntries, UserEntries, HeadedBlocks, TuiBodies, NoOpens, StartsSection;
    var s := SampleSetup(p, true);
    SetupCanBeMet(p, true);
    SetupAgents(s);
    TuiUndisturbed(s.legacyAgent);
    TuiShape();
    UndisturbedIs(s, TuiFile);
    UndisturbedEnds(s.legacyAgent, TuiFile);
    var t := SectionedBehind(TuiFile);
    TuiTangled(t);
    assert !Untangled(s, TuiFile);
    MergeKeepsLines(s, TuiFile);
  }

  lemma SetupAgents(s: Setup)
    requires SetupOk(s)
    ensures AgentsOk(s.legacyAgent)
  {
  }

  lemma UndisturbedEnds(legacyAgent: string -> bool, a: seq<Line>)
    requires Undisturbed(legacyAgent, a)
    ensures a != [] && EndsTrimmed(a)
  {
  }

  lemma TuiTangled(t: seq<Line>)
    requires StartsSection(t)
    ensures !NoOpens(TuiBodies(TuiFile + t))
  {
    hide KindOf, HasTitle, CutAt, StartsSection, TuiTitle, SettingLine, OtherCommented;
    TuiShape();
    var c := Cut([], TuiFile[0], TuiFile[1..], t);
    assert Glue(c) == TuiFile + t;
    assert IsCut(c, TuiTitle);
    CutAtGlue(c, TuiTitle);
    assert OtherCommented in TuiBodies(TuiFile + t);
  }

  const OffLine := SettingLine(MultiAgent, "false")
  const FeatureFile: seq<Line> := [Title(Features), OtherCommented, OffLine]

  lemma OffKind(legacyAgent: string -> bool)
    ensures AcceptableLine(OffLine, legacyAgent) && Sets(OffLine, MultiAgent)
    ensures TrimEnd(OffLine) == OffLine && Trim(OffLine) != SettingLine(MultiAgent, "true")
  {
    FeatureKeysBare();
    assert ValueOk("false") && '-' !in MultiAgent && '-' !in "false";
    hide BareKey, ValueOk;
    SettingAcceptable(MultiAgent, "false", legacyAgent);
    SettingTrimmed(MultiAgent, "false") by { assert !IsSpace('e'); }
    assert OffLine[14] == 'f' && SettingLine(MultiAgent, "true")[14] == 't';
  }

  lemma FeatureUndisturbed(legacyAgent: string -> bool)
    requires AgentsOk(legacyAgent)
    ensures Undisturbed(legacyAgent, FeatureFile)
  {
    FeatureLine(legacyAgent);
    OtherAcceptable(legacyAgent);
    OffKind(legacyAgent);
    hide KindOf, AcceptableLine, Title, OtherCommented, OffLine, TrimEnd;
  }

  lemma FeatureShape()
    ensures NoHeaders(FeatureFile[1..]) && Titled(FeatureFile[0], Title(Features)) && Opens(OtherCommented)
  {
    FeatureLine(name => false);
    OffKind(name => false);
    LauncherKinds();
    hide KindOf, AcceptableLine, Title, OtherCommented, OffLine;
  }

  lemma FeatureLine(legacyAgent: string -> bool)
    requires AgentsOk(legacyAgent)
    ensures AcceptableLine(Title(Features), legacyAgent) && Titled(Title(Features), Title(Features))
  {
    assert ']' !in "features" && '(' !in "features" && '.' !in "features";
    TitleAcceptable("features", legacyAgent);
    hide KindOf, AcceptableLine, HeaderLine;
  }

  /** Below [features], a table with a comment behind its header: the user's own key of that table is
      switched on. */
  lemma FeatureIsSwitched(p: Paths, includeTui: bool)
    requires PathsOk(p)
    ensures var s := SampleSetup(p, includeTui);
            && SetupOk(s) && BlocksOk(s) && Readable(FeatureFile)
            && Picked(Users(s), "", Merge(s, FeatureFile))
               != TopEntries(s, Users(s), FeatureFile)
                  + (UserEntries(Users(s), "", FeatureFile, Nowhere) + RegistryEntries(s, Users(s), FeatureFile))
  {
    hide KindOf, Undisturbed, SetupOk, BlocksOk, Merge, Readable, FeatureFile, Cleared, Unmarked, ManagedServers, LauncherNeeds, PathsOk, Picked, Users, TopEntries, RegistryEntries, UserEntries, HeadedBlocks, SectionKept, Upsert;
    var s := SampleSetup(p, includeTui);
    SetupCanBeMet(p, includeTui);
    SetupAgents(s);
    FeatureUndisturbed(s.legacyAgent);
    UndisturbedIs(s, FeatureFile);
    FeatureTangled();
    assert !Untangled(s, FeatureFile);
    MergeKeepsLines(s, FeatureFile);
  }

  lemma FeatureTangled()
    ensures !SectionKept(Features, FeatureFile)
  {
    hide KindOf, HasTitle, CutAt, HeaderLine, SettingLine, OtherCommented, OffLine, Trim;
    FeatureShape();
    var c := Cut([], FeatureFile[0], FeatureFile[1..], []);
    assert Glue(c) == FeatureFile;
    assert IsCut(c, Title(Features));
    CutAtGlue(c, Title(Features));
    OffKind(name => false);
    assert FeatureFile[1..] == [OtherCommented, OffLine];
    assert [OtherCommented, OffLine][..1] == [OtherCommented];
    assert OtherCommented in [OtherCommented];
    assert MultiAgent in Keys(Features) && MultiAgent != Collab;
    assert !KeyKept(Features, MultiAgent, c.body);
  }
}
