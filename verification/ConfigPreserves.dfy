/** The user's lines through a whole setup: which are kept, and exactly when. */
module ConfigPreserves {
  import opened Text
  import opened ConfigLines
  import opened ConfigSections
  import opened ConfigTui
  import opened ConfigMarkers
  import opened ConfigTimeouts
  import opened ConfigRoot
  import opened ConfigStable
  import opened ConfigMerge
  import opened ConfigSettled
  import opened ConfigRepaired
  import opened ConfigFooter
  import opened ConfigIdempotence
  import opened ConfigSecondPass
  import opened ConfigSetup
  import opened ConfigKeeps
  import opened ConfigUpserts
  import opened ConfigFolds
  import opened ConfigOutside

  // ----- the user's lines -----

  /** A table setup does not own. */
  predicate UserTable(legacyAgent: string -> bool, table: string) { table != TuiTitle && !IsOrphan(table, legacyAgent) }

  /** A key setup does not own; `overrides`: the model is given by an option. */
  predicate UserKey(legacyAgent: string -> bool, overrides: bool, table: string, key: string) {
    && UserTable(legacyAgent, table)
    && (table == "" ==> key !in TopKeys && !(overrides && key == ModelKey))
    && (forall sec: Section :: table == Title(sec) ==> key !in Keys(sec))
  }

  /** Every line but comments, blank lines, managed keys, the managed tables, notify lines and startup
      timeouts of 15 seconds. */
  predicate IsUsers(legacyAgent: string -> bool, overrides: bool, e: Entry) {
    && UserTable(legacyAgent, e.table)
    && match KindOf(e.line)
       case Empty => false
       case Remark => false
       case Opener => e.table == e.line
       case Table(_) => forall sec: Section :: e.table != Title(sec)
       case Setting(key) =>
         UserKey(legacyAgent, overrides, e.table, key) && !IsNotifyLine(e.line)
         && !(StartsMcp(e.table) && e.line == TimeoutLine)
       case Other => forall sec: Section :: e.table == Title(sec) ==> !Opens(e.line)
  }

  function Users(s: Setup): Pick { (e: Entry) => IsUsers(s.legacyAgent, Overrides(s.top), e) }

  /** What every step but the upserts passes by. */
  ghost predicate Passes(s: Setup, pick: Pick) {
    && Quiet(pick) && RootSkips(pick, TopKeys) && (Overrides(s.top) ==> RootSkips(pick, {ModelKey}))
    && NoNotify(pick) && NoOrphans(pick, s.legacyAgent) && NoTui(pick) && McpSkips(pick)
  }

  lemma UsersPass(s: Setup)
    ensures Passes(s, Users(s))
  {
    hide TuiTitle, IsOrphan, StartsMcp, Overrides, IsHookList, TimeoutLine, HeaderLine;
    NotifyIsSetting();
    TimeoutKind();
    hide IsNotifyLine;
    assert forall e :: Users(s)(e) ==> IsUsers(s.legacyAgent, Overrides(s.top), e);
    hide Users;
  }

  lemma NotifyIsSetting()
    ensures forall l :: IsNotifyLine(l) ==> Sets(l, NotifyKey)
  {
  }

  lemma PartPasses(s: Setup, pick: Pick)
    requires Part(pick, Users(s))
    ensures Passes(s, pick)
    ensures forall sec: Section :: SkipsTitle(pick, Title(sec))
  {
    UsersPass(s);
    UsersSkipTitles(s);
    hide KindOf, Users, IsOrphan, IsNotifyLine, SetsOneOf, StartsMcp, Overrides, Opens, HeaderLine, TuiTitle, TimeoutLine;
  }

  lemma UsersSkipTitles(s: Setup)
    ensures forall sec: Section :: SkipsTitle(Users(s), Title(sec))
  {
    forall sec: Section ensures SkipsTitle(Users(s), Title(sec)) {
      forall e | Users(s)(e) && e.table == Title(sec) ensures !Opens(e.line) {
        TitleKind(sec);
        UserUnderTitle(s, sec, e);
      }
    }
  }

  lemma UserUnderTitle(s: Setup, sec: Section, e: Entry)
    requires Users(s)(e) && e.table == Title(sec)
    ensures !Opens(e.line)
  {
    TitleKind(sec);
    hide HeaderLine, TuiTitle, IsOrphan, IsNotifyLine, StartsMcp;
  }

  /** Below a bracket line that is no whole header all lines are the user's. */
  lemma OpenerTable(s: Setup, table: string)
    requires KindOf(table).Opener?
    ensures UserTable(s.legacyAgent, table) && table != "" && forall sec: Section :: table != Title(sec)
  {
    TuiTitleKind();
    EmptyKind();
    forall sec: Section ensures table != Title(sec) { TitleKind(sec); }
    hide HeaderLine, TuiTitle;
  }

  lemma UsersLookBelow(s: Setup, sec: Section, key: string)
    requires key in Keys(sec)
    ensures LooksBelow(Users(s), Title(sec), key) && Part(BelowPick(key), Users(s))
  {
    hide HeaderLine, TuiTitle, IsOrphan, StartsMcp, IsHookList, TimeoutLine, Overrides;
    NotifyIsSetting();
    TimeoutKind();
    KeysForeign(sec, key);
    hide IsNotifyLine, Keys;
    forall e: Entry | KindOf(e.table).Opener? && Sets(e.line, key) ensures Users(s)(e) {
      OpenerTable(s, e.table);
    }
    forall e | Users(s)(e) && e.table == Title(sec) ensures !Sets(e.line, key) {
    }
  }

  lemma KeysForeign(sec: Section, key: string)
    requires key in Keys(sec)
    ensures key != NotifyKey && key != TimeoutKey
  {
    KeysNotTimeout();
    assert NotifyKey[0] == 'n' && MultiAgent[0] == 'm' && ChildAgents[0] == 'c' && CodexHooks[0] == 'c' && Collab[0] == 'c';
    assert ExploreCmd[0] == 'U' && MaxThreads[0] == 'm' && MaxDepth[0] == 'm';
  }

  lemma OpenersAreUsers(s: Setup)
    ensures Part(OpenerPick(), Users(s))
  {
    forall e: Entry | OpenerPick()(e) ensures Users(s)(e) {
      OpenerTable(s, e.table);
    }
  }

  lemma StraysAreUsers(s: Setup)
    ensures Part(StrayPick(), Users(s))
  {
    NotifyIsSetting();
    TimeoutKind();
    TimeoutNotNotify();
    hide HeaderLine, TuiTitle, IsOrphan, StartsMcp, IsNotifyLine, TimeoutLine, Overrides, TopKeys;
    forall e: Entry | StrayPick()(e) ensures Users(s)(e) {
      OpenerTable(s, e.table);
    }
  }

  lemma TimeoutNotNotify()
    ensures TimeoutKey != NotifyKey
  {
    assert |TimeoutKey| == 19 && |NotifyKey| == 6;
  }

  // ----- the steps before the upserts -----

  lemma ClearedKeeps(s: Setup, pick: Pick, lines: seq<Line>)
    requires Passes(s, pick) && NotifyOk(s.dropNotify) && NotifyInLines(StripRootKeys(lines, TopKeys, true))
    ensures Picked(pick, "", Cleared(s, lines)) == Picked(pick, "", lines)
  {
    hide KindOf, Picked, StripRootKeys, StripOrphans, Overrides, DropNotify, Quiet, RootSkips, NoNotify, NoOrphans, NoTui, McpSkips, NotifyInLines;
    PickedStripRoot(pick, lines, TopKeys, true);
    var bare := StripRootKeys(lines, TopKeys, true);
    PickedDropNotify(pick, [], bare);
    assert [] + bare == bare;
    var quiet := DropNotify([], bare);
    if Overrides(s.top) { PickedStripRoot(pick, quiet, {ModelKey}, false); }
    var ready := if Overrides(s.top) then StripRootKeys(quiet, {ModelKey}, false) else quiet;
    PickedOrphans(pick, s.legacyAgent, [], ready);
    assert [] + ready == ready;
  }

  // ----- the managed blocks -----

  /** What the blocks look like beyond `SetupOk`: a comment in front of each table, shared servers in MCP
      tables, and managed tables that setup recognises as its own. */
  ghost predicate BlocksOk(s: Setup) {
    && (forall x :: x in s.shared ==> |x.lines| >= 2 && KindOf(x.lines[0]).Remark? && IsHeader(x.lines[1]))
    && (forall x, l :: x in s.shared && l in x.lines && IsHeader(l) ==> StartsMcp(l))
    && (forall l :: l in s.source ==> KindOf(l).Remark?)
    && |s.managed| >= 2 && KindOf(s.managed[0]).Remark? && IsHeader(s.managed[1])
    && (forall l :: l in s.managed && IsHeader(l) ==> IsOrphan(l, s.legacyAgent))
  }

  predicate Foreign(g: string -> bool, table: string) { table == TuiTitle || IsOrphan(table, g) }

  lemma ForeignUnpicked(s: Setup, pick: Pick, table: string)
    requires NoOrphans(pick, s.legacyAgent) && NoTui(pick) && Foreign(s.legacyAgent, table)
    ensures Unpicked(pick, table)
  {
    hide IsOrphan, TuiTitle;
  }

  ghost predicate Silent(lines: seq<Line>) { forall l :: l in lines ==> Idle(l) }

  /** Comments, then a bracket line: the table in front of them does not matter. */
  lemma PickedAnyTable(pick: Pick, t1: string, t2: string, a: seq<Line>, b: seq<Line>)
    requires Quiet(pick) && Silent(a) && b != [] && Opens(b[0])
    ensures Picked(pick, t1, a + b) == Picked(pick, t2, a + b)
  {
    hide KindOf, Picked, TableAfter, Opens, Idle, Quiet;
    PickedConcat(pick, t1, a, b);
    PickedConcat(pick, t2, a, b);
    PickedIdle(pick, t1, a);
    PickedIdle(pick, t2, a);
    PickedFromHeader(pick, t1, t2, b);
  }

  lemma TablesNotPicked(s: Setup, pick: Pick, table: string, withTui: bool)
    requires BlocksOk(s) && ManagedOk(s.managed) && Quiet(pick) && NoOrphans(pick, s.legacyAgent) && NoTui(pick)
    ensures Picked(pick, table, WrittenLines(Tables(s, withTui))) == []
  {
    hide KindOf, Picked, TableAfter, IsOrphan, Plain, StartsMcp, StartsOmcp, TuiPart, Trim, Foreign, Quiet, NoOrphans, NoTui, RootSkips, NoNotify, McpSkips;
    var a := [""] + [RuleLine] + ["# " + OmcpMarker] + [ManagedNote, RuleLine, ""] + [s.managed[0]];
    var m := s.managed[1..];
    var z := TuiPart(withTui) + [RuleLine] + [OmcpEnd] + [""];
    FooterSilent(s.managed[0]);
    assert s.managed == [s.managed[0]] + m;
    TablesSplit(s, withTui, a, m, z);
    PickedConcat(pick, table, a, m + z);
    PickedIdle(pick, table, a);
    HeadersForeign(s, withTui, z);
    hide Tables, RuleLine, ManagedNote, OmcpMarker, OmcpEnd;
    var rest := m + z;
    assert rest[0] == m[0] && m[0] in s.managed;
    forall l | l in rest && Opens(l) ensures Unpicked(pick, Trim(l)) {
      ForeignUnpicked(s, pick, Trim(l));
    }
    HeaderOpens(m[0]);
    PickedFromHeader(pick, table, Trim(m[0]), rest);
    PickedNowhere(pick, Trim(m[0]), rest);
  }

  lemma TablesSplit(s: Setup, withTui: bool, a: seq<Line>, m: seq<Line>, z: seq<Line>)
    requires s.managed != [] && s.managed == [s.managed[0]] + m
    requires a == [""] + [RuleLine] + ["# " + OmcpMarker] + [ManagedNote, RuleLine, ""] + [s.managed[0]]
    requires z == TuiPart(withTui) + [RuleLine] + [OmcpEnd] + [""]
    ensures WrittenLines(Tables(s, withTui)) == a + (m + z)
  {
    hide RuleLine, ManagedNote, OmcpMarker, OmcpEnd, TuiPart;
  }

  lemma FooterSilent(comment: Line)
    requires KindOf(comment).Remark?
    ensures Silent([""] + [RuleLine] + ["# " + OmcpMarker] + [ManagedNote, RuleLine, ""] + [comment])
  {
    hide KindOf;
    FixedRemarks();
    RemarkKind(RuleLine);
    RemarkKind("# " + OmcpMarker);
    RemarkKind(ManagedNote);
    EmptyKind();
    hide RuleLine, ManagedNote, OmcpMarker;
  }

  lemma HeadersForeign(s: Setup, withTui: bool, z: seq<Line>)
    requires BlocksOk(s) && ManagedOk(s.managed) && z == TuiPart(withTui) + [RuleLine] + [OmcpEnd] + [""]
    ensures forall l :: l in s.managed + z && Opens(l) ==> Foreign(s.legacyAgent, Trim(l))
  {
    hide KindOf, IsOrphan, StartsMcp, StartsOmcp, Plain, Trim, HeaderLine, SettingLine;
    FixedRemarks();
    RemarkKind(RuleLine);
    RemarkKind(OmcpEnd);
    RemarkKind(TuiNote);
    EmptyKind();
    TuiKinds();
    TuiTrimmed();
    forall l | l in s.managed && Opens(l) ensures Foreign(s.legacyAgent, Trim(l)) {
      OrphanTable(s.legacyAgent, l);
    }
    hide Opens, Foreign, RuleLine, OmcpEnd, TuiNote, TuiTitle, StatusLine;
  }

  lemma TuiTrimmed()
    ensures Trim(TuiTitle) == TuiTitle
  {
    TuiTitleKind();
    HeaderLineKind("tui");
  }

  lemma RegistryAnyTable(s: Setup, pick: Pick, existing: seq<Line>, t1: string, t2: string)
    requires BlocksOk(s) && Quiet(pick)
    ensures Picked(pick, t1, RegistryLines(s, existing)) == Picked(pick, t2, RegistryLines(s, existing))
  {
    hide KindOf, Picked, NewServers, IsOrphan, Opens, StartsMcp, Quiet;
    var servers := NewServers(s.shared, existing);
    if servers == [] {
      NoPicks(pick, t1);
      NoPicks(pick, t2);
    } else {
      var x := servers[0];
      NewServersAre(s.shared, existing, x);
      var a := [""] + [RuleLine] + ["# " + RegistryMarker] + ([RegistryNote] + s.source + [RuleLine, ""]) + [x.lines[0]];
      var b := x.lines[1..] + ServerLines(servers[1..]) + [RuleLine] + [RegistryEnd] + [];
      RegistrySilent(s, x.lines[0]);
      RegistrySplit(s, servers, a, b);
      HeaderOpens(x.lines[1]);
      PickedAnyTable(pick, t1, t2, a, b);
    }
  }

  lemma HeaderOpens(l: Line)
    ensures IsHeader(l) ==> Opens(l)
  {
  }

  lemma RegistrySilent(s: Setup, comment: Line)
    requires KindOf(comment).Remark? && forall l :: l in s.source ==> KindOf(l).Remark?
    ensures Silent([""] + [RuleLine] + ["# " + RegistryMarker] + ([RegistryNote] + s.source + [RuleLine, ""]) + [comment])
  {
    hide KindOf;
    FixedRemarks();
    RemarkKind(RuleLine);
    RemarkKind("# " + RegistryMarker);
    RemarkKind(RegistryNote);
    EmptyKind();
    hide RuleLine, RegistryNote, RegistryMarker;
  }

  lemma RegistrySplit(s: Setup, servers: seq<Shared>, a: seq<Line>, b: seq<Line>)
    requires servers != [] && |servers[0].lines| >= 2
    requires a == [""] + [RuleLine] + ["# " + RegistryMarker] + ([RegistryNote] + s.source + [RuleLine, ""]) + [servers[0].lines[0]]
    requires b == servers[0].lines[1..] + ServerLines(servers[1..]) + [RuleLine] + [RegistryEnd] + []
    ensures WrittenLines(Registry(s, servers)) == a + b
  {
    hide RuleLine, RegistryNote, RegistryMarker, RegistryEnd;
    var lines, more := servers[0].lines, ServerLines(servers[1..]);
    assert lines == [lines[0]] + lines[1..];
    Regroup([""] + [RuleLine] + ["# " + RegistryMarker], [RegistryNote] + s.source + [RuleLine, ""],
            [lines[0]], lines[1..], more, [RuleLine], [RegistryEnd]);
  }

  lemma Regroup(a: seq<Line>, b: seq<Line>, c: seq<Line>, d: seq<Line>, e: seq<Line>, f: seq<Line>, h: seq<Line>)
    ensures a + (b + ((c + d) + e) + f) + h + [] == (a + b + c) + (d + e + f + h + [])
  {
  }

  // ----- the whole file before timeouts are added -----

  /** What addDefaultLauncherMcpStartupTimeouts is given. */
  function Before(s: Setup, existing: seq<Line>, withTui: bool): seq<Line> {
    TopLines(s.top, existing) + [""] + TrimEndLines(existing) + Footer(s, existing, withTui)
  }

  lemma BeforeEntries(s: Setup, pick: Pick, existing: seq<Line>, withTui: bool)
    requires SetupOk(s) && BlocksOk(s) && Quiet(pick) && NoOrphans(pick, s.legacyAgent) && NoTui(pick)
    ensures Picked(pick, "", Before(s, existing, withTui))
         == Picked(pick, "", TopLines(s.top, existing))
            + (Picked(pick, "", existing) + Picked(pick, "", RegistryLines(s, existing)))
  {
    hide KindOf, Picked, TableAfter, TopLines, TrimEndLines, RegistryLines, Tables, WrittenLines, TopOk, ManagedOk, SharedOk, Sensible, NotifyOk, AgentsOk, BlocksOk, Quiet, NoOrphans, NoTui, RootSkips, NoNotify, McpSkips, NoOpens, PlainLines;
    var top := TopLines(s.top, existing);
    var body := TrimEndLines(existing);
    var reg, tables := RegistryLines(s, existing), WrittenLines(Tables(s, withTui));
    TopPlain(s, existing);
    TableAfterNone("", top + [""]);
    EmptyKind();
    BlankLast(pick, "", top, "");
    Assoc(top + [""], body, reg + tables);
    PickedConcat(pick, "", top + [""], body + (reg + tables));
    PickedConcat(pick, "", body, reg + tables);
    PickedTrimEnd(pick, "", existing);
    var t := TableAfter("", body);
    PickedConcat(pick, t, reg, tables);
    TablesNotPicked(s, pick, TableAfter(t, reg), withTui);
    RegistryAnyTable(s, pick, existing, t, "");
    assert Picked(pick, "", reg) + [] == Picked(pick, "", reg);
  }

  lemma MergeIsAdded(s: Setup, config: seq<Line>)
    ensures var lines := Unmarked(config);
            Merge(s, config) == AddTimeouts(Before(s, Existing(s, lines), WritesTui(s, lines)), s.needs)
  {
    hide Existing, WritesTui, Unmarked, AddTimeouts, TopLines, TrimEndLines, Footer;
    MergeIs(s, config);
  }

  // ----- exactly when the user's lines are kept -----

  /** The guards of the steps, each on the file the step is given. */
  ghost predicate Untangled(s: Setup, config: seq<Line>) {
    var lines := Unmarked(config);
    var cleared := Cleared(s, lines);
    var featured := Upsert(Features, cleared);
    var enved := Upsert(Env, featured);
    && SectionKept(Features, cleared) && SectionKept(Env, featured) && SectionKept(Agents, enved)
    && (s.includeTui ==> NoOpens(TuiBodies(Sectioned(cleared))))
    && RepairsLand(Before(s, Existing(s, lines), WritesTui(s, lines)), s.needs)
  }

  /** What setup writes of its own into the lines looked for: model and context window where the file
      leaves them open, and the servers of the shared registry. */
  function TopEntries(s: Setup, pick: Pick, config: seq<Line>): seq<Entry> {
    Picked(pick, "", TopLines(s.top, Existing(s, Unmarked(config))))
  }

  function RegistryEntries(s: Setup, pick: Pick, config: seq<Line>): seq<Entry> {
    Picked(pick, "", RegistryLines(s, Existing(s, Unmarked(config))))
  }

  lemma SectionedSkips(pick: Pick, lines: seq<Line>)
    requires Quiet(pick) && forall sec: Section :: SkipsTitle(pick, Title(sec)) && SkipsKeys(pick, sec)
    ensures Picked(pick, "", Sectioned(lines)) == Picked(pick, "", lines)
  {
    hide KindOf, Picked, Upsert, Quiet, SkipsTitle, SkipsKeys;
    var f := Upsert(Features, lines);
    var e := Upsert(Env, f);
    UpsertSkips(pick, "", Features, lines);
    UpsertSkips(pick, "", Env, f);
    UpsertSkips(pick, "", Agents, e);
  }

  /** The guards are enough. */
  lemma UntangledKeeps(s: Setup, config: seq<Line>)
    requires SetupOk(s) && BlocksOk(s) && Readable(config) && Untangled(s, config)
    ensures Picked(Users(s), "", Merge(s, config))
         == TopEntries(s, Users(s), config) + (Picked(Users(s), "", Unmarked(config)) + RegistryEntries(s, Users(s), config))
  {
    hide KindOf, Picked, Unmarked, Cleared, Upsert, FoldTui, Before, AddTimeouts, RegistryLines, TopLines, TopOk, ManagedOk, SharedOk, Sensible, BlocksOk, WritesTui, Passes, NoOpens, TuiBodies, RepairsLand, Users, SectionKept, SkipsTitle, LooksBelow, NotifyInLines, Merge;
    var u := Users(s);
    var lines := Unmarked(config);
    UsersPass(s);
    PassesQuiet(s, u);
    UsersSkipTitles(s);
    ClearedKeeps(s, u, lines);
    var cleared := Cleared(s, lines);
    SectionedKeeps(s, cleared);
    if s.includeTui { FoldKeeps(u, "", Sectioned(cleared)); }
    BeforeEntries(s, u, Existing(s, lines), WritesTui(s, lines));
    AddKeeps(u, "", Before(s, Existing(s, lines), WritesTui(s, lines)), s.needs);
    MergeIsAdded(s, config);
  }

  lemma PassesQuiet(s: Setup, pick: Pick)
    requires Passes(s, pick)
    ensures Quiet(pick) && NoTui(pick) && McpSkips(pick) && NoOrphans(pick, s.legacyAgent)
  {
  }

  lemma SectionedKeeps(s: Setup, lines: seq<Line>)
    requires var f := Upsert(Features, lines);
             SectionKept(Features, lines) && SectionKept(Env, f) && SectionKept(Agents, Upsert(Env, f))
    ensures Picked(Users(s), "", Sectioned(lines)) == Picked(Users(s), "", lines)
  {
    hide KindOf, Picked, Upsert, Users, Passes, SkipsTitle, LooksBelow, SectionKept;
    var f := Upsert(Features, lines);
    var e := Upsert(Env, f);
    OneSectionKeeps(s, Features, lines);
    OneSectionKeeps(s, Env, f);
    OneSectionKeeps(s, Agents, e);
  }

  lemma OneSectionKeeps(s: Setup, sec: Section, lines: seq<Line>)
    requires SectionKept(sec, lines)
    ensures Picked(Users(s), "", Upsert(sec, lines)) == Picked(Users(s), "", lines)
  {
    hide KindOf, Picked, Upsert, Users, Passes, SkipsTitle, LooksBelow, SectionKept, Keys;
    UsersPass(s);
    PassesQuiet(s, Users(s));
    UsersSkipTitles(s);
    forall key | key in Keys(sec) ensures LooksBelow(Users(s), Title(sec), key) { UsersLookBelow(s, sec, key); }
    UpsertKeeps(Users(s), "", sec, lines);
  }

  /** What the whole is for all the user's lines it is for any part of them. */
  lemma PartKept(s: Setup, config: seq<Line>, q: Pick)
    requires Part(q, Users(s))
    requires Picked(Users(s), "", Merge(s, config))
          == TopEntries(s, Users(s), config) + (Picked(Users(s), "", Unmarked(config)) + RegistryEntries(s, Users(s), config))
    ensures Picked(q, "", Merge(s, config))
         == TopEntries(s, q, config) + (Picked(q, "", Unmarked(config)) + RegistryEntries(s, q, config))
  {
    hide KindOf, Picked, Unmarked, Merge, Users, Existing, TopLines, RegistryLines, Filtered;
    var u := Users(s);
    var existing := Existing(s, Unmarked(config));
    PickedPart(q, u, "", Merge(s, config));
    PickedPart(q, u, "", TopLines(s.top, existing));
    PickedPart(q, u, "", Unmarked(config));
    PickedPart(q, u, "", RegistryLines(s, existing));
    FilteredConcat(q, TopEntries(s, u, config), Picked(u, "", Unmarked(config)) + RegistryEntries(s, u, config));
    FilteredConcat(q, Picked(u, "", Unmarked(config)), RegistryEntries(s, u, config));
  }

  /** Where timeouts are not looked for, the user's part must have been kept. */
  lemma ExistingMustKeep(s: Setup, config: seq<Line>, q: Pick)
    requires SetupOk(s) && BlocksOk(s) && Passes(s, q) && Skips(q, TimeoutKey)
    requires Picked(q, "", Merge(s, config))
          == TopEntries(s, q, config) + (Picked(q, "", Unmarked(config)) + RegistryEntries(s, q, config))
    ensures Picked(q, "", Existing(s, Unmarked(config))) == Picked(q, "", Unmarked(config))
  {
    hide KindOf, Picked, Unmarked, Existing, TopLines, RegistryLines, Before, AddTimeouts, WritesTui, BlocksOk, TopOk, ManagedOk, SharedOk, Sensible, Quiet, NoOrphans, NoTui, RootSkips, NoNotify, McpSkips, Skips, Merge;
    var lines := Unmarked(config);
    var existing := Existing(s, lines);
    BeforeEntries(s, q, existing, WritesTui(s, lines));
    AddKeeps(q, "", Before(s, existing, WritesTui(s, lines)), s.needs);
    MergeIsAdded(s, config);
    EntriesMiddle(TopEntries(s, q, config), Picked(q, "", existing), Picked(q, "", lines), RegistryEntries(s, q, config));
  }

  lemma EntriesMiddle(a: seq<Entry>, x: seq<Entry>, y: seq<Entry>, z: seq<Entry>)
    requires a + (x + z) == a + (y + z)
    ensures x == y
  {
    MiddleIff(a, [], x, y, z);
    assert [] + (x + z) == x + z && [] + (y + z) == y + z;
  }

  ghost predicate UsersKept(s: Setup, config: seq<Line>) {
    Picked(Users(s), "", Merge(s, config))
    == TopEntries(s, Users(s), config) + (Picked(Users(s), "", Unmarked(config)) + RegistryEntries(s, Users(s), config))
  }

  /** The [tui] guard is needed. */
  lemma KeptNeedsTui(s: Setup, config: seq<Line>)
    requires SetupOk(s) && BlocksOk(s) && Readable(config) && UsersKept(s, config) && s.includeTui
    ensures NoOpens(TuiBodies(Sectioned(Cleared(s, Unmarked(config)))))
  {
    hide KindOf, Picked, Unmarked, Cleared, Sectioned, FoldTui, Merge, TopEntries, RegistryEntries, Users, OpenerPick, Passes, SetupOk, BlocksOk, NoOpens, TuiBodies, Skips, SkipsTitle, NotifyInLines;
    var q := OpenerPick();
    var lines := Unmarked(config);
    OpenersAreUsers(s);
    PartPasses(s, q);
    PassesQuiet(s, q);
    OpenerPickIs();
    PartKept(s, config, q);
    ExistingMustKeep(s, config, q);
    SetupNotify(s);
    ClearedKeeps(s, q, lines);
    SectionedSkips(q, Cleared(s, lines));
    FoldLoses("", Sectioned(Cleared(s, lines)));
  }

  lemma SetupNotify(s: Setup)
    requires SetupOk(s)
    ensures NotifyOk(s.dropNotify)
  {
  }

  /** So is the guard of each key. */
  lemma KeptNeedsKey(s: Setup, config: seq<Line>, sec: Section, key: string)
    requires SetupOk(s) && BlocksOk(s) && Readable(config) && UsersKept(s, config) && key in Keys(sec)
    ensures var cleared := Cleared(s, Unmarked(config));
            var given := if sec == Features then cleared
                         else if sec == Env then Upsert(Features, cleared) else Upsert(Env, Upsert(Features, cleared));
            HasTitle(given, Title(sec)) ==> KeyKept(sec, key, CutAt(given, Title(sec)).body)
  {
    hide KindOf, Picked, Unmarked, Cleared, Upsert, FoldTui, Merge, TopEntries, RegistryEntries, Users, BelowPick, Passes, SetupOk, BlocksOk, NoOpens, TuiBodies, Skips, SkipsTitle, NotifyInLines, Keys, HasTitle, CutAt, KeyKept;
    var q := BelowPick(key);
    var lines := Unmarked(config);
    UsersLookBelow(s, sec, key);
    PartPasses(s, q);
    PassesQuiet(s, q);
    BelowPickIs(sec, key);
    KeysForeign(sec, key);
    PartKept(s, config, q);
    ExistingMustKeep(s, config, q);
    SetupNotify(s);
    ClearedKeeps(s, q, lines);
    var cleared := Cleared(s, lines);
    if s.includeTui {
      KeptNeedsTui(s, config);
      FoldKeeps(q, "", Sectioned(cleared));
    }
    var f := Upsert(Features, cleared);
    var e := Upsert(Env, f);
    OtherSections(sec, key);
    if sec != Features { UpsertSkips(q, "", Features, cleared); } else { UpsertKeyIff(sec, key, "", cleared); }
    if sec != Env { UpsertSkips(q, "", Env, f); } else { UpsertKeyIff(sec, key, "", f); }
    if sec != Agents { UpsertSkips(q, "", Agents, e); } else { UpsertKeyIff(sec, key, "", e); }
  }

  lemma OtherSections(sec: Section, key: string)
    requires key in Keys(sec)
    ensures forall other: Section :: other != sec ==> SkipsKeys(BelowPick(key), other)
  {
    KeysDistinct();
    BelowPickIs(sec, key);
    hide BelowPick, Skips, Keys, LooksBelow;
    forall other: Section | other != sec ensures SkipsKeys(BelowPick(key), other) {
      forall k | k in Keys(other) ensures Skips(BelowPick(key), k) {
        assert k != key;
      }
    }
  }

  /** And so is the guard of the timeouts. */
  lemma KeptNeedsLanding(s: Setup, config: seq<Line>)
    requires SetupOk(s) && BlocksOk(s) && Readable(config) && UsersKept(s, config)
    ensures RepairsLand(Before(s, Existing(s, Unmarked(config)), WritesTui(s, Unmarked(config))), s.needs)
  {
    hide KindOf, Picked, Unmarked, Cleared, Sectioned, FoldTui, Merge, Users, StrayPick, Passes, SetupOk, BlocksOk, NoOpens, TuiBodies, Skips, SkipsTitle, NotifyInLines, Before, AddTimeouts, RepairsLand, TopLines, RegistryLines, WritesTui;
    var q := StrayPick();
    var lines := Unmarked(config);
    StraysAreUsers(s);
    PartPasses(s, q);
    PassesQuiet(s, q);
    StrayPickIs();
    StraySkips();
    PartKept(s, config, q);
    SetupNotify(s);
    ClearedKeeps(s, q, lines);
    var cleared := Cleared(s, lines);
    SectionedSkips(q, cleared);
    if s.includeTui {
      KeptNeedsTui(s, config);
      FoldKeeps(q, "", Sectioned(cleared));
    }
    var existing := Existing(s, lines);
    BeforeEntries(s, q, existing, WritesTui(s, lines));
    MergeIsAdded(s, config);
    AddIff("", Before(s, existing, WritesTui(s, lines)), s.needs);
  }

  lemma StraySkips()
    ensures forall sec: Section :: SkipsKeys(StrayPick(), sec)
  {
    StrayPickIs();
    hide StrayPick, Skips, Keys;
    forall sec: Section, key | key in Keys(sec) ensures Skips(StrayPick(), key) {
      KeysForeign(sec, key);
    }
  }

  lemma KeptIsUntangled(s: Setup, config: seq<Line>)
    requires SetupOk(s) && BlocksOk(s) && Readable(config) && UsersKept(s, config)
    ensures Untangled(s, config)
  {
    hide KindOf, Unmarked, Cleared, Upsert, FoldTui, SetupOk, BlocksOk, Readable, UsersKept, NoOpens, TuiBodies, Before, RepairsLand, WritesTui, Keys, HasTitle, CutAt, KeyKept, Existing;
    if s.includeTui { KeptNeedsTui(s, config); }
    KeptNeedsLanding(s, config);
    forall sec: Section, key | key in Keys(sec)
      ensures var cleared := Cleared(s, Unmarked(config));
              var given := if sec == Features then cleared
                           else if sec == Env then Upsert(Features, cleared) else Upsert(Env, Upsert(Features, cleared));
              HasTitle(given, Title(sec)) ==> KeyKept(sec, key, CutAt(given, Title(sec)).body)
    {
      KeptNeedsKey(s, config, sec, key);
    }
  }

  /** Every line of the user is in the merged file exactly once, in order, reading as before and under the
      table it had in the file with its blocks, and nothing else is but what setup writes at the top and
      the servers of the shared registry: exactly when no bracket line that is no whole header stands
      where a step works on what it takes for one table. */
  lemma MergeKeepsLines(s: Setup, config: seq<Line>)
    requires SetupOk(s) && BlocksOk(s) && Readable(config) && HeadedBlocks(config, Nowhere, false)
    ensures (Picked(Users(s), "", Merge(s, config))
             == TopEntries(s, Users(s), config) + (UserEntries(Users(s), "", config, Nowhere) + RegistryEntries(s, Users(s), config)))
            <==> Untangled(s, config)
  {
    hide KindOf, Picked, Unmarked, SetupOk, BlocksOk, Readable, Merge, TopEntries, RegistryEntries, Users, Untangled, UserEntries, UserLines, HeadedBlocks, Passes;
    UsersPass(s);
    PassesQuiet(s, Users(s));
    HeadedTables(Users(s), "", "", config, Nowhere, false);
    PickedUnmarked(Users(s), config);
    if Untangled(s, config) { UntangledKeeps(s, config); }
    if UsersKept(s, config) { KeptIsUntangled(s, config); }
  }
}
