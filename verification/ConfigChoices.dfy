/** What the user chose for the keys setup has defaults for, and files without commented headers. */
module ConfigChoices {
  import opened Text
  import opened ConfigLines
  import opened ConfigSections
  import opened ConfigTui
  import opened ConfigMarkers
  import opened ConfigTimeouts
  import opened ConfigRoot
  import opened ConfigStable
  import opened ConfigMerge
  import opened ConfigSettled
  import opened ConfigRepaired
  import opened ConfigFooter
  import opened ConfigIdempotence
  import opened ConfigSecondPass
  import opened ConfigSetup
  import opened ConfigKeeps
  import opened ConfigUpserts
  import opened ConfigFolds
  import opened ConfigOutside
  import opened ConfigPreserves

  // ----- picks no commented header can hide -----

  /** Looked for in whole tables or at the root only, and no startup timeout. */
  ghost predicate Sheltered(s: Setup, pick: Pick) { Passes(s, pick) && NoneBelow(pick) && Skips(pick, TimeoutKey) }

  /** A whole setup, given what the upserts make of the file. */
  lemma MergeSheltered(s: Setup, config: seq<Line>, pick: Pick)
    requires SetupOk(s) && BlocksOk(s) && Readable(config) && Sheltered(s, pick)
    requires var cleared := Cleared(s, Unmarked(config));
             Picked(pick, "", Sectioned(cleared)) == Picked(pick, "", cleared)
    ensures Picked(pick, "", Existing(s, Unmarked(config))) == Picked(pick, "", UserLines(config, Nowhere))
    ensures Picked(pick, "", Merge(s, config))
         == TopEntries(s, pick, config) + (Picked(pick, "", UserLines(config, Nowhere)) + RegistryEntries(s, pick, config))
  {
    hide KindOf, Picked, Unmarked, Cleared, Sectioned, FoldTui, Before, AddTimeouts, RegistryLines, TopLines, WritesTui, SetupOk, BlocksOk, Passes, Skips, NoneBelow, TuiBodies, NotifyInLines, UserLines, Merge;
    var lines := Unmarked(config);
    PassesQuiet(s, pick);
    SetupNotify(s);
    PickedUnmarked(pick, config);
    ClearedKeeps(s, pick, lines);
    if s.includeTui { FoldKeeps(pick, "", Sectioned(Cleared(s, lines))); }
    BeforeEntries(s, pick, Existing(s, lines), WritesTui(s, lines));
    AddKeeps(pick, "", Before(s, Existing(s, lines), WritesTui(s, lines)), s.needs);
    MergeIsAdded(s, config);
  }

  // ----- [env] and [agents] -----

  /** The headers of a section and the lines of one of its keys. */
  function KeyPick(sec: Section, key: string): Pick {
    (e: Entry) => e.table == Title(sec) && (e.line == Title(sec) || Sets(e.line, key))
  }

  lemma KeyPickIs(sec: Section, key: string)
    requires key in Keys(sec)
    ensures Quiet(KeyPick(sec, key)) && NoneBelow(KeyPick(sec, key)) && NoTui(KeyPick(sec, key)) && NoNotify(KeyPick(sec, key))
    ensures forall other :: other != key ==> Skips(KeyPick(sec, key), other)
    ensures forall keys :: RootSkips(KeyPick(sec, key), keys)
    ensures forall table: string :: table != Title(sec) ==> Unpicked(KeyPick(sec, key), table)
  {
    TitleKind(sec);
    TuiDiffers(sec);
    KeysForeign(sec, key);
    EmptyKind();
    NotifyIsSetting();
    hide HeaderLine, TuiTitle, Keys, IsNotifyLine;
  }

  lemma KeyPickSheltered(s: Setup, sec: Section, key: string)
    requires key in Keys(sec) && AgentsOk(s.legacyAgent)
    ensures Sheltered(s, KeyPick(sec, key))
    ensures forall other: Section :: other != sec ==> SkipsTitle(KeyPick(sec, key), Title(other)) && SkipsKeys(KeyPick(sec, key), other)
  {
    hide KindOf, KeyPick, Skips, SkipsTitle, SkipsKeys, Quiet, NoneBelow, NoTui, NoNotify, RootSkips, NoOrphans, McpSkips, Keys, Overrides, IsOrphan, StartsMcp, HeaderLine, AgentsOk, Unpicked;
    KeyPickIs(sec, key);
    KeysForeign(sec, key);
    TitleNotOrphan(s.legacyAgent, sec);
    TitleNotMcp(sec);
    KeyPickInTable(sec, key);
    InTable(KeyPick(sec, key), Title(sec), s.legacyAgent);
    forall other: Section | other != sec ensures SkipsTitle(KeyPick(sec, key), Title(other)) && SkipsKeys(KeyPick(sec, key), other) {
      KeyPickElsewhere(sec, key, other);
    }
  }

  lemma KeyPickInTable(sec: Section, key: string)
    ensures forall e :: KeyPick(sec, key)(e) ==> e.table == Title(sec)
  {
  }

  lemma TitleNotMcp(sec: Section)
    ensures !StartsMcp(Title(sec))
  {
    TitleKind(sec);
    TitlesNotMcp(sec);
    TitledNotMcp(Title(sec), Title(sec));
  }

  /** What is looked for in one table only. */
  lemma InTable(pick: Pick, table: string, g: string -> bool)
    requires forall e :: pick(e) ==> e.table == table
    requires !IsOrphan(table, g) && !StartsMcp(table)
    ensures NoOrphans(pick, g) && McpSkips(pick)
  {
    hide IsOrphan, StartsMcp, TimeoutLine;
  }

  lemma KeyPickElsewhere(sec: Section, key: string, other: Section)
    requires key in Keys(sec) && other != sec
    ensures SkipsTitle(KeyPick(sec, key), Title(other)) && SkipsKeys(KeyPick(sec, key), other)
  {
    KeyPickIs(sec, key);
    KeysDistinct();
    TitlesDiffer(sec, other);
    assert forall e :: KeyPick(sec, key)(e) ==> e.table == Title(sec);
    hide KindOf, KeyPick, HeaderLine, Skips, Keys, Opens, Quiet, NoneBelow, NoTui, NoNotify, RootSkips;
    forall k | k in Keys(other) ensures Skips(KeyPick(sec, key), k) {
      assert k != key;
    }
  }

  lemma TitleNotOrphan(legacyAgent: string -> bool, sec: Section)
    requires AgentsOk(legacyAgent)
    ensures !IsOrphan(Title(sec), legacyAgent)
  {
    TitleKind(sec);
    var name := Title(sec)[1..|Title(sec)| - 1];
    assert name == Name(sec);
    assert |"mcp_servers.omcp_"| == 17 && |"agents."| == 7 && "agents."[0] == 'a' && "features"[0] == 'f';
    hide KindOf, HeaderLine;
  }

  /** The first table of that name sets the key. */
  predicate FirstSets(es: seq<Entry>, sec: Section) {
    |es| >= 2 && es[0].line == Title(sec) && es[1].line != Title(sec)
  }

  /** Outside the table, the next entry is a header of it. */
  lemma {:induction false} HeaderFirst(sec: Section, key: string, table: string, lines: seq<Line>)
    requires key in Keys(sec) && (table != Title(sec) || (lines != [] && Opens(lines[0])))
    ensures var es := Picked(KeyPick(sec, key), table, lines);
            es == [] || es[0].line == Title(sec)
    decreases |lines|
  {
    hide KindOf, Trim, Opens, KeyPick, HeaderLine, Keys, Picked;
    if lines == [] {
      NoPicks(KeyPick(sec, key), table);
    } else {
      var l, rest := lines[0], lines[1..];
      assert lines == [l] + rest;
      PickedCons(KeyPick(sec, key), table, l, rest);
      KeyEntry(sec, key, table, l);
      if TableOf(table, l) != Title(sec) {
        HeaderFirst(sec, key, TableOf(table, l), rest);
        var es := Picked(KeyPick(sec, key), TableOf(table, l), rest);
        assert [] + es == es;
      }
    }
  }

  lemma KeyEntry(sec: Section, key: string, table: string, l: Line)
    ensures TableOf(table, l) != Title(sec) ==> !KeyPick(sec, key)(EntryOf(table, l))
    ensures Opens(l) && TableOf(table, l) == Title(sec) ==> KeyPick(sec, key)(EntryOf(table, l)) && EntryOf(table, l).line == Title(sec)
  {
    hide HeaderLine, Trim;
  }

  lemma UntitledNotPicked(sec: Section, key: string, lines: seq<Line>)
    requires key in Keys(sec) && NoneTitled(lines, Title(sec))
    ensures Picked(KeyPick(sec, key), "", lines) == []
  {
    KeyPickIs(sec, key);
    TitleKind(sec);
    EmptyKind();
    forall l | l in lines && Opens(l) ensures Trim(l) != Title(sec) {
      KindIgnoresTrim(l);
    }
    assert Title(sec) != "";
    hide KindOf, KeyPick, HeaderLine, Keys;
    PickedNowhere(KeyPick(sec, key), "", lines);
  }

  /** A section body that does not set the key shows nothing. */
  lemma BodyNotPicked(sec: Section, key: string, body: seq<Line>)
    requires key in Keys(sec) && NoHeaders(body) && !HasKey(body, key)
    ensures Picked(KeyPick(sec, key), Title(sec), body) == []
  {
    KeyPickIs(sec, key);
    forall l | l in body ensures !KeyPick(sec, key)(Entry(Title(sec), Trim(l))) && (Opens(l) ==> Trim(l) != Title(sec)) {
      KindIgnoresTrim(l);
      TitleKind(sec);
    }
    hide KindOf, KeyPick, HeaderLine, Keys, Trim, Opens;
    BodyNothing(sec, key, Title(sec), body);
  }

  lemma {:induction false} BodyNothing(sec: Section, key: string, table: string, body: seq<Line>)
    requires key in Keys(sec)
    requires forall l :: l in body ==> !KeyPick(sec, key)(Entry(Title(sec), Trim(l))) && (Opens(l) ==> Trim(l) != Title(sec))
    ensures Picked(KeyPick(sec, key), table, body) == []
    decreases |body|
  {
    hide KindOf, Trim, Opens, KeyPick, HeaderLine, Keys, Picked;
    if body == [] {
      NoPicks(KeyPick(sec, key), table);
    } else {
      var l, rest := body[0], body[1..];
      assert body == [l] + rest && l in body;
      forall x | x in rest ensures x in body { }
      PickedCons(KeyPick(sec, key), table, l, rest);
      KeyEntry(sec, key, table, l);
      BodyNothing(sec, key, TableOf(table, l), rest);
      if TableOf(table, l) == Title(sec) { assert EntryOf(table, l) == Entry(Title(sec), Trim(l)); }
    }
  }

  /** A key the first table sets is not set again. */
  lemma OwnUpsertKeeps(sec: Section, key: string, lines: seq<Line>)
    requires sec != Features && key in Keys(sec) && FirstSets(Picked(KeyPick(sec, key), "", lines), sec)
    ensures Picked(KeyPick(sec, key), "", Upsert(sec, lines)) == Picked(KeyPick(sec, key), "", lines)
  {
    hide KindOf, Picked, KeyPick, HeaderLine, Keys, HasTitle, CutAt, IsCut, Fix, Glue, NoneTitled;
    var t := Title(sec);
    NoTitleAt(lines, t);
    if !HasTitle(lines, t) {
      UntitledNotPicked(sec, key, lines);
      assert false;
    } else {
      var c := CutAt(lines, t);
      CutAtIs(lines, t);
      CutIs(c, t);
      FirstTableSets(sec, key, c);
      SetKeyStays(sec, key, c.body);
      PickedFixed(KeyPick(sec, key), "", sec, lines);
    }
  }

  lemma CutIs(c: Cut, title: string)
    requires IsCut(c, title)
    ensures NoneTitled(c.before, title) && NoHeaders(c.body) && StartsSection(c.after)
  {
  }

  lemma FirstTableSets(sec: Section, key: string, c: Cut)
    requires key in Keys(sec) && IsCut(c, Title(sec)) && FirstSets(Picked(KeyPick(sec, key), "", Glue(c)), sec)
    ensures HasKey(c.body, key)
  {
    hide KindOf, Picked, KeyPick, HeaderLine, Keys, IsCut, Glue, NoneTitled, NoHeaders, StartsSection, HasKey;
    CutIs(c, Title(sec));
    PickedGlue(KeyPick(sec, key), "", c, Title(sec));
    UntitledNotPicked(sec, key, c.before);
    if !HasKey(c.body, key) {
      BodyNotPicked(sec, key, c.body);
      var rest := Picked(KeyPick(sec, key), Title(sec), c.after);
      NothingOrHeader(sec, key, c.after);
      var h := Entry(Title(sec), Title(sec));
      KeyHeader(sec, key);
      HeaderNext(h, rest, sec);
      assert false;
    }
  }

  lemma HeaderNext(h: Entry, rest: seq<Entry>, sec: Section)
    requires rest == [] || rest[0].line == Title(sec)
    ensures !FirstSets([] + ([h] + ([] + rest)), sec)
  {
    hide HeaderLine;
    assert [] + ([h] + ([] + rest)) == [h] + rest;
    assert rest != [] ==> ([h] + rest)[1] == rest[0];
  }

  lemma KeyHeader(sec: Section, key: string)
    ensures HeaderEntry(KeyPick(sec, key), Title(sec)) == [Entry(Title(sec), Title(sec))]
  {
    hide HeaderLine;
  }

  lemma NothingOrHeader(sec: Section, key: string, after: seq<Line>)
    requires key in Keys(sec) && StartsSection(after)
    ensures var es := Picked(KeyPick(sec, key), Title(sec), after);
            es == [] || es[0].line == Title(sec)
  {
    AfterOpens(after);
    hide KindOf, Picked, KeyPick, HeaderLine, Keys, Opens;
    if after == [] {
      NoPicks(KeyPick(sec, key), Title(sec));
    } else {
      HeaderFirst(sec, key, Title(sec), after);
    }
  }

  lemma SetKeyStays(sec: Section, key: string, body: seq<Line>)
    requires sec != Features && key in Keys(sec) && HasKey(body, key)
    ensures Picked(KeyPick(sec, key), Title(sec), Fix(sec, body)) == Picked(KeyPick(sec, key), Title(sec), body)
  {
    hide KindOf, Picked, KeyPick, HeaderLine, SettingLine, Skips;
    KeyPickIs(sec, key);
    OtherKinds();
    KeysDistinct();
    if sec == Agents {
      var threads, depth := SettingLine(MaxThreads, "6"), SettingLine(MaxDepth, "2");
      if key == MaxThreads {
        PickedSet(KeyPick(sec, key), Title(sec), body, MaxDepth, depth);
      } else {
        PickedSet(KeyPick(sec, key), Title(sec), body, MaxThreads, threads);
        KeySnoc(body, threads, MaxDepth);
      }
    }
  }

  /** In the tables of the shared registry nothing of the three sections stands. */
  lemma RegistryTables(s: Setup, existing: seq<Line>)
    requires SharedOk(s) && BlocksOk(s)
    ensures forall l :: l in RegistryLines(s, existing) && Opens(l) ==> StartsMcp(l)
  {
    hide KindOf, NewServers, Plain, StartsMcp, IsOrphan, StartsOmcp, HasHeader;
    FixedRemarks();
    RemarkKind(RuleLine);
    RemarkKind("# " + RegistryMarker);
    RemarkKind(RegistryNote);
    RemarkKind(RegistryEnd);
    EmptyKind();
    var servers := NewServers(s.shared, existing);
    forall x | x in servers ensures x in s.shared { NewServersAre(s.shared, existing, x); }
    forall l | l in ServerLines(servers) && Opens(l) ensures StartsMcp(l) {
      var x := ServerOf(servers, l);
      OpenerTrims(l);
    }
    hide RuleLine, RegistryMarker, RegistryNote, RegistryEnd, ServerLines, Opens;
  }

  lemma {:induction false} ServerOf(servers: seq<Shared>, l: Line) returns (x: Shared)
    requires l in ServerLines(servers)
    ensures x in servers && l in x.lines
  {
    if l in servers[0].lines {
      x := servers[0];
    } else {
      x := ServerOf(servers[1..], l);
    }
  }

  lemma McpTable(sec: Section, l: Line)
    requires StartsMcp(l)
    ensures Trim(l) != Title(sec) && Trim(l) != ""
  {
    McpText(l);
    TitlesNotMcp(sec);
  }

  lemma RegistryNotPicked(s: Setup, pick: Pick, existing: seq<Line>, sec: Section)
    requires SharedOk(s) && BlocksOk(s) && Quiet(pick)
    requires forall table: string :: table != Title(sec) && table != "" ==> Unpicked(pick, table)
    ensures Picked(pick, "", RegistryLines(s, existing)) == []
  {
    hide KindOf, Picked, RegistryLines, StartsMcp, Quiet, Trim, Opens, SharedOk, BlocksOk;
    RegistryTables(s, existing);
    forall l | l in RegistryLines(s, existing) && Opens(l) ensures Unpicked(pick, Trim(l)) {
      McpTable(sec, l);
    }
    RegistryAnyTable(s, pick, existing, "", TuiTitle);
    TuiDiffers(sec);
    assert TuiTitle != "";
    PickedNowhere(pick, TuiTitle, RegistryLines(s, existing));
  }

  lemma TopNotPicked(s: Setup, pick: Pick, existing: seq<Line>)
    requires TopOk(s.top) && Unpicked(pick, "")
    ensures Picked(pick, "", TopLines(s.top, existing)) == []
  {
    hide KindOf, Picked, TopLines, TopOk, Opens, PlainLines;
    TopPlain(s, existing);
    forall l | l in TopLines(s.top, existing) ensures !Opens(l) { assert l in TopLines(s.top, existing) + [""]; }
    PickedNowhere(pick, "", TopLines(s.top, existing));
  }

  /** What the user's first [env] or [agents] table sets of the keys setup has a default for stays as it
      is, and no second line for it is written. */
  lemma MergeKeepsDefaults(s: Setup, config: seq<Line>, sec: Section, key: string)
    requires SetupOk(s) && BlocksOk(s) && Readable(config) && sec != Features && key in Keys(sec)
    requires FirstSets(Picked(KeyPick(sec, key), "", UserLines(config, Nowhere)), sec)
    ensures Picked(KeyPick(sec, key), "", Merge(s, config)) == Picked(KeyPick(sec, key), "", UserLines(config, Nowhere))
  {
    hide KindOf, Picked, KeyPick, HeaderLine, Keys, Upsert, UserLines, Unmarked, Cleared, Merge, Sheltered, SkipsTitle, SkipsKeys, BlocksOk, TopOk, ManagedOk, SharedOk, Sensible, NotifyInLines, RegistryLines, TopLines, Existing;
    var q := KeyPick(sec, key);
    KeyPickIs(sec, key);
    KeyPickSheltered(s, sec, key);
    ShelteredPasses(s, q);
    PickedUnmarked(q, config);
    var lines := Unmarked(config);
    ClearedKeeps(s, q, lines);
    var cleared := Cleared(s, lines);
    UpsertSkips(q, "", Features, cleared);
    var f := Upsert(Features, cleared);
    if sec == Env { OwnUpsertKeeps(Env, key, f); } else { UpsertSkips(q, "", Env, f); }
    var e := Upsert(Env, f);
    if sec == Agents { OwnUpsertKeeps(Agents, key, e); } else { UpsertSkips(q, "", Agents, e); }
    MergeSheltered(s, config, q);
    TitleNotEmpty(sec);
    var existing := Existing(s, lines);
    TopNotPicked(s, q, existing);
    RegistryNotPicked(s, q, existing, sec);
    var user := Picked(q, "", UserLines(config, Nowhere));
    assert [] + (user + []) == user;
  }

  lemma ShelteredPasses(s: Setup, pick: Pick)
    requires Sheltered(s, pick)
    ensures Passes(s, pick) && Quiet(pick)
  {
  }

  lemma TitleNotEmpty(sec: Section)
    ensures Title(sec) != ""
  {
  }

  // ----- the model -----

  function RootPick(key: string): Pick { (e: Entry) => e.table == "" && Sets(e.line, key) }

  const ModelKeys := {ModelKey, ContextKey, CompactKey}

  lemma ModelKeysForeign(key: string)
    requires key in ModelKeys
    ensures key !in TopKeys && key != TimeoutKey && key != NotifyKey && forall sec: Section :: key !in Keys(sec)
  {
    KeysDiffer();
    assert |ModelKey| == 5 && |ContextKey| == 20 && |CompactKey| == 30 && |TimeoutKey| == 19 && |NotifyKey| == 6;
    assert |MultiAgent| == 11 && |ChildAgents| == 15 && |CodexHooks| == 11 && |Collab| == 6 && |ExploreCmd| == 19;
    assert |MaxThreads| == 11 && |MaxDepth| == 9;
  }

  lemma RootPickIs(s: Setup, key: string)
    requires key in ModelKeys && !(Overrides(s.top) && key == ModelKey)
    ensures Sheltered(s, RootPick(key))
    ensures forall sec: Section :: SkipsTitle(RootPick(key), Title(sec)) && SkipsKeys(RootPick(key), sec)
    ensures forall table: string :: table != "" ==> Unpicked(RootPick(key), table)
  {
    ModelKeysForeign(key);
    EmptyKind();
    NotifyIsSetting();
    EmptyNotMcp();
    hide HeaderLine, TuiTitle, IsNotifyLine, StartsMcp, Keys, Overrides, TimeoutLine, TopKeys;
  }

  lemma EmptyNotMcp()
    ensures !StartsMcp("") && TuiTitle != "" && forall sec: Section :: Title(sec) != ""
  {
    NotMcpBlank("") by { EmptyKind(); }
    assert |TuiTitle| == 5;
  }

  /** A value that is there for the trimmed line is there for the line. */
  lemma ValueOfTrimmed(l: Line, key: string)
    requires Sets(l, key) && ValueOf(Trim(l)).Some?
    ensures ValueOf(l).Some?
  {
    hide TrimStart, TrimEnd, KindOf, KeyLength, IsSpace, Blank;
    TrimCommutes(l);
    TrimStartTwice(TrimEnd(l));
    var t := TrimStart(l);
    TrimEndCuts(t);
    PrefixValue(t, |TrimEnd(t)|);
  }

  /** What follows the key gets no shorter with spaces behind it. */
  lemma PrefixValue(t: string, k: nat)
    requires k <= |t|
    ensures var r := t[..k];
            var rest, longer := TrimStart(r[KeyLength(r)..]), TrimStart(t[KeyLength(t)..]);
            |rest| >= 2 ==> |longer| >= |rest|
  {
    hide TrimStart, KeyLength;
    var r := t[..k];
    var n := KeyLength(r);
    if |TrimStart(r[n..])| >= 2 {
      KeyLengthPrefix(t, k);
      assert t[n..] == r[n..] + t[k..];
      TrimStartLonger(r[n..], t[k..]);
    }
  }

  lemma {:induction false} KeyLengthPrefix(t: string, k: nat)
    requires k <= |t| && KeyLength(t[..k]) < k
    ensures KeyLength(t) == KeyLength(t[..k])
  {
    if t != "" && !(IsSpace(t[0]) || t[0] == '=') {
      assert t[..k][1..] == t[1..][..k - 1];
      KeyLengthPrefix(t[1..], k - 1);
    }
  }

  lemma {:induction false} TrimStartLonger(a: string, b: string)
    requires TrimStart(a) != ""
    ensures |TrimStart(a + b)| >= |TrimStart(a)|
  {
    assert a != "" && (a + b)[0] == a[0];
    if IsSpace(a[0]) {
      assert (a + b)[1..] == a[1..] + b;
      TrimStartLonger(a[1..], b);
    }
  }

  lemma {:induction false} RootFound(lines: seq<Line>, key: string, e: Entry)
    requires e in Picked(RootPick(key), "", lines) && ValueOf(e.line).Some?
    ensures RootValue(lines, key).Some?
    decreases |lines|
  {
    hide ValueOf, Picked, Trim, KindOf;
    if lines == [] {
      NoPicks(RootPick(key), "");
      assert false;
    } else {
      var l, rest := lines[0], lines[1..];
      assert lines == [l] + rest;
      PickedCons(RootPick(key), "", l, rest);
      if Opens(l) {
        OpensText(l);
        RootOver(key, Trim(l), rest);
        assert false;
      } else if e in Picked(RootPick(key), "", rest) {
        RootFound(rest, key, e);
      } else {
        assert e == Entry("", Trim(l)) && Sets(Trim(l), key);
        KindIgnoresTrim(l);
        ValueOfTrimmed(l, key);
      }
    }
  }

  lemma OpensText(l: Line)
    requires Opens(l)
    ensures Trim(l) != ""
  {
  }

  lemma RootOver(key: string, table: string, lines: seq<Line>)
    requires table != ""
    ensures Picked(RootPick(key), table, lines) == []
  {
    forall l | l in lines && Opens(l) ensures Unpicked(RootPick(key), Trim(l)) { OpensText(l); }
    hide KindOf, Trim;
    PickedNowhere(RootPick(key), table, lines);
  }

  lemma TopLeavesKey(s: Setup, existing: seq<Line>, key: string)
    requires TopOk(s.top) && key in ModelKeys && !(Overrides(s.top) && key == ModelKey) && RootValue(existing, key).Some?
    ensures Picked(RootPick(key), "", TopLines(s.top, existing)) == []
  {
    hide KindOf, Picked, TopOk, Opens, PlainLines, SettingLine, ModelLine, RootValue, SelectedModel, ValueOf, ContextLine, CompactLine, Trim, Overrides;
    var o := s.top;
    TopPlain(s, existing);
    TopKinds(o);
    TopCommentKind();
    ModelKind(SelectedModel(o, existing));
    WindowKinds();
    KeysDiffer();
    hide TopComment;
    forall l | l in TopLines(o, existing) ensures !Opens(l) && !RootPick(key)(Entry("", Trim(l))) {
      assert l in TopLines(o, existing) + [""];
      KindIgnoresTrim(l);
    }
    PickedNone(RootPick(key), "", TopLines(o, existing));
  }

  /** A model, context window or compaction limit the user gave at the root stays as it is, and setup
      writes no second line for it; a model option replaces the model alone. */
  lemma MergeKeepsModel(s: Setup, config: seq<Line>, key: string, e: Entry)
    requires SetupOk(s) && BlocksOk(s) && Readable(config) && key in ModelKeys && !(Overrides(s.top) && key == ModelKey)
    requires e in Picked(RootPick(key), "", UserLines(config, Nowhere)) && ValueOf(e.line).Some?
    ensures Picked(RootPick(key), "", Merge(s, config)) == Picked(RootPick(key), "", UserLines(config, Nowhere))
  {
    hide KindOf, Picked, RootPick, HeaderLine, Keys, Upsert, UserLines, Unmarked, Cleared, Merge, Sheltered, SkipsTitle, SkipsKeys, BlocksOk, TopOk, ManagedOk, SharedOk, Sensible, NotifyInLines, RegistryLines, TopLines, Existing, Overrides, ValueOf, RootValue, Sectioned;
    var q := RootPick(key);
    RootPickIs(s, key);
    ShelteredPasses(s, q);
    var lines := Unmarked(config);
    SectionedSkips(q, Cleared(s, lines));
    MergeSheltered(s, config, q);
    var existing := Existing(s, lines);
    RootFound(existing, key, e);
    TopLeavesKey(s, existing, key);
    RegistryNotPicked(s, q, existing, Env);
    var user := Picked(q, "", UserLines(config, Nowhere));
    assert [] + (user + []) == user;
  }

  // ----- files without commented headers -----

  lemma PlainSectionKept(sec: Section, lines: seq<Line>)
    requires NoOpeners(lines)
    ensures SectionKept(sec, lines)
  {
    hide KindOf, HasTitle, CutAt, Keys, HeaderLine, Glue;
    if HasTitle(lines, Title(sec)) {
      var c := CutAt(lines, Title(sec));
      CutAtIs(lines, Title(sec));
      CutPlain(lines, c, Title(sec));
      forall key | key in Keys(sec) ensures KeyKept(sec, key, c.body) { HeadOnlyPlain(c.body, key); }
    }
  }

  lemma CutPlain(lines: seq<Line>, c: Cut, title: string)
    requires IsCut(c, title) && Glue(c) == lines && NoOpeners(lines)
    ensures NoOpens(c.body)
  {
    forall l | l in c.body ensures !Opens(l) {
      assert l in lines;
    }
  }

  lemma {:induction false} HeadOnlyPlain(body: seq<Line>, key: string)
    requires NoOpens(body)
    ensures HeadOnly(body, key)
  {
    hide KindOf, Opens;
    if body != [] {
      HeadOnlyPlain(body[..|body| - 1], key);
    }
  }

  lemma {:induction false} PlainTui(lines: seq<Line>)
    requires NoOpeners(lines)
    ensures NoOpens(TuiBodies(lines))
  {
    TuiBodiesPlain(lines);
    forall l | l in TuiBodies(lines) ensures !Opens(l) {
      TuiBodiesLines(lines, l);
      OpenerTrims(l);
    }
    hide KindOf;
  }

  /** In a file in which every line that opens with a bracket is a whole header all guards hold. */
  lemma PlainIsUntangled(s: Setup, config: seq<Line>)
    requires SetupOk(s) && Readable(config) && NoOpeners(config)
    ensures Untangled(s, config)
  {
    hide KindOf, Unmarked, Cleared, Upsert, FoldTui, SetupOk, NoOpens, TuiBodies, Before, RepairsLand, WritesTui, SectionKept, NoOpeners, Readable;
    PlainSteps(s, config);
    var lines := Unmarked(config);
    var cleared := Cleared(s, lines);
    var f := Upsert(Features, cleared);
    PlainSectionKept(Features, cleared);
    PlainSectionKept(Env, f);
    PlainSectionKept(Agents, Upsert(Env, f));
    PlainTui(Sectioned(cleared));
    PlainRepairsLand(Before(s, Existing(s, lines), WritesTui(s, lines)), s.needs);
  }

  lemma PlainSteps(s: Setup, config: seq<Line>)
    requires SetupOk(s) && Readable(config) && NoOpeners(config)
    ensures var lines := Unmarked(config);
            var cleared := Cleared(s, lines);
            && NoOpeners(cleared) && NoOpeners(Upsert(Features, cleared)) && NoOpeners(Upsert(Env, Upsert(Features, cleared)))
            && NoOpeners(Sectioned(cleared)) && NoOpeners(Before(s, Existing(s, lines), WritesTui(s, lines)))
  {
    hide KindOf, StripBlocks, StripRootKeys, StripOrphans, Robust, Upsert, FoldTui, Contains, IsOrphan, IsNotifyLine, DropNotify, Block, TrimEndLines, Overrides, TopLines, Footer, WritesTui, TopOk, ManagedOk, SharedOk, Sensible, Opens;
    var p := (l: Line) => !KindOf(l).Opener?;
    NoOpenerWritable();
    WritableParts(p);
    WritableBlocks(p);
    NonEmptyMarkers();
    StripBlocksKeeps(p, config, OmcpMarks);
    StripBlocksKeeps(p, StripBlocks(config, OmcpMarks), RegistryMarks);
    var lines := Unmarked(config);
    PlainCleared(s, lines);
    var cleared := Cleared(s, lines);
    UpsertKeepsAll(p, Features, cleared);
    UpsertKeepsAll(p, Env, Upsert(Features, cleared));
    UpsertKeepsAll(p, Agents, Upsert(Env, Upsert(Features, cleared)));
    FoldKeepsAll(p, Sectioned(cleared));
    var existing := Existing(s, lines);
    TrimEndKeeps(p, existing);
    TopPlain(s, existing);
    OpenersOpen();
    FooterPlain(s, existing, WritesTui(s, lines));
  }

  lemma PlainCleared(s: Setup, lines: seq<Line>)
    requires NotifyOk(s.dropNotify) && NotifyInLines(StripRootKeys(lines, TopKeys, true)) && NoOpeners(lines)
    ensures NoOpeners(Cleared(s, lines))
  {
    hide KindOf, StripRootKeys, StripOrphans, Robust, Contains, IsOrphan, IsNotifyLine, DropNotify, Overrides;
    var p := (l: Line) => !KindOf(l).Opener?;
    EmptyKind();
    assert All(p, lines);
    StripRootKeysKeeps(p, lines, TopKeys, true);
    var bare := StripRootKeys(lines, TopKeys, true);
    NothingHolds(p);
    DropNotifyKeeps(p, [], bare);
    var quiet := DropNotify([], bare);
    StripRootKeysKeeps(p, quiet, {ModelKey}, false);
    var ready := if Overrides(s.top) then StripRootKeys(quiet, {ModelKey}, false) else quiet;
    StripOrphansKeeps(p, [], ready, s.legacyAgent);
    assert All(p, Cleared(s, lines));
  }

  lemma FooterPlain(s: Setup, existing: seq<Line>, withTui: bool)
    requires SharedOk(s) && ManagedOk(s.managed)
    ensures NoOpeners(Footer(s, existing, withTui))
  {
    hide KindOf, NewServers, TablesMiddle, RegistryMiddle, ManagedOk;
    EmptyKind();
    BlockNotes();
    MiddlePlain(s, withTui);
    var servers := NewServers(s.shared, existing);
    if servers != [] {
      ServersPlain(s, servers, existing);
      BlockPlain(Registry(s, servers));
    }
    BlockPlain(Tables(s, withTui));
    hide RuleLine, OmcpMarker, RegistryMarker, OmcpEnd, RegistryEnd, SharedOk, WrittenLines;
    PlainBoth(RegistryLines(s, existing), WrittenLines(Tables(s, withTui)));
  }

  lemma BlockNotes()
    ensures KindOf(RuleLine).Remark? && KindOf("# " + OmcpMarker).Remark? && KindOf("# " + RegistryMarker).Remark?
    ensures KindOf(OmcpEnd).Remark? && KindOf(RegistryEnd).Remark?
  {
    FixedRemarks();
    RemarkKind(RuleLine);
    RemarkKind("# " + OmcpMarker);
    RemarkKind("# " + RegistryMarker);
    RemarkKind(OmcpEnd);
    RemarkKind(RegistryEnd);
    hide KindOf, RuleLine, OmcpMarker, RegistryMarker, OmcpEnd, RegistryEnd;
  }

  lemma MiddlePlain(s: Setup, withTui: bool)
    requires ManagedOk(s.managed)
    ensures NoOpeners(TablesMiddle(s, withTui))
  {
    hide KindOf, TablesMiddle, ManagedOk, Plain, StartsMcp, StartsOmcp;
    MiddleLines(s, withTui);
  }

  lemma ServersPlain(s: Setup, servers: seq<Shared>, existing: seq<Line>)
    requires SharedOk(s) && servers == NewServers(s.shared, existing) && servers != []
    ensures NoOpeners(RegistryMiddle(s, servers))
  {
    hide KindOf, NewServers, RegistryMiddle, Plain, HasHeader, Contains, IsBlank, IsHeader, Opens;
    forall x | x in servers ensures x in s.shared { NewServersAre(s.shared, existing, x); }
    RegistryOk(s, servers);
    hide RuleLine, OmcpMarker, RegistryMarker, OmcpEnd, RegistryEnd;
  }

  lemma PlainBoth(a: seq<Line>, b: seq<Line>)
    requires NoOpeners(a) && NoOpeners(b)
    ensures NoOpeners(a + b)
  {
    hide KindOf;
  }

  lemma BlockPlain(w: Written)
    requires NoOpeners(w.middle) && NoOpeners([w.rule, w.marker, w.end]) && NoOpeners(w.tail) && KindOf("").Empty?
    ensures NoOpeners(WrittenLines(w))
  {
    hide KindOf;
    assert w.rule in [w.rule, w.marker, w.end] && w.marker in [w.rule, w.marker, w.end] && w.end in [w.rule, w.marker, w.end];
  }
}
