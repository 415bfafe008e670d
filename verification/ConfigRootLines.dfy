/** What a whole setup leaves at the root of the file: the lines it writes itself, the model and its
    window. */
module ConfigRootLines {
  import opened Text
  import opened ConfigLines
  import opened ConfigSections
  import opened ConfigTui
  import opened ConfigMarkers
  import opened ConfigTimeouts
  import opened ConfigRoot
  import opened ConfigStable
  import opened ConfigMerge
  import opened ConfigSettled
  import opened ConfigRepaired
  import opened ConfigFooter
  import opened ConfigSecondPass
  import opened ConfigSetup
  import opened ConfigKeeps
  import opened ConfigUpserts
  import opened ConfigFolds
  import opened ConfigOutside
  import opened ConfigPreserves
  import opened ConfigChoices

  const RootKeys := TopKeys + ModelKeys

  // ----- root lines of the whole -----

  lemma RootKeysForeign(key: string)
    requires key in RootKeys
    ensures key != TimeoutKey
  {
    assert |ModelKey| == 5 && |ContextKey| == 20 && |CompactKey| == 30 && |TimeoutKey| == 19;
    assert |NotifyKey| == 6 && |EffortKey| == 22 && |InstructionsKey| == 22;
  }

  lemma RootPickWalks(s: Setup, key: string)
    requires key in RootKeys
    ensures Quiet(RootPick(key)) && NoOrphans(RootPick(key), s.legacyAgent) && NoTui(RootPick(key)) && McpSkips(RootPick(key))
    ensures Skips(RootPick(key), TimeoutKey)
    ensures forall table: string :: table != "" ==> Unpicked(RootPick(key), table)
  {
    RootKeysForeign(key);
    EmptyKind();
    EmptyNotMcp();
    hide HeaderLine, TuiTitle, StartsMcp, TimeoutLine, RootKeys;
  }

  /** Behind the top lines come the root lines of the user's part. */
  lemma MergeRoot(s: Setup, config: seq<Line>, key: string)
    requires SetupOk(s) && BlocksOk(s) && key in RootKeys
    ensures var existing := Existing(s, Unmarked(config));
            Picked(RootPick(key), "", Merge(s, config))
            == Picked(RootPick(key), "", TopLines(s.top, existing)) + Picked(RootPick(key), "", existing)
  {
    hide KindOf, Picked, RootPick, Unmarked, Existing, TopLines, RegistryLines, Before, AddTimeouts, WritesTui, BlocksOk, TopOk, ManagedOk, SharedOk, Sensible, Quiet, NoOrphans, NoTui, McpSkips, Skips, Merge, RootKeys;
    var q := RootPick(key);
    var lines := Unmarked(config);
    var existing := Existing(s, lines);
    RootPickWalks(s, key);
    BeforeEntries(s, q, existing, WritesTui(s, lines));
    AddKeeps(q, "", Before(s, existing, WritesTui(s, lines)), s.needs);
    MergeIsAdded(s, config);
    TitleNotEmpty(Env);
    RegistryNotPicked(s, q, existing, Env);
    assert Picked(q, "", existing) + [] == Picked(q, "", existing);
  }

  lemma {:induction false} RootFreeNone(lines: seq<Line>, keys: set<string>, key: string)
    requires RootFree(lines, keys) && key in keys
    ensures Picked(RootPick(key), "", lines) == []
    decreases |lines|
  {
    hide KindOf, Picked, Trim;
    if lines == [] {
      NoPicks(RootPick(key), "");
    } else {
      var l, rest := lines[0], lines[1..];
      assert lines == [l] + rest;
      PickedCons(RootPick(key), "", l, rest);
      if Opens(l) {
        OpensText(l);
        RootOver(key, Trim(l), rest);
      } else {
        RootFreeNone(rest, keys, key);
        KindIgnoresTrim(l);
      }
    }
  }

  // ----- the root lines of what setup writes -----

  lemma OneSetting(key: string, k: string, value: string)
    requires BareKey(k) && ValueOk(value)
    ensures Picked(RootPick(key), "", [SettingLine(k, value)]) == if k == key then [Entry("", SettingLine(k, value))] else []
    ensures TableAfter("", [SettingLine(k, value)]) == ""
  {
    var l := SettingLine(k, value);
    SettingLineKind(k, value);
    SettingTrimmed(k, value);
    hide KindOf, SettingLine, Trim;
    PickedOne(RootPick(key), "", l);
  }

  lemma OneComment(key: string)
    ensures Picked(RootPick(key), "", [TopComment]) == [] && TableAfter("", [TopComment]) == ""
  {
    TopCommentKind();
    KindIgnoresTrim(TopComment);
    hide TopComment, KindOf, Trim;
    PickedOne(RootPick(key), "", TopComment);
  }

  /** The lines of the list that set the key. */
  function SetBy(key: string, k: string, line: Line): seq<Entry> { if k == key then [Entry("", line)] else [] }

  lemma FixedEntries(o: TopOptions, key: string)
    requires TopOk(o)
    ensures Picked(RootPick(key), "", FixedTop(o))
         == SetBy(key, NotifyKey, SettingLine(NotifyKey, o.notify)) + SetBy(key, EffortKey, SettingLine(EffortKey, o.effort))
            + SetBy(key, InstructionsKey, SettingLine(InstructionsKey, o.instructions))
    ensures TableAfter("", FixedTop(o)) == ""
  {
    hide KindOf, Picked, RootPick, SettingLine, BareKey, TableAfter, TopComment, Plain, Contains;
    TopBare();
    var q := RootPick(key);
    var a, b, c := SettingLine(NotifyKey, o.notify), SettingLine(EffortKey, o.effort), SettingLine(InstructionsKey, o.instructions);
    OneComment(key);
    OneSetting(key, NotifyKey, o.notify);
    OneSetting(key, EffortKey, o.effort);
    OneSetting(key, InstructionsKey, o.instructions);
    assert FixedTop(o) == [TopComment] + ([a] + ([b] + [c]));
    PickedConcat(q, "", [TopComment], [a] + ([b] + [c]));
    PickedConcat(q, "", [a], [b] + [c]);
    PickedConcat(q, "", [b], [c]);
    assert [] + (SetBy(key, NotifyKey, a) + (SetBy(key, EffortKey, b) + SetBy(key, InstructionsKey, c)))
        == SetBy(key, NotifyKey, a) + SetBy(key, EffortKey, b) + SetBy(key, InstructionsKey, c);
  }

  lemma ModelEntries(o: TopOptions, existing: seq<Line>, key: string)
    ensures Picked(RootPick(key), "", ModelPart(o, existing))
         == if ModelPart(o, existing) == [] then [] else SetBy(key, ModelKey, ModelLine(SelectedModel(o, existing)))
    ensures TableAfter("", ModelPart(o, existing)) == ""
  {
    hide KindOf, Picked, RootPick, BareKey, SettingLine, SelectedModel, RootValue, IsSpace, TableAfter;
    WindowBare();
    ValueEnds();
    OneSetting(key, ModelKey, "\"" + SelectedModel(o, existing) + "\"");
    NoPicks(RootPick(key), "");
    NoTable();
  }

  lemma NoTable()
    ensures TableAfter("", []) == ""
  {
  }

  lemma WindowEntries(o: TopOptions, existing: seq<Line>, key: string)
    ensures Picked(RootPick(key), "", WindowPart(o, existing))
         == if WindowPart(o, existing) == [] then [] else SetBy(key, ContextKey, ContextLine) + SetBy(key, CompactKey, CompactLine)
  {
    hide KindOf, Picked, RootPick, BareKey, SettingLine, SelectedModel, RootValue, IsSpace, TableAfter;
    WindowBare();
    ValueEnds();
    OneSetting(key, ContextKey, "1000000");
    OneSetting(key, CompactKey, "900000");
    NoPicks(RootPick(key), "");
    PickedConcat(RootPick(key), "", [ContextLine], [CompactLine]);
    assert [ContextLine, CompactLine] == [ContextLine] + [CompactLine];
  }

  lemma TopEntriesAre(o: TopOptions, existing: seq<Line>, key: string)
    requires TopOk(o)
    ensures Picked(RootPick(key), "", TopLines(o, existing))
         == Picked(RootPick(key), "", FixedTop(o))
            + (Picked(RootPick(key), "", ModelPart(o, existing)) + Picked(RootPick(key), "", WindowPart(o, existing)))
  {
    hide KindOf, Picked, RootPick, SelectedModel, RootValue, TableAfter, TopOk, FixedTop, ModelPart, WindowPart;
    var q := RootPick(key);
    FixedEntries(o, key);
    ModelEntries(o, existing, key);
    Assoc(FixedTop(o), ModelPart(o, existing), WindowPart(o, existing));
    PickedConcat(q, "", FixedTop(o), ModelPart(o, existing) + WindowPart(o, existing));
    PickedConcat(q, "", ModelPart(o, existing), WindowPart(o, existing));
  }

  lemma KeysApart()
    ensures NotifyKey != EffortKey && NotifyKey != InstructionsKey && EffortKey != InstructionsKey
    ensures forall key :: key in ModelKeys ==> key !in TopKeys
  {
    KeysDiffer();
    assert |NotifyKey| == 6 && |EffortKey| == 22 && EffortKey[0] == 'm' && InstructionsKey[0] == 'd';
  }

  // ----- the laws -----

  /** Setup's own root keys are in the result exactly once, at the root and with the values given,
      whatever the file had of them. */
  lemma OwnRootLines(s: Setup, config: seq<Line>)
    requires SetupOk(s) && BlocksOk(s) && Readable(config)
    ensures Picked(RootPick("notify"), "", Merge(s, config)) == [Entry("", "notify" + " = " + s.top.notify)]
    ensures Picked(RootPick("model_reasoning_effort"), "", Merge(s, config))
         == [Entry("", "model_reasoning_effort" + " = " + s.top.effort)]
    ensures Picked(RootPick("developer_instructions"), "", Merge(s, config))
         == [Entry("", "developer_instructions" + " = " + s.top.instructions)]
  {
    hide KindOf, RootPick, Picked, Merge, SetupOk, BlocksOk, Readable;
    OwnRootLine(s, config, NotifyKey, s.top.notify);
    OwnRootLine(s, config, EffortKey, s.top.effort);
    OwnRootLine(s, config, InstructionsKey, s.top.instructions);
    TopTexts(s.top);
    hide NotifyKey, EffortKey, InstructionsKey, SettingLine;
  }

  lemma TopTexts(o: TopOptions)
    ensures NotifyKey == "notify" && EffortKey == "model_reasoning_effort" && InstructionsKey == "developer_instructions"
    ensures SettingLine(NotifyKey, o.notify) == "notify" + " = " + o.notify
    ensures SettingLine(EffortKey, o.effort) == "model_reasoning_effort" + " = " + o.effort
    ensures SettingLine(InstructionsKey, o.instructions) == "developer_instructions" + " = " + o.instructions
    ensures TopComment == "# oh-my-copilot top-level settings " + "(must be before any [table])"
  {
  }

  lemma OwnRootLine(s: Setup, config: seq<Line>, key: string, value: string)
    requires SetupOk(s) && BlocksOk(s) && Readable(config) && key in TopKeys
    requires value == if key == NotifyKey then s.top.notify else if key == EffortKey then s.top.effort else s.top.instructions
    ensures Picked(RootPick(key), "", Merge(s, config)) == [Entry("", SettingLine(key, value))]
  {
    hide KindOf, Picked, RootPick, Merge, BlocksOk, Readable, Unmarked, Existing, SettingLine, TopOk, ManagedOk, SharedOk, Sensible, NotifyOk, FixedIn, TuiDone, Acceptable, RootFree, TopLines, SelectedModel, ModelPart, WindowPart, FixedTop, ContextLine, CompactLine;
    var existing := Existing(s, Unmarked(config));
    KeysApart();
    KeysDiffer();
    MergeRoot(s, config, key);
    ExistingSettled(s, config);
    RootFreeNone(existing, TopKeys, key);
    TopEntriesAre(s.top, existing, key);
    FixedEntries(s.top, key);
    ModelEntries(s.top, existing, key);
    WindowEntries(s.top, existing, key);
    hide NotifyKey, EffortKey, InstructionsKey, ModelKey, ContextKey, CompactKey;
  }

  /** The lines begin with setup's own. */
  lemma MergeBegins(s: Setup, config: seq<Line>)
    requires SetupOk(s) && BlocksOk(s)
    ensures ["# oh-my-copilot top-level settings " + "(must be before any [table])", "notify" + " = " + s.top.notify,
             "model_reasoning_effort" + " = " + s.top.effort, "developer_instructions" + " = " + s.top.instructions]
            <= Merge(s, config)
  {
    hide KindOf, Unmarked, Existing, WritesTui, BlocksOk, ManagedOk, SharedOk, Sensible, TopOk, NotifyOk, AddTimeouts, Footer, TrimEndLines, SelectedModel, ModelPart, WindowPart, StartsMcp, Contains, TopComment, SettingLine, NoOpens, PlainLines;
    var lines := Unmarked(config);
    var existing := Existing(s, lines);
    MergeIsAdded(s, config);
    TopPlain(s, existing);
    var top := TopLines(s.top, existing);
    var rest := [""] + TrimEndLines(existing) + Footer(s, existing, WritesTui(s, lines));
    assert Before(s, existing, WritesTui(s, lines)) == top + rest;
    forall l | l in top ensures !StartsMcp(l) {
      assert l in top + [""];
      OpensNotMcp(top + [""], l);
    }
    AddBehind(top, rest, s.needs);
    TopTexts(s.top);
    assert FixedTop(s.top) <= top;
  }

  lemma OpensNotMcp(lines: seq<Line>, l: Line)
    requires NoOpens(lines) && l in lines
    ensures !StartsMcp(l)
  {
    if StartsMcp(l) { McpOpens(l); }
  }

  lemma {:induction false} AddBehind(a: seq<Line>, b: seq<Line>, needs: Needs)
    requires forall l :: l in a ==> !StartsMcp(l)
    ensures AddTimeouts(a + b, needs) == a + AddTimeouts(b, needs)
    decreases |a|
  {
    hide StartsMcp, SectionLength;
    if a == [] {
      assert a + b == b;
    } else {
      assert a[0] in a && (a + b)[0] == a[0] && (a + b)[1..] == a[1..] + b;
      AddBehind(a[1..], b, needs);
    }
  }

  // ----- the values the file gives -----

  /** Some line gives a value. */
  predicate Gives(es: seq<Entry>) { exists e :: e in es && ValueOf(e.line).Some? }

  /** Every line gives a value. */
  predicate AllGive(es: seq<Entry>) { forall e :: e in es ==> ValueOf(e.line).Some? }

  function LastGiven(es: seq<Entry>): Option<string> {
    if es == [] then None else ValueOf(es[|es| - 1].line)
  }

  /** The value of a line is that of its visible part, if that has one. */
  lemma TrimmedValue(l: Line)
    requires ValueOf(Trim(l)).Some?
    ensures ValueOf(l) == ValueOf(Trim(l))
  {
    hide TrimStart, TrimEnd, KeyLength, IsSpace, Blank;
    TrimCommutes(l);
    TrimStartTwice(TrimEnd(l));
    TrimStartTwice(l);
    var t := TrimStart(l);
    TrimEndCuts(t);
    assert Trim(l) == t[..|TrimEnd(t)|];
    SameValue(t, |TrimEnd(t)|);
  }

  lemma SameValue(t: string, k: nat)
    requires k <= |t| && Blank(t[k..]) && (k > 0 ==> !IsSpace(t[k - 1]))
    requires TrimStart(t) == t && TrimStart(t[..k]) == t[..k] && ValueOf(t[..k]).Some?
    ensures ValueOf(t) == ValueOf(t[..k])
  {
    hide TrimStart, TrimEnd, KeyLength, IsSpace, Blank;
    var r := t[..k];
    var n := KeyLength(r);
    var rest := TrimStart(r[n..]);
    KeyLengthPrefix(t, k);
    assert t[n..] == r[n..] + t[k..];
    TrimStartBefore(r[n..], t[k..]);
    var longer := rest + t[k..];
    assert longer[1..] == rest[1..] + t[k..];
    TrimStartCuts(r[n..]);
    assert rest[|rest| - 1] == r[k - 1];
    TrimBefore(rest[1..], t[k..]);
  }

  lemma {:induction false} TrimStartBefore(a: string, b: string)
    requires TrimStart(a) != ""
    ensures TrimStart(a + b) == TrimStart(a) + b
  {
    assert a != "" && (a + b)[0] == a[0];
    if IsSpace(a[0]) {
      assert (a + b)[1..] == a[1..] + b;
      TrimStartBefore(a[1..], b);
    }
  }

  lemma TrimBefore(a: string, b: string)
    requires a != "" && !IsSpace(a[|a| - 1]) && Blank(b)
    ensures Trim(a + b) == Trim(a) != ""
  {
    hide TrimStart, TrimEnd, IsSpace;
    assert (a + b)[|a|..] == b && (a + b)[..|a|] == a && a[..|a|] == a && a[|a|..] == [];
    TrimEndOf(a + b, |a|);
    TrimEndOf(a, |a|);
    TrimStartCuts(a);
  }

  /** What parseRootKeyValues reads, told from the root lines of the key. */
  lemma {:induction false} RootValueIs(lines: seq<Line>, key: string)
    ensures var es := Picked(RootPick(key), "", lines);
            && (es == [] ==> RootValue(lines, key).None?)
            && (Gives(es) ==> RootValue(lines, key).Some?)
            && (AllGive(es) ==> RootValue(lines, key) == LastGiven(es))
    decreases |lines|
  {
    hide KindOf, Trim, Picked, ValueOf;
    if lines == [] {
      NoPicks(RootPick(key), "");
    } else {
      var l, rest := lines[0], lines[1..];
      assert lines == [l] + rest;
      PickedCons(RootPick(key), "", l, rest);
      if Opens(l) {
        OpensText(l);
        RootOver(key, Trim(l), rest);
      } else {
        var later := Picked(RootPick(key), "", rest);
        RootValueIs(rest, key);
        KindIgnoresTrim(l);
        if ValueOf(Trim(l)).Some? { TrimmedValue(l); }
        var own := if Sets(l, key) then [Entry("", Trim(l))] else [];
        assert Picked(RootPick(key), "", lines) == own + later;
        GivenParts(own, later);
      }
    }
  }

  lemma GivenParts(a: seq<Entry>, b: seq<Entry>)
    ensures Gives(a + b) <==> Gives(a) || Gives(b)
    ensures AllGive(a + b) <==> AllGive(a) && AllGive(b)
    ensures LastGiven(a + b) == if b == [] then LastGiven(a) else LastGiven(b)
    ensures |a| == 1 ==> (Gives(a) <==> ValueOf(a[0].line).Some?) && (AllGive(a) <==> ValueOf(a[0].line).Some?) && LastGiven(a) == ValueOf(a[0].line)
  {
    hide ValueOf;
    if b == [] { assert a + b == a; }
    assert forall e :: e in a + b <==> e in a || e in b;
  }

  // ----- the model -----

  function ModelEntry(model: string): Entry { Entry("", "model = \"" + model + "\"") }

  /** The root `model` lines of the file outside the blocks, and of the result. */
  function Given(key: string, config: seq<Line>): seq<Entry> { Picked(RootPick(key), "", UserLines(config, Nowhere)) }
  function Left(s: Setup, key: string, config: seq<Line>): seq<Entry> { Picked(RootPick(key), "", Merge(s, config)) }

  lemma ExistingRoot(s: Setup, config: seq<Line>, key: string)
    requires SetupOk(s) && BlocksOk(s) && Readable(config) && key in ModelKeys
    ensures Overrides(s.top) && key == ModelKey ==> Picked(RootPick(key), "", Existing(s, Unmarked(config))) == []
    ensures !(Overrides(s.top) && key == ModelKey) ==> Picked(RootPick(key), "", Existing(s, Unmarked(config))) == Given(key, config)
  {
    hide KindOf, Picked, RootPick, HeaderLine, Keys, Upsert, UserLines, Unmarked, Cleared, Merge, Sheltered, SkipsTitle, SkipsKeys, BlocksOk, TopOk, ManagedOk, SharedOk, Sensible, NotifyInLines, RegistryLines, TopLines, Existing, Overrides, RootFree, FixedIn, TuiDone, Sectioned, NotifyOk;
    var lines := Unmarked(config);
    if Overrides(s.top) && key == ModelKey {
      ExistingSettled(s, config);
      RootFreeNone(Existing(s, lines), {ModelKey}, key);
    } else {
      RootPickIs(s, key);
      ShelteredPasses(s, RootPick(key));
      SectionedSkips(RootPick(key), Cleared(s, lines));
      MergeSheltered(s, config, RootPick(key));
    }
  }

  /** The lines of one of the three keys: what getOmcpTopLevelLines adds, then what the file has. */
  lemma LeftIs(s: Setup, config: seq<Line>, key: string)
    requires SetupOk(s) && BlocksOk(s) && Readable(config) && key in ModelKeys
    ensures var existing := Existing(s, Unmarked(config));
            Left(s, key, config)
            == (if key == ModelKey && ModelPart(s.top, existing) != [] then [Entry("", ModelLine(SelectedModel(s.top, existing)))]
                else if key == ContextKey && WindowPart(s.top, existing) != [] then [Entry("", ContextLine)]
                else if key == CompactKey && WindowPart(s.top, existing) != [] then [Entry("", CompactLine)]
                else [])
               + (if Overrides(s.top) && key == ModelKey then [] else Given(key, config))
  {
    hide KindOf, Picked, RootPick, Merge, BlocksOk, Readable, Unmarked, Existing, SettingLine, ModelLine, TopOk, ManagedOk, SharedOk, Sensible, NotifyOk, TopLines, SelectedModel, ModelPart, WindowPart, FixedTop, ContextLine, CompactLine, Overrides, UserLines;
    var o, existing := s.top, Existing(s, Unmarked(config));
    MergeRoot(s, config, key);
    ExistingRoot(s, config, key);
    TopEntriesOf(o, existing, key);
    hide NotifyKey, EffortKey, InstructionsKey, ModelKey, ContextKey, CompactKey;
  }

  lemma TopEntriesOf(o: TopOptions, existing: seq<Line>, key: string)
    requires TopOk(o) && key in ModelKeys
    ensures Picked(RootPick(key), "", TopLines(o, existing))
         == if key == ModelKey && ModelPart(o, existing) != [] then [Entry("", ModelLine(SelectedModel(o, existing)))]
            else if key == ContextKey && WindowPart(o, existing) != [] then [Entry("", ContextLine)]
            else if key == CompactKey && WindowPart(o, existing) != [] then [Entry("", CompactLine)]
            else []
  {
    hide KindOf, Picked, RootPick, SettingLine, ModelLine, TopOk, TopLines, SelectedModel, ModelPart, WindowPart, FixedTop, ContextLine, CompactLine;
    KeysApart();
    KeysDiffer();
    TopEntriesAre(o, existing, key);
    FixedEntries(o, key);
    ModelEntries(o, existing, key);
    WindowEntries(o, existing, key);
    hide NotifyKey, EffortKey, InstructionsKey, ModelKey, ContextKey, CompactKey;
    assert Picked(RootPick(key), "", FixedTop(o)) == [];
    var m, w := Picked(RootPick(key), "", ModelPart(o, existing)), Picked(RootPick(key), "", WindowPart(o, existing));
    assert [] + (m + w) == m + w && m + [] == m && [] + w == w;
  }

  lemma ModelTexts()
    ensures ModelKey == "model" && ContextKey == "model_context_window" && CompactKey == "model_auto_compact_token_limit"
    ensures forall m :: ModelLine(m) == "model = \"" + m + "\""
    ensures ContextLine == "model_context_window" + " = 1000000" && CompactLine == "model_auto_compact_token_limit" + " = 900000"
  {
    forall m ensures ModelLine(m) == "model = \"" + m + "\"" {
      assert ModelLine(m) == ("model" + " = " + "\"") + (m + "\"");
      assert "model" + " = " + "\"" == "model = \"";
    }
  }

  /** A model option gives the one model of the result; without one, the file's model lines stay, and the
      default is written exactly where the file gives no model. */
  lemma ModelIsWritten(s: Setup, config: seq<Line>)
    requires SetupOk(s) && BlocksOk(s) && Readable(config)
    ensures var o, given, left := s.top.modelOverride, Given("model", config), Left(s, "model", config);
            && (o.Some? && o.value != "" ==> left == [ModelEntry(o.value)])
            && (o.None? && given == [] ==> left == [ModelEntry(s.top.defaultModel)])
            && (o.None? || o.value == "" ==>
                  && (Gives(given) ==> left == given)
                  && (left == given || left == [ModelEntry(if o.Some? then "" else s.top.defaultModel)] + given)
                  && (given == [] ==> left != given))
  {
    hide KindOf, Picked, RootPick, Merge, BlocksOk, SetupOk, Readable, Unmarked, Existing, ModelLine, ModelKey, ContextKey, CompactKey, ContextLine, CompactLine, RootValue, ValueOf, UserLines, Left, Given;
    ModelTexts();
    LeftIs(s, config, ModelKey);
    var existing := Existing(s, Unmarked(config));
    if !Overrides(s.top) {
      ExistingRoot(s, config, ModelKey);
      RootValueIs(existing, ModelKey);
      Chosen(s.top, existing);
    }
  }

  lemma Chosen(o: TopOptions, existing: seq<Line>)
    ensures RootValue(existing, ModelKey).None? ==>
              SelectedModel(o, existing) == if o.modelOverride.Some? then o.modelOverride.value else o.defaultModel
    ensures Overrides(o) ==> SelectedModel(o, existing) == o.modelOverride.value
  {
    hide RootValue;
  }

  // ----- the window -----

  /** The model setup goes by is the default: the option's, else the file's last one if it stands in
      double quotes, else the default itself. */
  predicate GoesByDefault(o: TopOptions, given: seq<Entry>) {
    if o.modelOverride.Some? then o.modelOverride.value == o.defaultModel
    else
      given == [] || LastGiven(given).None?
      || (var v := LastGiven(given).value;
          !(|v| >= 2 && v[0] == '"' && v[|v| - 1] == '"') || v == "\"" + o.defaultModel + "\"")
  }

  lemma DefaultChosen(o: TopOptions, existing: seq<Line>, given: seq<Entry>)
    requires o.modelOverride.Some? || RootValue(existing, ModelKey) == LastGiven(given)
    ensures SelectedModel(o, existing) == o.defaultModel <==> GoesByDefault(o, given)
  {
    hide RootValue, ValueOf;
    if o.modelOverride.None? && LastGiven(given).Some? {
      var v := LastGiven(given).value;
      if |v| >= 2 && v[0] == '"' && v[|v| - 1] == '"' {
        assert v == "\"" + v[1..|v| - 1] + "\"";
        assert ("\"" + o.defaultModel + "\"")[1..|o.defaultModel| + 1] == o.defaultModel;
      }
    }
  }

  /** Both window lines are added in front of the file's own, or none is: none where the file gives one of
      the two values, or where setup goes by another model than the default. */
  lemma WindowIsWritten(s: Setup, config: seq<Line>) returns (writes: bool)
    requires SetupOk(s) && BlocksOk(s) && Readable(config)
    ensures Left(s, "model_context_window", config)
         == (if writes then [Entry("", "model_context_window" + " = 1000000")] else []) + Given("model_context_window", config)
    ensures Left(s, "model_auto_compact_token_limit", config)
         == (if writes then [Entry("", "model_auto_compact_token_limit" + " = 900000")] else [])
            + Given("model_auto_compact_token_limit", config)
    ensures Gives(Given("model_context_window", config)) || Gives(Given("model_auto_compact_token_limit", config)) ==> !writes
    ensures s.top.modelOverride.Some? || AllGive(Given("model", config)) ==>
              && (!GoesByDefault(s.top, Given("model", config)) ==> !writes)
              && (Given("model_context_window", config) == [] && Given("model_auto_compact_token_limit", config) == [] ==>
                    (writes <==> GoesByDefault(s.top, Given("model", config))))
  {
    hide KindOf, Picked, RootPick, Merge, BlocksOk, SetupOk, Readable, Unmarked, Existing, ModelLine, ModelKey, ContextKey, CompactKey, ContextLine, CompactLine, RootValue, ValueOf, UserLines, Left, Given, SelectedModel, GoesByDefault, ModelPart;
    ModelTexts();
    LeftIs(s, config, ContextKey);
    LeftIs(s, config, CompactKey);
    KeysDiffer();
    var o, existing := s.top, Existing(s, Unmarked(config));
    writes := WindowPart(o, existing) != [];
    ExistingRoot(s, config, ContextKey);
    ExistingRoot(s, config, CompactKey);
    RootValueIs(existing, ContextKey);
    RootValueIs(existing, CompactKey);
    if o.modelOverride.Some? || AllGive(Given("model", config)) {
      if o.modelOverride.None? {
        ExistingRoot(s, config, ModelKey);
        RootValueIs(existing, ModelKey);
      }
      DefaultChosen(o, existing, Given("model", config));
    }
  }
}
