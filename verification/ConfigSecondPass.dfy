/** The second setup, step by step: on the output of the first one, none of them changes a visible
    line. */
module ConfigSecondPass {
  import opened Text
  import opened ConfigLines
  import opened ConfigSections
  import opened ConfigTui
  import opened ConfigMarkers
  import opened ConfigTimeouts
  import opened ConfigRoot
  import opened ConfigStable
  import opened ConfigMerge
  import opened ConfigSettled
  import opened ConfigRepaired
  import opened ConfigFooter
  import opened ConfigIdempotence

  // ----- the top lines -----

  lemma TopBare()
    ensures BareKey(NotifyKey) && BareKey(EffortKey) && BareKey(InstructionsKey)
  {
    hide IsSpace;
    BareLetters();
  }

  lemma WindowBare()
    ensures BareKey(ModelKey) && BareKey(ContextKey) && BareKey(CompactKey)
  {
    hide IsSpace;
    BareLetters();
  }

  lemma BareLetters()
    ensures forall c :: 'a' <= c <= 'z' || c == '_' ==> !IsSpace(c)
  {
  }

  lemma ValueEnds()
    ensures !IsSpace('"') && !IsSpace('0') && !IsSpace('1') && !IsSpace('9')
  {
  }

  lemma TopKinds(o: TopOptions)
    requires TopOk(o)
    ensures Sets(SettingLine(NotifyKey, o.notify), NotifyKey) && Sets(SettingLine(EffortKey, o.effort), EffortKey)
            && Sets(SettingLine(InstructionsKey, o.instructions), InstructionsKey)
  {
    hide KindOf, SettingLine, BareKey, IsSpace, Plain, Contains;
    TopBare();
    SettingLineKind(NotifyKey, o.notify);
    SettingLineKind(EffortKey, o.effort);
    SettingLineKind(InstructionsKey, o.instructions);
  }

  lemma ModelKind(model: string)
    ensures Sets(ModelLine(model), ModelKey) && ValueOf(ModelLine(model)) == Some("\"" + model + "\"")
  {
    hide KindOf, SettingLine, BareKey, IsSpace, ValueOf;
    WindowBare();
    ValueEnds();
    SettingLineKind(ModelKey, "\"" + model + "\"");
    SettingValue(ModelKey, "\"" + model + "\"");
  }

  lemma WindowKinds()
    ensures Sets(ContextLine, ContextKey) && ValueOf(ContextLine).Some?
    ensures Sets(CompactLine, CompactKey) && ValueOf(CompactLine).Some?
  {
    hide KindOf, SettingLine, BareKey, IsSpace, ValueOf;
    WindowBare();
    ValueEnds();
    SettingLineKind(ContextKey, "1000000");
    SettingValue(ContextKey, "1000000");
    SettingLineKind(CompactKey, "900000");
    SettingValue(CompactKey, "900000");
  }

  lemma KeysDiffer()
    ensures ModelKey != ContextKey && ModelKey != CompactKey && ContextKey != CompactKey
    ensures ModelKey !in TopKeys && ContextKey !in TopKeys && CompactKey !in TopKeys
  {
    assert |ModelKey| == 5 && |ContextKey| == 20 && |CompactKey| == 30;
    assert |NotifyKey| == 6 && |EffortKey| == 22 && |InstructionsKey| == 22;
  }

  /** The model and window lines that stay in the file for the second setup, and a blank line. */
  function Left(o: TopOptions, existing: seq<Line>): seq<Line> {
    (if Overrides(o) then [] else ModelPart(o, existing)) + WindowPart(o, existing) + [""]
  }

  predicate RootLine(l: Line) {
    KindOf(l).Empty? || (KindOf(l).Setting? && KindOf(l).key in {ModelKey, ContextKey, CompactKey})
  }

  lemma PartsAreRootLines(o: TopOptions, existing: seq<Line>)
    ensures forall l :: l in ModelPart(o, existing) + WindowPart(o, existing) + [""] ==> RootLine(l)
  {
    hide KindOf, SettingLine, ModelLine, SelectedModel, RootValue, Overrides, ValueOf, ContextLine, CompactLine;
    ModelKind(SelectedModel(o, existing));
    WindowKinds();
    EmptyKind();
  }

  lemma {:induction false} RootLinesFree(lines: seq<Line>, keys: set<string>)
    requires forall l :: l in lines ==> RootLine(l) && !SetsOneOf(l, keys)
    ensures RootFree(lines, keys) && !HasOpener(lines)
  {
    hide KindOf;
    if lines != [] {
      assert lines == [lines[0]] + lines[1..];
      assert lines[0] in lines;
      RootLinesFree(lines[1..], keys);
    }
  }

  // ----- clearing gives back the user's part -----

  lemma FixedTopGoes(o: TopOptions)
    requires TopOk(o)
    ensures DropRootKeys(FixedTop(o)[1..], TopKeys) == [] && !HasOpener(FixedTop(o)[1..])
  {
    hide KindOf, SettingLine, Plain, Contains, ValueOk, ModelOk;
    TopKinds(o);
    var n, e, i := SettingLine(NotifyKey, o.notify), SettingLine(EffortKey, o.effort), SettingLine(InstructionsKey, o.instructions);
    assert FixedTop(o)[1..] == [n, e, i];
    AllKeysGo([n, e, i]);
  }

  lemma {:induction false} AllKeysGo(lines: seq<Line>)
    requires forall k :: 0 <= k < |lines| ==> SetsOneOf(lines[k], TopKeys)
    ensures DropRootKeys(lines, TopKeys) == [] && !HasOpener(lines)
  {
    hide KindOf;
    if lines != [] {
      AllKeysGo(lines[1..]);
      DropRootKeysStep(lines, TopKeys);
    }
  }

  /** Dropping the managed root keys from the old top lines leaves model and window lines. */
  lemma RootKeysGo(s: Setup, rest: seq<Line>, user: seq<Line>)
    requires TopOk(s.top) && All(Acceptable(s.legacyAgent), user) && RootFree(user, TopKeys)
    requires forall l :: l in rest ==> RootLine(l)
    ensures StripRootKeys(FixedTop(s.top) + rest + user, TopKeys, true) == rest + user
  {
    hide KindOf, SettingLine, Plain, Contains, ValueOk, ModelOk, DropRootKeys, DropTopComment, RootFree, HasOpener, IsOrphan, TopOk, IsTopComment;
    var o := s.top;
    var three := FixedTop(o)[1..];
    var whole := FixedTop(o) + rest + user;
    assert whole == [TopComment] + (three + (rest + user));
    NoTopComments(s, rest, user);
    DropFirst(three + (rest + user));
    DropTopCommentNone(three + (rest + user));
    FixedTopGoes(o);
    DropRootKeysConcat(three, rest + user, TopKeys);
    RestFree(rest);
    DropRootKeysConcat(rest, user, TopKeys);
    DropRootKeysFrees(rest, TopKeys);
    DropRootKeysFrees(user, TopKeys);
    assert [] + (rest + user) == rest + user;
  }

  lemma RestFree(rest: seq<Line>)
    requires forall l :: l in rest ==> RootLine(l)
    ensures RootFree(rest, TopKeys) && !HasOpener(rest)
  {
    hide KindOf;
    KeysDiffer();
    RootLinesFree(rest, TopKeys);
  }

  lemma DropFirst(lines: seq<Line>)
    ensures DropTopComment([TopComment] + lines) == DropTopComment(lines)
  {
    TopCommentTrimmed();
    assert ([TopComment] + lines)[1..] == lines;
    assert [] + DropTopComment(lines) == DropTopComment(lines);
  }

  lemma TopCommentTrimmed()
    ensures IsTopComment(TopComment)
  {
    var tail := "(must be before any [table])";
    assert tail[|tail| - 1] == ')';
    assert TopComment[|TopComment| - 1] == tail[|tail| - 1];
    assert !IsSpace('#') && !IsSpace(')');
    TrimVisible(TopComment);
  }

  lemma NoTopComments(s: Setup, rest: seq<Line>, user: seq<Line>)
    requires TopOk(s.top) && All(Acceptable(s.legacyAgent), user)
    requires forall l :: l in rest ==> RootLine(l)
    ensures forall l :: l in FixedTop(s.top)[1..] + (rest + user) ==> !IsTopComment(l)
  {
    hide KindOf, SettingLine, Plain, Contains, ValueOk, ModelOk, IsOrphan, IsTopComment, Trim;
    TopKinds(s.top);
    forall l ensures !KindOf(l).Remark? ==> !IsTopComment(l) {
      if !KindOf(l).Remark? { NotTopComment(l); }
    }
    hide TopComment, TopOk;
    assert FixedTop(s.top)[1..] == [SettingLine(NotifyKey, s.top.notify), SettingLine(EffortKey, s.top.effort), SettingLine(InstructionsKey, s.top.instructions)];
  }

  lemma DropModel(o: TopOptions, existing: seq<Line>, user: seq<Line>)
    requires Overrides(o) && RootFree(user, {ModelKey})
    ensures StripRootKeys(ModelPart(o, existing) + WindowPart(o, existing) + [""] + user, {ModelKey}, false)
         == Left(o, existing) + user
  {
    hide KindOf, SettingLine, ModelLine, SelectedModel, RootValue, ValueOf, DropRootKeys, RootFree, HasOpener, ContextLine, CompactLine;
    var m, w := ModelPart(o, existing), WindowPart(o, existing) + [""];
    assert m + WindowPart(o, existing) + [""] + user == m + (w + user);
    ModelGoes(SelectedModel(o, existing));
    DropRootKeysConcat(m, w + user, {ModelKey});
    WindowKinds();
    EmptyKind();
    KeysDiffer();
    RootLinesFree(w, {ModelKey});
    DropRootKeysConcat(w, user, {ModelKey});
    DropRootKeysFrees(w, {ModelKey});
    DropRootKeysFrees(user, {ModelKey});
    assert [] + (w + user) == w + user;
    assert Left(o, existing) == w;
  }

  lemma ModelGoes(model: string)
    ensures DropRootKeys([ModelLine(model)], {ModelKey}) == [] && !HasOpener([ModelLine(model)])
  {
    hide KindOf, SettingLine, ValueOf;
    ModelKind(model);
    assert [ModelLine(model)][1..] == [];
  }

  /** Clearing the output of a setup, blocks taken off, leaves the user's part behind the model and
      window lines. */
  lemma ClearedAgain(s: Setup, existing: seq<Line>, user: seq<Line>)
    requires SetupOk(s) && Settled(s, user)
    ensures Cleared(s, TopLines(s.top, existing) + [""] + user) == Left(s.top, existing) + user
  {
    hide KindOf, SettingLine, ModelLine, SelectedModel, RootValue, RootFree, Contains, ContextLine, CompactLine, StripRootKeys, IsTopComment, IsOrphan, FixedTop, ModelPart, WindowPart, Overrides, FixedIn, TuiDone, Sensible, SharedOk, ManagedOk, StripOrphans, TopOk, RootLine;
    var o := s.top;
    var rest := ModelPart(o, existing) + WindowPart(o, existing) + [""];
    assert TopLines(o, existing) + [""] + user == FixedTop(o) + rest + user;
    PartsAreRootLines(o, existing);
    RootKeysGo(s, rest, user);
    QuietAgain(s, existing, user);
    var left := Left(o, existing);
    if Overrides(o) {
      DropModel(o, existing, user);
    } else {
      assert left == rest;
    }
    NoOrphansAgain(s, existing, user);
    StripOrphansNone([], left + user, s.legacyAgent);
    assert [] + (left + user) == left + user;
  }

  lemma QuietAgain(s: Setup, existing: seq<Line>, user: seq<Line>)
    requires TopOk(s.top) && NotifyOk(s.dropNotify) && All(Acceptable(s.legacyAgent), user)
    ensures var lines := ModelPart(s.top, existing) + WindowPart(s.top, existing) + [""] + user;
            s.dropNotify(lines) == lines
  {
    hide KindOf, SettingLine, ModelLine, RootValue, Contains, IsTopComment, IsOrphan, Overrides;
    WindowQuiet();
    SelectedOk(s.top, existing);
    NoPathNoNotify(s, ModelPart(s.top, existing) + WindowPart(s.top, existing) + [""] + user);
  }

  /** Without the script's path there is nothing to take out. */
  lemma NoPathNoNotify(s: Setup, lines: seq<Line>)
    requires NotifyOk(s.dropNotify) && forall l :: l in lines ==> !Contains(l, HookText)
    ensures s.dropNotify(lines) == lines
  {
    hide KindOf, Contains, IsNotifyLine, DropNotify;
    forall l | l in lines ensures !IsNotifyLine(l) {
      if IsNotifyLine(l) { NotifyHoldsText(l); }
    }
    DropNotifyNone([], lines);
    assert [] + lines == lines;
  }

  lemma WindowQuiet()
    ensures !Contains(ContextLine, HookText) && !Contains(CompactLine, HookText) && !Contains("", HookText)
    ensures Plain(ContextLine) && Plain(CompactLine) && Plain("")
  {
    hide Contains;
    MarkerChars();
    WindowChars();
    LacksChar(ContextLine, HookText, '.');
    LacksChar(CompactLine, HookText, '.');
    LacksChar("", HookText, '.');
    PlainByChars(ContextLine);
    PlainByChars(CompactLine);
    PlainByChars("");
  }

  lemma WindowChars()
    ensures '.' !in ContextLine && '.' !in CompactLine && NoParts(ContextLine) && NoParts(CompactLine)
  {
    hide SettingLine;
    ContextChars();
    CompactChars();
    SettingChars(ContextKey, "1000000");
    SettingChars(CompactKey, "900000");
    SettingParts(ContextKey, "1000000");
    SettingParts(CompactKey, "900000");
  }

  lemma ContextChars()
    ensures NoMarks(ContextKey) && NoParts(ContextKey) && NoMarks("1000000") && NoParts("1000000")
  {
  }

  lemma CompactChars()
    ensures NoMarks(CompactKey) && NoParts(CompactKey) && NoMarks("900000") && NoParts("900000")
  {
  }

  /** A model line is only written for the override or the default. */
  lemma SelectedOk(o: TopOptions, existing: seq<Line>)
    requires TopOk(o)
    ensures forall l :: l in ModelPart(o, existing) ==> Plain(l) && !Contains(l, HookText)
  {
    hide Contains, ModelLine, FixedTop;
  }

  lemma NoOrphansAgain(s: Setup, existing: seq<Line>, user: seq<Line>)
    requires All(Acceptable(s.legacyAgent), user)
    ensures forall l :: l in Left(s.top, existing) + user ==> !IsOrphan(l, s.legacyAgent)
  {
    hide KindOf, SettingLine, ModelLine, RootValue, Contains, IsTopComment, ModelPart, WindowPart, Overrides;
    PartsAreRootLines(s.top, existing);
    forall l | RootLine(l) ensures !IsOrphan(l, s.legacyAgent) {
    }
    hide IsOrphan, RootLine;
  }

  // ----- sections and [tui] in front of which root lines stand -----

  lemma RootLinesNotTitled(lines: seq<Line>, title: string)
    requires forall l :: l in lines ==> RootLine(l)
    ensures NoneTitled(lines, title)
  {
    hide KindOf;
  }

  lemma CutSkips(a: seq<Line>, b: seq<Line>, title: string)
    requires NoneTitled(a, title)
    ensures HasTitle(a + b, title) <==> HasTitle(b, title)
    ensures HasTitle(b, title) ==> CutAt(a + b, title) == CutAt(b, title).(before := a + CutAt(b, title).before)
  {
    hide KindOf, HasTitle, CutAt, NoneTitled, NoHeaders, StartsSection;
    NoTitleAt(b, title);
    NoTitleAt(a + b, title);
    NoneTitledConcat(a, b, title);
    if HasTitle(b, title) {
      var c := CutAt(b, title);
      CutAtIs(b, title);
      NoneTitledConcat(a, c.before, title);
      CutAtGlue(c.(before := a + c.before), title);
      GlueBefore(c, a);
    }
  }

  lemma FixedBehind(sec: Section, a: seq<Line>, b: seq<Line>)
    requires FixedIn(sec, b) && forall l :: l in a ==> RootLine(l)
    ensures Upsert(sec, a + b) == a + b
  {
    hide KindOf, HasTitle, CutAt, Fixed, Upsert;
    RootLinesNotTitled(a, Title(sec));
    CutSkips(a, b, Title(sec));
    FixedInIff(sec, a + b);
  }

  lemma TuiDoneBehind(a: seq<Line>, b: seq<Line>)
    requires TuiDone(b) && forall l :: l in a ==> RootLine(l)
    ensures TuiDone(a + b) && (HasTitle(a + b, TuiTitle) <==> HasTitle(b, TuiTitle))
  {
    hide KindOf, HasTitle, CutAt, NoneTitled, Visible, FirstKeys, StatusLine, TuiTitle;
    RootLinesNotTitled(a, TuiTitle);
    CutSkips(a, b, TuiTitle);
  }

  lemma FoldOfDone(lines: seq<Line>)
    requires TuiDone(lines)
    ensures Visible(FoldTui(lines)) == Visible(lines)
  {
    hide KindOf, HasTitle, CutAt, NoneTitled, Visible, FirstKeys, StatusLine, TuiTitle, FoldTui, IsCut, Glue;
    if HasTitle(lines, TuiTitle) {
      var c := CutAt(lines, TuiTitle);
      CutAtIs(lines, TuiTitle);
      HeaderNotBlank(c, TuiTitle);
      VisibleGlue(c);
      VisibleFold(lines);
      LastSection(lines);
      DoneGlue(c);
    } else {
      NoFold(lines);
    }
  }

  lemma LastSection(lines: seq<Line>)
    requires HasTitle(lines, TuiTitle) && NoneTitled(CutAt(lines, TuiTitle).after, TuiTitle)
    ensures TuiBodies(lines) == CutAt(lines, TuiTitle).body
    ensures OutsideTui(CutAt(lines, TuiTitle).after) == CutAt(lines, TuiTitle).after
  {
    hide KindOf, HasTitle, CutAt, NoneTitled, TuiTitle;
    var c := CutAt(lines, TuiTitle);
    NoTitleAt(c.after, TuiTitle);
    assert TuiBodies(c.after) == [];
    assert c.body + [] == c.body;
  }

  lemma DoneGlue(c: Cut)
    requires Visible(c.body) == FirstKeys(c.body, {}) + [StatusLine]
    ensures Glue(VisibleCut(c)) == Visible(c.before) + [c.header] + FirstKeys(c.body, {}) + [StatusLine] + Visible(c.after)
  {
    hide Visible, FirstKeys, StatusLine;
    Assoc(Visible(c.before) + [c.header], FirstKeys(c.body, {}), [StatusLine]);
  }

  /** The steps on the user's part change nothing visible the second time. */
  lemma ExistingAgain(s: Setup, existing: seq<Line>, user: seq<Line>)
    requires SetupOk(s) && Settled(s, user)
    ensures var again := TopLines(s.top, existing) + [""] + user;
            && Visible(Existing(s, again)) == Visible(Left(s.top, existing) + user)
            && (WritesTui(s, again) <==> s.includeTui && !HasTitle(user, TuiTitle))
  {
    hide KindOf, FixedIn, TuiDone, Visible, Left, TopLines, Cleared, HasTitle, Upsert, FoldTui, All, RootFree, Sensible, SharedOk, ManagedOk, TopOk, RootLine, Overrides;
    var left := Left(s.top, existing);
    ClearedAgain(s, existing, user);
    LeftRootLines(s.top, existing);
    FixedBehind(Features, left, user);
    FixedBehind(Env, left, user);
    FixedBehind(Agents, left, user);
    if s.includeTui {
      TuiDoneBehind(left, user);
      FoldOfDone(left + user);
    }
  }

  lemma LeftRootLines(o: TopOptions, existing: seq<Line>)
    ensures forall l :: l in Left(o, existing) ==> RootLine(l)
  {
    hide KindOf, RootLine, ModelPart, WindowPart, Overrides;
    PartsAreRootLines(o, existing);
  }
}
