/** Setup is idempotent up to blank lines. */
module ConfigSetup {
  import opened Text
  import opened ConfigLines
  import opened ConfigSections
  import opened ConfigTui
  import opened ConfigMarkers
  import opened ConfigTimeouts
  import opened ConfigRoot
  import opened ConfigStable
  import opened ConfigMerge
  import opened ConfigSettled
  import opened ConfigRepaired
  import opened ConfigFooter
  import opened ConfigIdempotence
  import opened ConfigSecondPass

  // ----- root values -----

  lemma RootValueOne(l: Line, key: string)
    ensures RootValue([l], key) == if Sets(l, key) then ValueOf(l) else None
  {
    hide ValueOf;
    assert [l][1..] == [];
  }

  lemma {:induction false} RootValueVisible(lines: seq<Line>, key: string)
    ensures RootValue(Visible(lines), key) == RootValue(lines, key)
    decreases |lines|
  {
    hide KindOf, ValueOf;
    if lines != [] {
      var n := |lines| - 1;
      assert lines == lines[..n] + [lines[n]];
      RootValueVisible(lines[..n], key);
      VisibleConcat(lines[..n], [lines[n]]);
      VisibleOne(lines[n]);
      hide Visible, RootValue;
      RootValueConcat(lines[..n], [lines[n]], key);
      RootValueConcat(Visible(lines[..n]), Visible([lines[n]]), key);
      OpenerVisible(lines[..n]);
      RootValueOne(lines[n], key);
      if IsBlank(lines[n]) {
        assert Visible(lines[..n]) + [] == Visible(lines[..n]);
      }
    }
  }

  lemma {:induction false} TrimRootValue(lines: seq<Line>, key: string)
    requires HasOpener(lines)
    ensures RootValue(TrimEndLines(lines), key) == RootValue(lines, key)
    decreases |lines|
  {
    hide KindOf, ValueOf, RootValue, TrimEnd;
    var n := |lines| - 1;
    var front, l := lines[..n], lines[n];
    assert lines == front + [l];
    RootValueConcat(front, [l], key);
    RootValueOne(l, key);
    assert HasOpener(lines) <==> HasOpener(front) || Opens(l);
    if IsBlank(l) {
      TrimRootValue(front, key);
    } else {
      KindIgnoresTrim(l);
      RootValueConcat(front, [TrimEnd(l)], key);
      RootValueOne(TrimEnd(l), key);
    }
  }

  lemma FixedHasOpener(sec: Section, lines: seq<Line>)
    requires FixedIn(sec, lines)
    ensures HasOpener(lines)
  {
    hide KindOf;
    NoTitleAt(lines, Title(sec));
  }

  lemma PartsValue(o: TopOptions, existing: seq<Line>, key: string)
    ensures RootValue(Left(o, existing), key) ==
            if key == ModelKey && !Overrides(o) && RootValue(existing, ModelKey).None?
            then Some("\"" + SelectedModel(o, existing) + "\"")
            else if key == ContextKey && WindowPart(o, existing) != [] then ValueOf(ContextLine)
            else if key == CompactKey && WindowPart(o, existing) != [] then ValueOf(CompactLine)
            else None
    ensures !HasOpener(Left(o, existing))
  {
    hide KindOf, ValueOf, SettingLine, ModelLine, SelectedModel, Overrides, ContextLine, CompactLine;
    var m := if Overrides(o) then [] else ModelPart(o, existing);
    var w := WindowPart(o, existing);
    var model := SelectedModel(o, existing);
    ModelKind(model);
    WindowKinds();
    EmptyKind();
    KeysDiffer();
    LeftRootLines(o, existing);
    RootValueOne(ModelLine(model), key);
    RootValueOne("", key);
    WindowValue(key);
    NoOpenersLeft(o, existing);
    assert Left(o, existing) == m + (w + [""]);
    hide RootValue;
    NoValue(key);
    RootValueConcat(m, w + [""], key);
    RootValueConcat(w, [""], key);
  }

  lemma NoValue(key: string)
    ensures RootValue([], key) == None
  {
  }

  lemma WindowValue(key: string)
    ensures RootValue([ContextLine, CompactLine], key) ==
            if key == ContextKey then ValueOf(ContextLine) else if key == CompactKey then ValueOf(CompactLine) else None
  {
    hide KindOf, ValueOf, ContextLine, CompactLine;
    WindowKinds();
    KeysDiffer();
    RootValueOne(CompactLine, key);
    assert [ContextLine, CompactLine][1..] == [CompactLine];
  }

  lemma NoOpenersLeft(o: TopOptions, existing: seq<Line>)
    ensures !HasOpener(Left(o, existing))
    ensures !HasOpener(if Overrides(o) then [] else ModelPart(o, existing)) && !HasOpener(WindowPart(o, existing))
  {
    hide KindOf, SettingLine, ModelLine, SelectedModel, Overrides, ContextLine, CompactLine, RootValue;
    ModelKind(SelectedModel(o, existing));
    WindowKinds();
    EmptyKind();
  }

  /** The second setup writes the top lines of the first, less those still in the file. */
  lemma TopAgain(o: TopOptions, existing: seq<Line>, again: seq<Line>)
    requires forall key :: RootValue(again, key)
                        == if RootValue(existing, key).None? then RootValue(Left(o, existing), key) else RootValue(existing, key)
    ensures TopLines(o, again) + Left(o, existing) == TopLines(o, existing) + [""]
  {
    hide KindOf, ValueOf, SettingLine, ModelLine, ContextLine, CompactLine, RootValue, Left, FixedTop;
    PartsValue(o, existing, ModelKey);
    PartsValue(o, existing, ContextKey);
    PartsValue(o, existing, CompactKey);
    WindowKinds();
    KeysDiffer();
    UnwrapQuoted(SelectedModel(o, existing));
    SelectedAgain(o, existing, again);
    PartsAgain(o, existing, again);
    TopAssoc(o, existing, again);
  }

  lemma UnwrapQuoted(model: string)
    ensures Unwrap(Some("\"" + model + "\"")) == Some(model)
  {
    var v := "\"" + model + "\"";
    assert v[1..|v| - 1] == model;
  }

  lemma SelectedAgain(o: TopOptions, existing: seq<Line>, again: seq<Line>)
    requires RootValue(again, ModelKey) == if RootValue(existing, ModelKey).Some? then RootValue(existing, ModelKey)
                                           else if Overrides(o) then None else Some("\"" + SelectedModel(o, existing) + "\"")
    ensures SelectedModel(o, again) == SelectedModel(o, existing)
  {
    hide RootValue;
    UnwrapQuoted(SelectedModel(o, existing));
  }

  lemma PartsAgain(o: TopOptions, existing: seq<Line>, again: seq<Line>)
    requires SelectedModel(o, again) == SelectedModel(o, existing)
    requires RootValue(again, ModelKey) == if RootValue(existing, ModelKey).Some? then RootValue(existing, ModelKey)
                                           else if Overrides(o) then None else Some("\"" + SelectedModel(o, existing) + "\"")
    requires WindowPart(o, existing) != [] ==> RootValue(again, ContextKey).Some? && RootValue(again, CompactKey).Some?
    requires WindowPart(o, existing) == [] ==> RootValue(again, ContextKey) == RootValue(existing, ContextKey)
                                               && RootValue(again, CompactKey) == RootValue(existing, CompactKey)
    ensures ModelPart(o, again) == if Overrides(o) then ModelPart(o, existing) else []
    ensures WindowPart(o, again) == []
  {
    hide RootValue, SelectedModel, ModelLine, ContextLine, CompactLine;
  }

  lemma TopAssoc(o: TopOptions, existing: seq<Line>, again: seq<Line>)
    requires ModelPart(o, again) == if Overrides(o) then ModelPart(o, existing) else []
    requires WindowPart(o, again) == []
    ensures TopLines(o, again) + Left(o, existing) == TopLines(o, existing) + [""]
  {
    hide ModelPart, WindowPart, FixedTop, Overrides;
    var f, m, w := FixedTop(o), ModelPart(o, existing), WindowPart(o, existing);
    if Overrides(o) {
      assert TopLines(o, again) == f + m;
      assert Left(o, existing) == w + [""];
    } else {
      assert TopLines(o, again) == f;
      assert Left(o, existing) == m + w + [""];
    }
  }

  // ----- the footer -----

  lemma HasServerVisible(lines: seq<Line>, table: string)
    requires table != "" && Trim(table) == table
    ensures HasServer(Visible(lines), table) <==> HasServer(lines, table)
  {
    hide KindOf, Visible, Trim;
    forall l ensures l in Visible(lines) <==> l in lines && !IsBlank(l) { VisibleIn(lines, l); }
    forall l | IsBlank(l) ensures Trim(l) == "" { BlankTrimmed(l); }
  }

  lemma BlankTrimmed(l: Line)
    requires IsBlank(l)
    ensures Trim(l) == ""
  {
  }

  lemma HasServerTrim(lines: seq<Line>, table: string)
    ensures HasServer(TrimLast(lines), table) <==> HasServer(lines, table)
  {
    hide KindOf, Trim, TrimEnd;
    if lines != [] {
      var n := |lines| - 1;
      TrimsSame(lines[n]);
      assert lines == lines[..n] + [lines[n]];
      assert HasServer(lines, table) <==> HasServer(lines[..n], table) || Trim(lines[n]) == table;
      assert TrimEnd(lines[n]) in TrimLast(lines);
      assert HasServer(TrimLast(lines), table) <==> HasServer(lines[..n], table) || Trim(TrimEnd(lines[n])) == table;
    }
  }

  lemma ServerText(l: Line, table: string)
    requires table != "" && table[0] == '[' && Trim(l) == table
    ensures Opens(l)
  {
  }

  lemma HasServerInside(lines: seq<Line>, table: string, needs: Needs)
    requires table != "" && table[0] == '['
    ensures HasServer(AddInside(lines, needs), table) ==> HasServer(lines, table)
  {
    hide KindOf, Trim, AddInside;
    if HasServer(AddInside(lines, needs), table) {
      var l :| l in AddInside(lines, needs) && Trim(l) == table;
      InsideLines(lines, needs, l);
      if l !in lines {
        TimeoutStartsNothing();
        ServerText(l, table);
      }
    }
  }

  lemma HasServerLeft(left: seq<Line>, user: seq<Line>, table: string)
    requires table != "" && table[0] == '[' && forall l :: l in left ==> RootLine(l)
    ensures HasServer(left + user, table) <==> HasServer(user, table)
  {
    hide KindOf, Trim;
    forall l | l in left ensures Trim(l) != table {
      if Trim(l) == table { ServerText(l, table); }
    }
  }

  lemma {:induction false} SameServers(servers: seq<Shared>, a: seq<Line>, b: seq<Line>)
    requires forall x :: x in servers ==> (HasServer(a, x.table) <==> HasServer(b, x.table))
    ensures NewServers(servers, a) == NewServers(servers, b)
  {
    hide HasServer;
    if servers != [] {
      assert servers[0] in servers;
      SameServers(servers[1..], a, b);
    }
  }

  /** The second setup finds the same servers in the file. */
  lemma FooterAgain(s: Setup, existing: seq<Line>, left: seq<Line>, again: seq<Line>, withTui: bool)
    requires SharedOk(s) && forall l :: l in left ==> RootLine(l)
    requires Visible(again) == Visible(left + AddInside(TrimEndLines(existing), s.needs))
    ensures Footer(s, again, withTui) == Footer(s, existing, withTui)
  {
    hide KindOf, Visible, Trim, AddInside, TrimEndLines, PlainLines, HasHeader, NoOpeners, HasServer, RootLine, Plain, Opens;
    forall x | x in s.shared ensures HasServer(again, x.table) <==> HasServer(existing, x.table) {
      HasServerVisible(again, x.table);
      HasServerVisible(left + AddInside(TrimEndLines(existing), s.needs), x.table);
      HasServerLeft(left, AddInside(TrimEndLines(existing), s.needs), x.table);
      ServerInside(TrimEndLines(existing), x.table, s.needs);
      HasServerVisible(TrimEndLines(existing), x.table);
      HasServerVisible(existing, x.table);
      TrimEndVisible(existing);
      HasServerTrim(Visible(existing), x.table);
    }
    SameServers(s.shared, again, existing);
  }

  lemma ServerInside(lines: seq<Line>, table: string, needs: Needs)
    requires table != "" && table[0] == '['
    ensures HasServer(AddInside(lines, needs), table) <==> HasServer(lines, table)
  {
    hide KindOf, Trim, AddInside;
    HasServerInside(lines, table, needs);
    AddedLines(lines, needs);
  }

  lemma {:induction false} OpenConcat(a: seq<Line>, b: seq<Line>)
    requires b != [] && StartsSection(b)
    ensures OpenSection(a + b) == OpenSection(b)
    decreases |a|
  {
    if a == [] {
      assert a + b == b;
    } else {
      hide KindOf, StartsMcp, StartsSection, NoHeaders, OpenSection, FirstPart;
      var head, rest := a[..FirstPart(a)], a[FirstPart(a)..];
      PartOf(a);
      PartGrows(head, rest, b);
      AddPart(head, rest + b, x => false);
      Assoc(head, rest, b);
      OpenConcat(rest, b);
    }
  }

  /** The blocks behind the user's part, given the section that reaches up to them. */
  function FooterBehind(s: Setup, existing: seq<Line>, withTui: bool, open: seq<Line>): seq<Line> {
    var servers := NewServers(s.shared, existing);
    if servers == [] then WrittenLines(TablesBehind(s, withTui, open))
    else WrittenLines(RegistryBehind(s, servers, open))
         + WrittenLines(TablesBehind(s, withTui, OpenSection(BlockRest(Registry(s, servers)))))
  }

  /** The repair of a whole file: the user's part inside, and the blocks behind it. */
  lemma FooterAdded(s: Setup, front: seq<Line>, existing: seq<Line>, withTui: bool)
    requires SetupOk(s)
    ensures AddTimeouts(front + Footer(s, existing, withTui), s.needs)
         == AddInside(front, s.needs) + FooterBehind(s, existing, withTui, OpenSection(front))
  {
    hide KindOf, AddTimeouts, AddInside, OpenSection, WrittenLines, Tables, TablesBehind, RegistryBehind, Registry, ManagedOk, Sensible, TopOk, NewServers, Plain, Opens, HasHeader, NoOpeners, BlockRest;
    var reg, tables := RegistryLines(s, existing), WrittenLines(Tables(s, withTui));
    Assoc(front, reg, tables);
    TablesAdded(s, withTui, front + reg);
    var servers := NewServers(s.shared, existing);
    if servers == [] {
      assert front + [] == front;
    } else {
      forall x | x in servers ensures x in s.shared { NewServersAre(s.shared, existing, x); }
      RegistryAdded(s, servers, front);
      RegistryOpen(s, servers, front);
      Assoc(AddInside(front, s.needs), WrittenLines(RegistryBehind(s, servers, OpenSection(front))),
            WrittenLines(TablesBehind(s, withTui, OpenSection(BlockRest(Registry(s, servers))))));
    }
  }

  lemma RegistryOpen(s: Setup, servers: seq<Shared>, front: seq<Line>)
    requires PlainLines(s.source) && NoOpens(s.source) && ServersOk(servers) && servers != []
    ensures OpenSection(front + WrittenLines(Registry(s, servers))) == OpenSection(BlockRest(Registry(s, servers)))
  {
    hide KindOf, OpenSection, WrittenLines, Registry, Plain, Opens, BlockGap, BlockRest, BlockOk;
    var w := Registry(s, servers);
    RegistryOk(s, servers);
    BlockParts(w);
    GapOk(w);
    Assoc(front, BlockGap(w), BlockRest(w));
    OpenConcat(front + BlockGap(w), BlockRest(w));
  }

  /** Repairing the user's part first makes no visible difference exactly when it takes its timeouts. */
  lemma FooterRepairedAlike(s: Setup, front: seq<Line>, existing: seq<Line>, withTui: bool)
    requires SetupOk(s)
    ensures (Visible(AddTimeouts(AddInside(front, s.needs) + Footer(s, existing, withTui), s.needs))
             == Visible(AddTimeouts(front + Footer(s, existing, withTui), s.needs)))
            <==> RepairsTake(front, s.needs)
  {
    hide KindOf, AddTimeouts, AddInside, OpenSection, SetupOk, Footer, FooterBehind, RepairsTake, Visible;
    var inside := AddInside(front, s.needs);
    FooterAdded(s, front, existing, withTui);
    FooterAdded(s, inside, existing, withTui);
    OpenStays(front, s.needs);
    InsideTwiceIff(front, s.needs);
    var tail := FooterBehind(s, existing, withTui, OpenSection(front));
    VisibleConcat(inside, tail);
    VisibleConcat(AddInside(inside, s.needs), tail);
    SameFront(Visible(AddInside(inside, s.needs)), Visible(inside), Visible(tail));
  }

  lemma SameFront(a: seq<Line>, b: seq<Line>, tail: seq<Line>)
    ensures a + tail == b + tail <==> a == b
  {
    if a + tail == b + tail {
      assert |a| == |b|;
      assert a == (a + tail)[..|a|] && b == (b + tail)[..|b|];
    }
  }

  /** Lines that open nothing in front of the user's part do not matter to the repair. */
  lemma {:induction false} TakesBehind(a: seq<Line>, b: seq<Line>, needs: Needs)
    requires NoOpens(a)
    ensures RepairsTake(a + b, needs) <==> RepairsTake(b, needs)
  {
    hide KindOf, StartsMcp, SectionLength, Takes, Opens;
    if a == [] {
      assert a + b == b;
    } else {
      assert a == [a[0]] + a[1..] && (a + b)[1..] == a[1..] + b;
      assert a[0] in a;
      NotMcp(a[0]);
      TakesBehind(a[1..], b, needs);
    }
  }

  // ----- the theorem -----

  lemma TopPlain(s: Setup, existing: seq<Line>)
    requires TopOk(s.top)
    ensures PlainLines(TopLines(s.top, existing) + [""]) && NoOpens(TopLines(s.top, existing) + [""])
  {
    hide KindOf, SettingLine, ModelLine, Contains, Plain, SelectedModel, RootValue, ValueOk, ModelOk, TopComment, ContextLine, CompactLine, TopOk;
    var o := s.top;
    WindowQuiet();
    SelectedOk(o, existing);
    TopFixedPlain(o);
    TopCommentKind();
    TopKinds(o);
    ModelKind(SelectedModel(o, existing));
    WindowKinds();
    EmptyKind();
    hide ModelPart;
    PartsAreRootLines(o, existing);
    forall l | l in TopLines(o, existing) + [""] ensures !Opens(l) {
      if l in FixedTop(o) {
      } else {
        assert l in ModelPart(o, existing) + WindowPart(o, existing) + [""];
      }
    }
  }

  lemma TopFixedPlain(o: TopOptions)
    requires TopOk(o)
    ensures PlainLines(FixedTop(o))
  {
  }

  lemma FrontOk(s: Setup, existing: seq<Line>, user: seq<Line>)
    requires SetupOk(s) && Settled(s, user) && EndsTrimmed(user) && user != []
    ensures var front := TopLines(s.top, existing) + [""] + user;
            && NoMarkers(front) && EndsTrimmed(front) && (RepairsTake(front, s.needs) <==> RepairsTake(user, s.needs))
            && AddInside(front, s.needs) == TopLines(s.top, existing) + [""] + AddInside(user, s.needs)
  {
    hide KindOf, Contains, AddInside, TopLines, TrimEnd, RootFree, FixedIn, TuiDone, Opens, IsOrphan, IsTopComment, Sensible, ManagedOk, SharedOk, TopOk, RepairsTake;
    var top := TopLines(s.top, existing) + [""];
    TopPlain(s, existing);
    InsideBody(top, user, s.needs);
    TakesBehind(top, user, s.needs);
    hide NoOpens;
    assert (top + user)[|top + user| - 1] == user[|user| - 1];
  }

  /** The second run, once the blocks are off. */
  lemma SecondRun(s: Setup, existing: seq<Line>, withTui: bool)
    requires SetupOk(s) && Settled(s, existing)
    requires withTui <==> s.includeTui && !HasTitle(existing, TuiTitle)
    ensures var first := Assemble(s, existing, withTui);
            Visible(Merge(s, first)) == Visible(first) <==> RepairsTake(TrimEndLines(existing), s.needs)
  {
    hide KindOf, Contains, AddInside, AddTimeouts, TopLines, TrimEndLines, Settled, Footer, Existing, WritesTui, Visible, Left, EndsTrimmed, NoMarkers, HasTitle, Unmarked, RootLine, RootValue, Sensible, TopOk, ManagedOk, SharedOk, TuiTitle, RepairsTake;
    var user := TrimEndLines(existing);
    TrimSettled(s, existing);
    var top := TopLines(s.top, existing) + [""];
    var front := top + user;
    var first := Assemble(s, existing, withTui);
    FrontOk(s, existing, user);
    FooterComesOff(s, front, existing, withTui);
    var inside := AddInside(user, s.needs);
    InsideSettled(s, user);
    ExistingAgain(s, existing, inside);
    if s.includeTui { SameTuiFlag(s, existing); }
    var again := Existing(s, top + inside);
    assert Unmarked(first) == top + inside;
    assert Merge(s, first) == Assemble(s, again, withTui);
    AssembledAgain(s, existing, again, withTui);
  }

  lemma SameTuiFlag(s: Setup, existing: seq<Line>)
    requires SetupOk(s) && Settled(s, existing) && s.includeTui
    ensures HasTitle(AddInside(TrimEndLines(existing), s.needs), TuiTitle) <==> HasTitle(existing, TuiTitle)
  {
    hide KindOf, AddInside, TrimEndLines, HasTitle, FixedIn, RootFree, All, TuiDone, Sensible, TopOk, ManagedOk, SharedOk, AcceptableLine, CutAt, TuiTitle;
    TuiDoneTrim(existing);
    TitlesNotMcp(Env);
    CutInside(TrimEndLines(existing), TuiTitle, s.needs);
  }

  /** Around the user's part go the same visible lines as in the first run, if it takes its timeouts. */
  lemma AssembledAgain(s: Setup, existing: seq<Line>, again: seq<Line>, withTui: bool)
    requires SetupOk(s) && Settled(s, existing)
    requires Visible(again) == Visible(Left(s.top, existing) + AddInside(TrimEndLines(existing), s.needs))
    ensures Visible(Assemble(s, again, withTui)) == Visible(Assemble(s, existing, withTui))
            <==> RepairsTake(TrimEndLines(existing), s.needs)
  {
    hide KindOf, Contains, AddInside, AddTimeouts, TopLines, TrimEndLines, Settled, Footer, Visible, Left, EndsTrimmed, NoMarkers, HasTitle, RootLine, RootValue, Sensible, TopOk, ManagedOk, SharedOk, RepairsTake;
    var user := TrimEndLines(existing);
    var inside := AddInside(user, s.needs);
    var left := Left(s.top, existing);
    TrimSettled(s, existing);
    LeftRootLines(s.top, existing);
    FooterAgain(s, existing, left, again, withTui);
    TopValuesAgain(s, existing, again);
    TopAgain(s.top, existing, again);
    var front := TopLines(s.top, existing) + [""] + user;
    FrontOk(s, existing, user);
    FooterRepairedAlike(s, front, existing, withTui);
    UserAgain(s, existing, again);
    var footer := Footer(s, existing, withTui);
    var second := TopLines(s.top, again) + [""] + TrimEndLines(again);
    SameVisible(s, second, AddInside(front, s.needs), footer);
  }

  lemma SameVisible(s: Setup, a: seq<Line>, b: seq<Line>, footer: seq<Line>)
    requires Sensible(s.needs) && Visible(a) == Visible(b)
    ensures Visible(AddTimeouts(a + footer, s.needs)) == Visible(AddTimeouts(b + footer, s.needs))
  {
    hide Sensible, Visible, AddTimeouts;
    AddVisible(a + footer, s.needs);
    AddVisible(b + footer, s.needs);
    VisibleConcat(a, footer);
    VisibleConcat(b, footer);
  }

  /** The visible lines in front of the blocks are the same. */
  lemma UserAgain(s: Setup, existing: seq<Line>, again: seq<Line>)
    requires SetupOk(s) && Settled(s, existing)
    requires Visible(again) == Visible(Left(s.top, existing) + AddInside(TrimEndLines(existing), s.needs))
    requires TopLines(s.top, again) + Left(s.top, existing) == TopLines(s.top, existing) + [""]
    ensures Visible(TopLines(s.top, again) + [""] + TrimEndLines(again))
         == Visible(TopLines(s.top, existing) + [""] + AddInside(TrimEndLines(existing), s.needs))
  {
    hide KindOf, Contains, AddInside, TopLines, TrimEndLines, Settled, Visible, Left, EndsTrimmed, Sensible, TopOk, ManagedOk, SharedOk, TrimLast;
    var user := TrimEndLines(existing);
    var inside := AddInside(user, s.needs);
    var left := Left(s.top, existing);
    var top2 := TopLines(s.top, again);
    TrimSettled(s, existing);
    InsideEndsTrimmed(user, s.needs);
    InsideNotEmpty(user, s.needs);
    TrimEndVisible(again);
    EndVisible(left, inside);
    VisibleConcat(top2 + [""], TrimEndLines(again));
    VisibleConcat(top2, [""]);
    OneBlank();
    BlankVisible([""]);
    assert Visible(top2) + [] == Visible(top2);
    VisibleConcat(left, inside);
    Assoc(Visible(top2), Visible(left), Visible(inside));
    VisibleConcat(top2, left);
    VisibleConcat(TopLines(s.top, existing) + [""], inside);
  }

  lemma InsideNotEmpty(lines: seq<Line>, needs: Needs)
    requires lines != []
    ensures AddInside(lines, needs) != []
  {
    InsideLast(lines, needs);
  }

  lemma EndVisible(left: seq<Line>, inside: seq<Line>)
    requires EndsTrimmed(inside) && inside != []
    ensures TrimLast(Visible(left + inside)) == Visible(left + inside)
  {
    hide KindOf, TrimEnd;
    var whole := left + inside;
    assert whole[|whole| - 1] == inside[|inside| - 1];
    LastVisible(whole);
    var v := Visible(whole);
    assert v == v[..|v| - 1] + [v[|v| - 1]];
  }

  lemma TopValuesAgain(s: Setup, existing: seq<Line>, again: seq<Line>)
    requires Settled(s, existing)
    requires Visible(again) == Visible(Left(s.top, existing) + AddInside(TrimEndLines(existing), s.needs))
    ensures forall key :: RootValue(again, key)
                       == if RootValue(existing, key).None? then RootValue(Left(s.top, existing), key) else RootValue(existing, key)
  {
    hide KindOf, AddInside, TrimEndLines, Visible, Left, RootValue, All, RootFree, TuiDone, HasTitle, Fixed;
    FixedHasOpener(Features, existing);
    var user := TrimEndLines(existing);
    var inside := AddInside(user, s.needs);
    forall key
      ensures RootValue(again, key)
           == if RootValue(existing, key).None? then RootValue(Left(s.top, existing), key) else RootValue(existing, key)
    {
      RootValueVisible(again, key);
      RootValueVisible(Left(s.top, existing) + inside, key);
      PartsValue(s.top, existing, key);
      RootValueConcat(Left(s.top, existing), inside, key);
      InsideRootValue(user, key, s.needs);
      TrimRootValue(existing, key);
    }
  }

  /** The user's part of the file as setup leaves it, before timeouts are added. */
  function UserPart(s: Setup, config: seq<Line>): seq<Line> { TrimEndLines(Existing(s, Unmarked(config))) }

  /** Setup run on its own output writes the same non-blank lines exactly when every section of the user's
      part that is given a startup timeout takes it. One that does not ends in another table, whose
      header the code does not see for the comment behind it. */
  lemma MergeTwice(s: Setup, config: seq<Line>)
    requires SetupOk(s) && Readable(config)
    ensures Visible(Merge(s, Merge(s, config))) == Visible(Merge(s, config)) <==> RepairsTake(UserPart(s, config), s.needs)
  {
    hide KindOf, Unmarked, Existing, Settled, Visible, Merge, Assemble, Readable, SetupOk, HasTitle, TuiTitle, TrimEndLines, RepairsTake;
    var lines := Unmarked(config);
    ExistingSettled(s, config);
    TuiFlag(s, lines);
    SecondRun(s, Existing(s, lines), WritesTui(s, lines));
    MergeIs(s, config);
  }

  /** With a decision on the first table of a section: exactly when each section of the user's part that
      is given a timeout, and that another header closes, is one table. */
  lemma MergeTwiceSingle(s: Setup, config: seq<Line>)
    requires SetupOk(s) && Readable(config) && LooksAtTable(s.needs)
    ensures (Visible(Merge(s, Merge(s, config))) == Visible(Merge(s, config))) <==> SingleTables(UserPart(s, config), s.needs)
  {
    hide KindOf, Visible, Merge, Readable, RepairsTake, SingleTables, UserPart, Sensible, TopOk, SharedOk, ManagedOk, LooksAtTable;
    MergeTwice(s, config);
    SingleTablesIff(UserPart(s, config), s.needs);
  }

  /** The user's part holds lines of the file, trimmed at most, and lines setup writes. */
  lemma UserPartKeeps(s: Setup, config: seq<Line>, p: Line -> bool)
    requires NotifyOk(s.dropNotify) && Readable(config) && Writable(p) && All(p, config)
    ensures All(p, UserPart(s, config))
  {
    hide KindOf, Writable, StripBlocks, StripRootKeys, StripOrphans, Robust, All, Upsert, FoldTui, Contains, IsOrphan, IsNotifyLine, DropNotify, Block, TrimEndLines, Overrides;
    WritableParts(p);
    WritableBlocks(p);
    NonEmptyMarkers();
    StripBlocksKeeps(p, config, OmcpMarks);
    StripBlocksKeeps(p, StripBlocks(config, OmcpMarks), RegistryMarks);
    var lines := Unmarked(config);
    StripRootKeysKeeps(p, lines, TopKeys, true);
    var bare := StripRootKeys(lines, TopKeys, true);
    NothingHolds(p);
    DropNotifyKeeps(p, [], bare);
    var quiet := DropNotify([], bare);
    StripRootKeysKeeps(p, quiet, {ModelKey}, false);
    var ready := if Overrides(s.top) then StripRootKeys(quiet, {ModelKey}, false) else quiet;
    StripOrphansKeeps(p, [], ready, s.legacyAgent);
    var cleared := Cleared(s, lines);
    UpsertKeepsAll(p, Features, cleared);
    UpsertKeepsAll(p, Env, Upsert(Features, cleared));
    UpsertKeepsAll(p, Agents, Upsert(Env, Upsert(Features, cleared)));
    FoldKeepsAll(p, Sectioned(cleared));
    TrimEndKeeps(p, Existing(s, lines));
  }

  lemma NothingHolds(p: Line -> bool)
    ensures All(p, [])
  {
  }

  lemma WritableBlocks(p: Line -> bool)
    requires Writable(p)
    ensures All(p, Block(Features)) && All(p, Block(Env)) && All(p, Block(Agents))
  {
  }

  /** Idempotent in particular: files in which every line that opens with a bracket is a whole header,
      and files, commented headers or not, whose only MCP tables are OMCP's own. */
  lemma MergeTwiceOrdinary(s: Setup, config: seq<Line>)
    requires SetupOk(s) && Readable(config)
    requires NoOpeners(config) || forall l :: l in config && StartsMcp(l) ==> StartsOmcp(l)
    ensures Visible(Merge(s, Merge(s, config))) == Visible(Merge(s, config))
  {
    hide KindOf, Visible, Merge, Readable, RepairsTake, SingleTables, StartsMcp, StartsOmcp, UserPart, Sensible, TopOk, SharedOk, ManagedOk, Writable;
    MergeTwice(s, config);
    if NoOpeners(config) {
      NoOpenerWritable();
      UserPartKeeps(s, config, (l: Line) => !KindOf(l).Opener?);
    } else {
      OmcpWritable();
      UserPartKeeps(s, config, (l: Line) => StartsMcp(l) ==> StartsOmcp(l));
    }
    OrdinaryTables(UserPart(s, config), s.needs);
    SingleTablesTake(UserPart(s, config), s.needs);
  }

  lemma BlockNoOpeners(sec: Section)
    ensures forall l :: l in Block(sec) ==> !KindOf(l).Opener?
  {
    hide KindOf, HeaderLine, SettingLine;
    TitleKind(sec);
    EmptyKind();
    forall l | l in Defaults(sec) ensures KindOf(l).Setting? { DefaultKinds(sec, l); }
  }

  lemma NoOpenerWritable()
    ensures Writable((l: Line) => !KindOf(l).Opener?)
  {
    hide KindOf, Robust, Block, StatusLine, TuiTitle, TimeoutLine;
    NoOpenerRobust();
    TuiKinds();
    TimeoutKind();
    forall sec: Section ensures All((l: Line) => !KindOf(l).Opener?, Block(sec)) { BlockNoOpeners(sec); }
  }

  lemma OmcpTrims(l: Line)
    ensures StartsMcp(TrimEnd(l)) ==> StartsMcp(l)
    ensures StartsOmcp(l) ==> StartsOmcp(TrimEnd(l))
    ensures StartsMcp(TrimStart(l)) <==> StartsMcp(l)
    ensures StartsOmcp(TrimStart(l)) <==> StartsOmcp(l)
  {
    TrimStartTwice(l);
    TrimCommutes(l);
    var t := TrimStart(l);
    TrimEndCuts(t);
    var r := TrimEnd(t);
    assert r == t[..|r|];
    var p := "[mcp_servers.omcp_";
    assert p[|p| - 1] == '_' && !IsSpace('_');
    if p <= t {
      VisibleAt(t, |r|, |p| - 1);
      assert t[|p| - 1] == '_';
      assert p <= r;
    }
  }

  lemma OmcpWritable()
    ensures Writable((l: Line) => StartsMcp(l) ==> StartsOmcp(l))
  {
    hide KindOf, Block, StatusLine, TuiTitle, TimeoutLine, StartsMcp, StartsOmcp, TrimEnd, TrimStart;
    forall l ensures (StartsMcp(TrimEnd(l)) ==> StartsMcp(l)) && (StartsOmcp(l) ==> StartsOmcp(TrimEnd(l)))
                     && (StartsMcp(TrimStart(l)) <==> StartsMcp(l)) && (StartsOmcp(TrimStart(l)) <==> StartsOmcp(l))
    {
      OmcpTrims(l);
    }
    EmptyKind();
    NotMcpBlank("");
    TuiKinds();
    NotMcp(StatusLine);
    TimeoutStartsNothing();
    forall sec: Section ensures All((l: Line) => StartsMcp(l) ==> StartsOmcp(l), Block(sec)) { BlockNotMcp(sec); }
  }

  lemma BlockNotMcp(sec: Section)
    ensures forall l :: l in Block(sec) ==> !StartsMcp(l)
  {
    hide KindOf, HeaderLine, SettingLine, StartsMcp;
    EmptyKind();
    NotMcpBlank("");
    TitleKind(sec);
    TitlesNotMcp(sec);
    TitledNotMcp(Title(sec), Title(sec));
    forall l | l in Defaults(sec) ensures !StartsMcp(l) {
      DefaultKinds(sec, l);
      SettingOpensNothing(l);
      NotMcp(l);
    }
  }

  lemma SettingOpensNothing(l: Line)
    requires KindOf(l).Setting?
    ensures !Opens(l)
  {
  }

  lemma MergeIs(s: Setup, config: seq<Line>)
    ensures Merge(s, config) == Assemble(s, Existing(s, Unmarked(config)), WritesTui(s, Unmarked(config)))
  {
    hide Assemble, Existing, WritesTui, Unmarked;
  }

  lemma TuiFlag(s: Setup, lines: seq<Line>)
    ensures WritesTui(s, lines) <==> s.includeTui && !HasTitle(Existing(s, lines), TuiTitle)
  {
    hide KindOf, Sectioned, Cleared, HasTitle, TuiTitle, CutAt, Visible, NoneTitled;
    var ready := Sectioned(Cleared(s, lines));
    if s.includeTui {
      hide FoldTui;
      if HasTitle(ready, TuiTitle) {
        OneTuiSection(ready);
      } else {
        NoFold(ready);
      }
    }
  }
}
