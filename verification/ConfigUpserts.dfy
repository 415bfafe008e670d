/** Which lines of a file the section upserts, the [tui] fold and the timeout repair leave alone. A line
    that opens with a bracket but is no whole header ends a table for TOML and does not for the code. */
module ConfigUpserts {
  import opened Text
  import opened ConfigLines
  import opened ConfigSections
  import opened ConfigTui
  import opened ConfigMarkers
  import opened ConfigTimeouts
  import opened ConfigRoot
  import opened ConfigStable
  import opened ConfigMerge
  import opened ConfigSettled
  import opened ConfigRepaired
  import opened ConfigKeeps

  // ----- the parts of a file cut at a section -----

  function HeaderEntry(pick: Pick, title: string): seq<Entry> {
    if pick(Entry(title, title)) then [Entry(title, title)] else []
  }

  lemma PickedGlue(pick: Pick, table: string, c: Cut, title: string)
    requires IsCut(c, title)
    ensures Picked(pick, table, Glue(c))
         == Picked(pick, table, c.before)
            + (HeaderEntry(pick, title) + (Picked(pick, title, c.body) + Picked(pick, title, c.after)))
  {
    hide KindOf, Picked, TableAfter, NoHeaders, NoneTitled;
    GlueRest(c);
    var rest := [c.header] + (c.body + c.after);
    PickedConcat(pick, table, c.before, rest);
    TitledIs(c.header, title);
    PickedCons(pick, TableAfter(table, c.before), c.header, c.body + c.after);
    PickedConcat(pick, title, c.body, c.after);
    AfterOpens(c.after);
    PickedFromHeader(pick, title, TableAfter(title, c.body), c.after);
  }

  lemma AfterOpens(lines: seq<Line>)
    requires StartsSection(lines)
    ensures lines == [] || Opens(lines[0])
  {
  }

  lemma TitledIs(l: Line, title: string)
    requires Titled(l, title)
    ensures Opens(l) && Trim(l) == title
  {
  }

  /** Equal lists stay equal, and unequal ones unequal, between the same ends. */
  lemma MiddleIff(a: seq<Entry>, h: seq<Entry>, x: seq<Entry>, y: seq<Entry>, z: seq<Entry>)
    ensures a + (h + (x + z)) == a + (h + (y + z)) <==> x == y
  {
    if a + (h + (x + z)) == a + (h + (y + z)) {
      assert |x| == |y|;
      var n := |a| + |h|;
      assert (a + (h + (x + z)))[n..n + |x|] == x && (a + (h + (y + z)))[n..n + |x|] == y;
    }
  }

  lemma TailIff(x: seq<Entry>, y: seq<Entry>, z: seq<Entry>)
    ensures x + z == y + z <==> x == y
  {
    if x + z == y + z {
      assert |x| == |y|;
      assert (x + z)[..|x|] == x && (y + z)[..|x|] == y;
    }
  }

  lemma LastIff(x: seq<Entry>, e: Entry, f: Entry)
    ensures x + [e] == x + [f] <==> e == f
  {
    assert (x + [e])[|x|] == e && (x + [f])[|x|] == f;
  }

  function PickedLast(pick: Pick, e: Entry): seq<Entry> { if pick(e) then [e] else [] }

  /** Between whole headers only a line that is no whole header can change the table. */
  lemma {:induction false} BodyTable(table: string, body: seq<Line>)
    requires NoHeaders(body)
    ensures if NoOpens(body) then TableAfter(table, body) == table else KindOf(TableAfter(table, body)).Opener?
    decreases |body|
  {
    hide KindOf, Trim, TableAfter;
    if body == [] {
      NoTableAfter(table);
    } else {
      var n := |body| - 1;
      var front, l := body[..n], body[n];
      assert body == front + [l] && l in body;
      BodyTable(table, front);
      PickedSnoc(e => false, table, front, l);
      NoOpensSnoc(front, l);
      OpenerTrims(l);
    }
  }

  lemma NoTableAfter(table: string)
    ensures TableAfter(table, []) == table
  {
  }

  lemma NoOpensSnoc(front: seq<Line>, l: Line)
    ensures NoOpens(front + [l]) <==> NoOpens(front) && !Opens(l)
  {
    hide Opens;
    if NoOpens(front + [l]) {
      forall x | x in front ensures !Opens(x) { assert x in front + [l]; }
      assert l in front + [l];
    }
  }

  lemma OpenerTrims(l: Line)
    ensures KindOf(l).Opener? ==> KindOf(Trim(l)).Opener?
    ensures Opens(l) <==> IsHeader(l) || KindOf(l).Opener?
  {
    KindIgnoresTrim(l);
  }

  // ----- one key of a section -----

  /** Every line that sets the key stands above the first bracket line. */
  predicate HeadOnly(body: seq<Line>, key: string) {
    body == []
    || (var n := |body| - 1; (Sets(body[n], key) ==> NoOpens(body[..n])) && HeadOnly(body[..n], key))
  }

  /** The key is set, and its last line stands above the first bracket line or reads like `line`. */
  predicate LastKept(body: seq<Line>, key: string, line: Line) {
    body != []
    && (var n := |body| - 1;
        if Sets(body[n], key) then NoOpens(body[..n]) || Trim(body[n]) == line else LastKept(body[..n], key, line))
  }

  /** In the table itself the key is not looked for, below another bracket line it is. */
  ghost predicate LooksBelow(pick: Pick, title: string, key: string) {
    && (forall e :: pick(e) && e.table == title ==> !Sets(e.line, key))
    && (forall e: Entry :: KindOf(e.table).Opener? && Sets(e.line, key) ==> pick(e))
  }

  lemma BelowOne(pick: Pick, title: string, key: string, front: seq<Line>, l: Line)
    requires LooksBelow(pick, title, key) && NoHeaders(front) && Sets(l, key)
    ensures TableAfter(title, front + [l]) == TableAfter(title, front)
    ensures Picked(pick, title, front + [l])
         == Picked(pick, title, front) + (if NoOpens(front) then [] else [Entry(TableAfter(title, front), Trim(l))])
  {
    PickedSnoc(pick, title, front, l);
    BodyTable(title, front);
    KindIgnoresTrim(l);
    hide KindOf, Trim, Picked, TableAfter;
  }

  lemma FrontNoHeaders(body: seq<Line>)
    requires NoHeaders(body) && body != []
    ensures NoHeaders(body[..|body| - 1]) && !IsHeader(body[|body| - 1])
    ensures body == body[..|body| - 1] + [body[|body| - 1]]
  {
    assert body[|body| - 1] in body;
  }

  lemma {:induction false} DropIff(pick: Pick, title: string, body: seq<Line>, key: string)
    requires LooksBelow(pick, title, key) && NoHeaders(body)
    ensures Picked(pick, title, DropKey(body, key)) == Picked(pick, title, body) <==> HeadOnly(body, key)
    ensures |Picked(pick, title, DropKey(body, key))| <= |Picked(pick, title, body)|
    ensures TableAfter(title, DropKey(body, key)) == TableAfter(title, body)
    decreases |body|
  {
    hide KindOf, Trim, Picked, TableAfter, LooksBelow, NoHeaders;
    if body != [] {
      var n := |body| - 1;
      FrontNoHeaders(body);
      DropIff(pick, title, body[..n], key);
      if Sets(body[n], key) {
        BelowOne(pick, title, key, body[..n], body[n]);
        assert DropKey(body, key) == DropKey(body[..n], key);
      } else {
        PickedSnoc(pick, title, body[..n], body[n]);
        PickedSnoc(pick, title, DropKey(body[..n], key), body[n]);
        TailIff(Picked(pick, title, DropKey(body[..n], key)), Picked(pick, title, body[..n]),
                PickedLast(pick, EntryOf(TableAfter(title, body[..n]), body[n])));
      }
    }
  }

  lemma {:induction false} ReplaceIff(pick: Pick, title: string, body: seq<Line>, key: string, line: Line)
    requires LooksBelow(pick, title, key) && NoHeaders(body) && HasKey(body, key) && Sets(line, key) && Trim(line) == line
    ensures Picked(pick, title, ReplaceLast(body, key, line)) == Picked(pick, title, body) <==> LastKept(body, key, line)
    ensures TableAfter(title, ReplaceLast(body, key, line)) == TableAfter(title, body)
    decreases |body|
  {
    hide KindOf, Trim, Picked, TableAfter, LooksBelow, NoHeaders;
    var n := |body| - 1;
    FrontNoHeaders(body);
    if Sets(body[n], key) {
      BelowOne(pick, title, key, body[..n], body[n]);
      BelowOne(pick, title, key, body[..n], line);
      var t := TableAfter(title, body[..n]);
      LastIff(Picked(pick, title, body[..n]), Entry(t, line), Entry(t, Trim(body[n])));
    } else {
      ReplaceIff(pick, title, body[..n], key, line);
      PickedSnoc(pick, title, body[..n], body[n]);
      PickedSnoc(pick, title, ReplaceLast(body[..n], key, line), body[n]);
      TailIff(Picked(pick, title, ReplaceLast(body[..n], key, line)), Picked(pick, title, body[..n]),
              PickedLast(pick, EntryOf(TableAfter(title, body[..n]), body[n])));
    }
  }

  lemma {:induction false} LastKeptHead(body: seq<Line>, key: string, line: Line)
    requires NoOpens(body) && HasKey(body, key)
    ensures LastKept(body, key, line)
  {
    hide KindOf, Trim, Opens;
    var n := |body| - 1;
    assert body == body[..n] + [body[n]];
    NoOpensSnoc(body[..n], body[n]);
    if !Sets(body[n], key) {
      LastKeptHead(body[..n], key, line);
    }
  }

  lemma {:induction false} LastKeptHas(body: seq<Line>, key: string, line: Line)
    requires LastKept(body, key, line)
    ensures HasKey(body, key)
  {
    hide KindOf, Trim, Opens;
    var n := |body| - 1;
    assert body[n] in body;
    if !Sets(body[n], key) {
      LastKeptHas(body[..n], key, line);
    }
  }

  /** Setting a key to `line`. */
  lemma SetIff(pick: Pick, title: string, body: seq<Line>, key: string, line: Line)
    requires LooksBelow(pick, title, key) && NoHeaders(body) && Sets(line, key) && Trim(line) == line
    ensures Picked(pick, title, SetLast(body, key, line)) == Picked(pick, title, body)
            <==> NoOpens(body) || LastKept(body, key, line)
  {
    hide KindOf, Trim, Picked, TableAfter, LooksBelow, NoHeaders, HasKey, Opens, ReplaceLast, LastKept;
    if HasKey(body, key) {
      ReplaceIff(pick, title, body, key, line);
      if NoOpens(body) { LastKeptHead(body, key, line); }
    } else {
      BelowOne(pick, title, key, body, line);
      if LastKept(body, key, line) { LastKeptHas(body, key, line); }
    }
  }

  /** Setting a key only where it is missing. */
  lemma EnsureIff(pick: Pick, title: string, body: seq<Line>, key: string, line: Line)
    requires LooksBelow(pick, title, key) && NoHeaders(body) && Sets(line, key)
    ensures Picked(pick, title, Ensure(body, key, line)) == Picked(pick, title, body) <==> NoOpens(body) || HasKey(body, key)
  {
    hide KindOf, Trim, Picked, TableAfter, LooksBelow, NoHeaders, HasKey, Opens;
    if !HasKey(body, key) {
      BelowOne(pick, title, key, body, line);
    }
  }

  // ----- the other keys do not interfere -----

  lemma {:induction false} KeptByDrop(body: seq<Line>, other: string, key: string, line: Line)
    requires key != other
    ensures LastKept(DropKey(body, other), key, line) <==> LastKept(body, key, line)
    ensures NoOpens(DropKey(body, other)) <==> NoOpens(body)
    ensures HasKey(DropKey(body, other), key) <==> HasKey(body, key)
  {
    hide KindOf, Trim, Opens;
    if body != [] {
      var n := |body| - 1;
      var dropped := DropKey(body[..n], other);
      assert body == body[..n] + [body[n]];
      KeptByDrop(body[..n], other, key, line);
      NoOpensSnoc(body[..n], body[n]);
      NoOpensSnoc(dropped, body[n]);
      KeySnoc(body[..n], body[n], key);
      KeySnoc(dropped, body[n], key);
      SettingOpensNone(body[n], other);
      if !Sets(body[n], other) {
        assert (dropped + [body[n]])[..|dropped|] == dropped;
      } else {
        assert DropKey(body, other) == dropped;
      }
    }
  }

  lemma SettingOpensNone(l: Line, key: string)
    ensures Sets(l, key) ==> !Opens(l)
  {
  }

  lemma KeySnoc(front: seq<Line>, l: Line, key: string)
    ensures HasKey(front + [l], key) <==> HasKey(front, key) || Sets(l, key)
  {
    hide KindOf;
    if x :| x in front && Sets(x, key) { assert x in front + [l]; }
    assert l in front + [l];
  }

  lemma {:induction false} KeptByReplace(body: seq<Line>, other: string, new_: Line, key: string, line: Line)
    requires key != other && Sets(new_, other)
    ensures LastKept(ReplaceLast(body, other, new_), key, line) <==> LastKept(body, key, line)
    ensures NoOpens(ReplaceLast(body, other, new_)) <==> NoOpens(body)
    ensures HasKey(ReplaceLast(body, other, new_), key) <==> HasKey(body, key)
  {
    hide KindOf, Trim, Opens;
    if body != [] {
      var n := |body| - 1;
      assert body == body[..n] + [body[n]];
      NoOpensSnoc(body[..n], body[n]);
      KeySnoc(body[..n], body[n], key);
      SettingOpensNone(body[n], other);
      SettingOpensNone(new_, other);
      if Sets(body[n], other) {
        NoOpensSnoc(body[..n], new_);
        KeySnoc(body[..n], new_, key);
        assert (body[..n] + [new_])[..n] == body[..n];
      } else {
        var rest := ReplaceLast(body[..n], other, new_);
        KeptByReplace(body[..n], other, new_, key, line);
        NoOpensSnoc(rest, body[n]);
        KeySnoc(rest, body[n], key);
        assert (rest + [body[n]])[..|rest|] == rest;
      }
    }
  }

  lemma KeptBySet(body: seq<Line>, other: string, new_: Line, key: string, line: Line)
    requires key != other && Sets(new_, other)
    ensures LastKept(SetLast(body, other, new_), key, line) <==> LastKept(body, key, line)
    ensures NoOpens(SetLast(body, other, new_)) <==> NoOpens(body)
    ensures HasKey(SetLast(body, other, new_), key) <==> HasKey(body, key)
  {
    hide KindOf, Trim, Opens, ReplaceLast;
    if HasKey(body, other) {
      KeptByReplace(body, other, new_, key, line);
    } else {
      SettingOpensNone(new_, other);
      NoOpensSnoc(body, new_);
      KeySnoc(body, new_, key);
      assert (body + [new_])[..|body|] == body;
    }
  }

  // ----- the keys of the three sections -----

  function Keys(sec: Section): set<string> {
    match sec
    case Features => {Collab, MultiAgent, ChildAgents, CodexHooks}
    case Env => {ExploreCmd}
    case Agents => {MaxThreads, MaxDepth}
  }

  /** What the section writes for a key it sets. */
  function KeyLine(sec: Section, key: string): Line {
    match sec
    case Features => SettingLine(key, "true")
    case Env => SettingLine(key, ExploreValue)
    case Agents => SettingLine(key, if key == MaxThreads then "6" else "2")
  }

  /** Below a bracket line in the section the key is left as it is: nothing has to be taken out of there,
      switched on there, or added at the end. */
  predicate KeyKept(sec: Section, key: string, body: seq<Line>) {
    if sec == Features && key == Collab then HeadOnly(body, key)
    else if sec == Features then NoOpens(body) || LastKept(body, key, KeyLine(sec, key))
    else NoOpens(body) || HasKey(body, key)
  }

  /** The guard of one section. */
  predicate SectionKept(sec: Section, lines: seq<Line>) {
    HasTitle(lines, Title(sec)) ==> forall key :: key in Keys(sec) ==> KeyKept(sec, key, CutAt(lines, Title(sec)).body)
  }

  lemma KeyLines(sec: Section, key: string)
    requires key in Keys(sec) && key != Collab
    ensures Sets(KeyLine(sec, key), key) && Trim(KeyLine(sec, key)) == KeyLine(sec, key)
  {
    FeatureKeysBare();
    OtherKeysBare();
    VisibleEnds();
    hide KindOf, IsSpace, BareKey;
    match sec
    case Features => SettingTrimmed(key, "true");
    case Env => SettingTrimmed(key, ExploreValue);
    case Agents => SettingTrimmed(key, if key == MaxThreads then "6" else "2");
  }

  lemma SettingTrimmed(key: string, value: string)
    requires BareKey(key) && value != "" && !IsSpace(value[|value| - 1])
    ensures Sets(SettingLine(key, value), key) && Trim(SettingLine(key, value)) == SettingLine(key, value)
  {
    SettingLineKind(key, value);
    hide KindOf, SettingLine, TrimEnd, TrimStart;
  }

  lemma KeysDistinct()
    ensures MultiAgent != ChildAgents && MultiAgent != CodexHooks && ChildAgents != CodexHooks
    ensures Collab != MultiAgent && Collab != ChildAgents && Collab != CodexHooks && MaxThreads != MaxDepth
    ensures forall a: Section, b: Section :: a != b ==> Keys(a) !! Keys(b)
  {
    assert |MultiAgent| == 11 && |ChildAgents| == 15 && |CodexHooks| == 11 && |Collab| == 6 && |ExploreCmd| == 19;
    assert |MaxThreads| == 11 && |MaxDepth| == 9;
    assert MultiAgent[0] == 'm' && CodexHooks[0] == 'c' && MaxThreads[0] == 'm' && MultiAgent[1] == 'u' && MaxThreads[1] == 'a';
  }

  /** Outside the keys of the section, and below its header, nothing is touched. */
  ghost predicate SkipsKeys(pick: Pick, sec: Section) { forall key :: key in Keys(sec) ==> Skips(pick, key) }

  ghost predicate SkipsTitle(pick: Pick, title: string) { forall e :: pick(e) && e.table == title ==> !Opens(e.line) }

  lemma FixSkips(pick: Pick, sec: Section, body: seq<Line>)
    requires SkipsKeys(pick, sec)
    ensures Picked(pick, Title(sec), Fix(sec, body)) == Picked(pick, Title(sec), body)
  {
    hide KindOf, Trim, Picked, Skips, SetLast, DropKey, Ensure, SettingLine, HeaderLine;
    FeatureKinds();
    OtherKinds();
    var t := Title(sec);
    match sec
    case Features =>
      PickedDropKey(pick, t, body, Collab);
      var b1 := DropKey(body, Collab);
      PickedSet(pick, t, b1, MultiAgent, SettingLine(MultiAgent, "true"));
      var b2 := SetLast(b1, MultiAgent, SettingLine(MultiAgent, "true"));
      PickedSet(pick, t, b2, ChildAgents, SettingLine(ChildAgents, "true"));
      var b3 := SetLast(b2, ChildAgents, SettingLine(ChildAgents, "true"));
      PickedSet(pick, t, b3, CodexHooks, SettingLine(CodexHooks, "true"));
    case Env => PickedSet(pick, t, body, ExploreCmd, SettingLine(ExploreCmd, ExploreValue));
    case Agents =>
      PickedSet(pick, t, body, MaxThreads, SettingLine(MaxThreads, "6"));
      var b1 := Ensure(body, MaxThreads, SettingLine(MaxThreads, "6"));
      PickedSet(pick, t, b1, MaxDepth, SettingLine(MaxDepth, "2"));
  }

  /** The user's lines of a section survive its fix if each key is kept. */
  lemma FixKeeps(pick: Pick, sec: Section, body: seq<Line>)
    requires NoHeaders(body) && forall key :: key in Keys(sec) ==> LooksBelow(pick, Title(sec), key) && KeyKept(sec, key, body)
    ensures Picked(pick, Title(sec), Fix(sec, body)) == Picked(pick, Title(sec), body)
  {
    match sec
    case Features => FeaturesKeep(pick, body);
    case Env =>
      KeyLines(Env, ExploreCmd);
      hide KindOf, Trim, LooksBelow, Picked, SettingLine;
      EnsureIff(pick, Title(Env), body, ExploreCmd, SettingLine(ExploreCmd, ExploreValue));
    case Agents =>
      KeysDistinct();
      KeyLines(Agents, MaxThreads);
      KeyLines(Agents, MaxDepth);
      AgentsKeep(pick, body);
  }

  lemma AgentsKeep(pick: Pick, body: seq<Line>)
    requires NoHeaders(body) && LooksBelow(pick, Title(Agents), MaxThreads) && LooksBelow(pick, Title(Agents), MaxDepth)
    requires KeyKept(Agents, MaxThreads, body) && KeyKept(Agents, MaxDepth, body)
    ensures Picked(pick, Title(Agents), Fix(Agents, body)) == Picked(pick, Title(Agents), body)
  {
    hide KindOf, Trim, LooksBelow, Picked, SettingLine, HeaderLine, NoHeaders, HasKey, Opens;
    OtherKinds();
    var threads := SettingLine(MaxThreads, "6");
    var b1 := Ensure(body, MaxThreads, threads);
    EnsureIff(pick, Title(Agents), body, MaxThreads, threads);
    EnsureNoHeaders(body, MaxThreads, threads);
    SettingOpensNone(threads, MaxThreads);
    NoOpensSnoc(body, threads);
    KeySnoc(body, threads, MaxDepth);
    EnsureIff(pick, Title(Agents), b1, MaxDepth, SettingLine(MaxDepth, "2"));
  }

  lemma EnsureNoHeaders(body: seq<Line>, key: string, line: Line)
    requires NoHeaders(body) && Sets(line, key)
    ensures NoHeaders(Ensure(body, key, line))
  {
  }

  lemma {:induction false} ReplaceNoHeaders(body: seq<Line>, key: string, line: Line)
    requires NoHeaders(body) && Sets(line, key)
    ensures NoHeaders(SetLast(body, key, line)) && NoHeaders(DropKey(body, key))
  {
    forall l | l in SetLast(body, key, line) ensures !IsHeader(l) {
      ReplaceLastLines(body, key, line, l);
    }
    forall l | l in DropKey(body, key) ensures !IsHeader(l) {
      DropKeyDrops(body, key, l);
    }
    hide KindOf;
  }

  lemma FeaturesKeep(pick: Pick, body: seq<Line>)
    requires NoHeaders(body) && forall key :: key in Keys(Features) ==> LooksBelow(pick, Title(Features), key) && KeyKept(Features, key, body)
    ensures Picked(pick, Title(Features), Fix(Features, body)) == Picked(pick, Title(Features), body)
  {
    hide KindOf, Trim, LooksBelow, Picked, SetLast, DropKey, SettingLine, HeaderLine, NoHeaders, LastKept, HasKey, HeadOnly, Opens;
    KeysDistinct();
    FeatureKinds();
    KeyLines(Features, MultiAgent);
    KeyLines(Features, ChildAgents);
    KeyLines(Features, CodexHooks);
    var t := Title(Features);
    var m, a, h := SettingLine(MultiAgent, "true"), SettingLine(ChildAgents, "true"), SettingLine(CodexHooks, "true");
    assert KeyKept(Features, Collab, body) && KeyKept(Features, MultiAgent, body) && KeyKept(Features, ChildAgents, body) && KeyKept(Features, CodexHooks, body);
    var b1 := DropKey(body, Collab);
    DropIff(pick, t, body, Collab);
    DropNoHeaders(body, Collab);
    KeptByDrop(body, Collab, MultiAgent, m);
    KeptByDrop(body, Collab, ChildAgents, a);
    KeptByDrop(body, Collab, CodexHooks, h);
    var b2 := SetLast(b1, MultiAgent, m);
    SetIff(pick, t, b1, MultiAgent, m);
    ReplaceNoHeaders(b1, MultiAgent, m);
    KeptBySet(b1, MultiAgent, m, ChildAgents, a);
    KeptBySet(b1, MultiAgent, m, CodexHooks, h);
    var b3 := SetLast(b2, ChildAgents, a);
    SetIff(pick, t, b2, ChildAgents, a);
    ReplaceNoHeaders(b2, ChildAgents, a);
    KeptBySet(b2, ChildAgents, a, CodexHooks, h);
    SetIff(pick, t, b3, CodexHooks, h);
  }

  lemma DropNoHeaders(body: seq<Line>, key: string)
    requires NoHeaders(body)
    ensures NoHeaders(DropKey(body, key))
  {
    forall l | l in DropKey(body, key) ensures !IsHeader(l) {
      DropKeyDrops(body, key, l);
    }
    hide KindOf;
  }

  // ----- whole upserts -----

  lemma DefaultsSkipped(pick: Pick, sec: Section)
    requires Quiet(pick) && forall e :: pick(e) && e.table == Title(sec) ==> forall key :: key in Keys(sec) ==> !Sets(e.line, key)
    ensures Picked(pick, Title(sec), Defaults(sec) + [""]) == []
  {
    hide KindOf, Trim, SettingLine, HeaderLine, Picked;
    EmptyKind();
    IdleNotPicked(pick, Title(sec), "");
    forall l | l in Defaults(sec) + [""] ensures !Opens(l) && !pick(Entry(Title(sec), Trim(l))) {
      if l in Defaults(sec) {
        DefaultKey(sec, l);
        KindIgnoresTrim(l);
        SettingOpensNone(l, KindOf(l).key);
      }
    }
    PickedNone(pick, Title(sec), Defaults(sec) + [""]);
  }

  lemma DefaultKey(sec: Section, l: Line)
    requires l in Defaults(sec)
    ensures KindOf(l).Setting? && KindOf(l).key in Keys(sec)
  {
    hide KindOf, SettingLine;
    FeatureKinds();
    OtherKinds();
  }

  lemma PickedAdded(pick: Pick, table: string, sec: Section, lines: seq<Line>)
    requires Quiet(pick) && SkipsTitle(pick, Title(sec)) && !HasTitle(lines, Title(sec))
    requires forall e :: pick(e) && e.table == Title(sec) ==> forall key :: key in Keys(sec) ==> !Sets(e.line, key)
    ensures Picked(pick, table, Upsert(sec, lines)) == Picked(pick, table, lines)
  {
    hide KindOf, Trim, Picked, TableAfter, HeaderLine, Glue, TrimEndLines, IsCut, Opens, Quiet, Defaults, Upsert, HasTitle;
    AddedIsCut(sec, lines);
    var d, t := AddedCut(sec, lines), Title(sec);
    DefaultsSkipped(pick, sec);
    PickedGlue(pick, table, d, t);
    NoPicks(pick, t);
    TitleOpens(sec);
    assert HeaderEntry(pick, t) == [];
    PickedTrimEnd(pick, table, lines);
    var base := TrimEndLines(lines);
    PickedConcat(pick, table, base, Gap(sec));
    GapBlank(sec);
    PickedBlanks(pick, TableAfter(table, base), Gap(sec));
    NoPicks(pick, table);
    assert Picked(pick, table, base) + [] == Picked(pick, table, base);
    assert Picked(pick, table, d.before) + ([] + ([] + [])) == Picked(pick, table, d.before);
  }

  lemma TitleOpens(sec: Section)
    ensures Opens(Title(sec)) && Trim(Title(sec)) == Title(sec)
  {
    TitleKind(sec);
    HeaderLineKind(Name(sec));
  }

  lemma PickedFixed(pick: Pick, table: string, sec: Section, lines: seq<Line>)
    requires HasTitle(lines, Title(sec))
    ensures Picked(pick, table, Upsert(sec, lines)) == Picked(pick, table, lines)
            <==> var body := CutAt(lines, Title(sec)).body; Picked(pick, Title(sec), Fix(sec, body)) == Picked(pick, Title(sec), body)
  {
    hide KindOf, Picked, HasTitle, CutAt, IsCut, Fix, HeaderLine, Glue;
    var t := Title(sec);
    var c := CutAt(lines, t);
    CutAtIs(lines, t);
    FixesBody(sec, c);
    PickedGlue(pick, table, c, t);
    PickedGlue(pick, table, c.(body := Fix(sec, c.body)), t);
    MiddleIff(Picked(pick, table, c.before), HeaderEntry(pick, t), Picked(pick, t, Fix(sec, c.body)), Picked(pick, t, c.body),
              Picked(pick, t, c.after));
  }

  /** What is neither a key of the section nor its header is kept by every upsert. */
  lemma UpsertSkips(pick: Pick, table: string, sec: Section, lines: seq<Line>)
    requires Quiet(pick) && SkipsKeys(pick, sec) && SkipsTitle(pick, Title(sec))
    ensures Picked(pick, table, Upsert(sec, lines)) == Picked(pick, table, lines)
  {
    hide KindOf, Picked, HasTitle, CutAt, Fix, Upsert, SkipsTitle, Quiet, Keys;
    if HasTitle(lines, Title(sec)) {
      FixSkips(pick, sec, CutAt(lines, Title(sec)).body);
      PickedFixed(pick, table, sec, lines);
    } else {
      PickedAdded(pick, table, sec, lines);
    }
  }

  /** The user's lines are kept by an upsert whose guard holds. */
  lemma UpsertKeeps(pick: Pick, table: string, sec: Section, lines: seq<Line>)
    requires Quiet(pick) && SkipsTitle(pick, Title(sec)) && SectionKept(sec, lines)
    requires forall key :: key in Keys(sec) ==> LooksBelow(pick, Title(sec), key)
    ensures Picked(pick, table, Upsert(sec, lines)) == Picked(pick, table, lines)
  {
    hide KindOf, Picked, HasTitle, Fix, Upsert, SkipsTitle, Quiet, Keys, KeyKept, CutAt, NoneTitled, Glue;
    if HasTitle(lines, Title(sec)) {
      CutAtIs(lines, Title(sec));
      FixKeeps(pick, sec, CutAt(lines, Title(sec)).body);
      PickedFixed(pick, table, sec, lines);
    } else {
      PickedAdded(pick, table, sec, lines);
    }
  }

  /** The lines below a bracket line that set one key. */
  function BelowPick(key: string): Pick {
    (e: Entry) => KindOf(e.table).Opener? && Sets(e.line, key)
  }

  lemma BelowPickIs(sec: Section, key: string)
    ensures Quiet(BelowPick(key)) && SkipsTitle(BelowPick(key), Title(sec)) && LooksBelow(BelowPick(key), Title(sec), key)
    ensures forall other :: other != key ==> Skips(BelowPick(key), other)
    ensures SkipsTitle(BelowPick(key), TuiTitle)
  {
    TitleKind(sec);
    TuiTitleKind();
    hide HeaderLine, TuiTitle;
  }

  lemma FixKeyIff(sec: Section, key: string, body: seq<Line>)
    requires NoHeaders(body) && key in Keys(sec)
    ensures Picked(BelowPick(key), Title(sec), Fix(sec, body)) == Picked(BelowPick(key), Title(sec), body) <==> KeyKept(sec, key, body)
  {
    BelowPickIs(sec, key);
    KeysDistinct();
    match sec
    case Features => FeatureKeyIff(key, body);
    case Env =>
      KeyLines(Env, ExploreCmd);
      hide KindOf, Trim, LooksBelow, Picked, SettingLine, BelowPick, NoHeaders;
      EnsureIff(BelowPick(key), Title(Env), body, ExploreCmd, SettingLine(ExploreCmd, ExploreValue));
    case Agents => AgentKeyIff(key, body);
  }

  lemma AgentKeyIff(key: string, body: seq<Line>)
    requires NoHeaders(body) && key in Keys(Agents)
    ensures Picked(BelowPick(key), Title(Agents), Fix(Agents, body)) == Picked(BelowPick(key), Title(Agents), body)
            <==> KeyKept(Agents, key, body)
  {
    hide KindOf, Trim, LooksBelow, Picked, SettingLine, HeaderLine, BelowPick, NoHeaders, HasKey, Opens, Skips;
    BelowPickIs(Agents, key);
    KeysDistinct();
    OtherKinds();
    var q, t := BelowPick(key), Title(Agents);
    var threads, depth := SettingLine(MaxThreads, "6"), SettingLine(MaxDepth, "2");
    var b1 := Ensure(body, MaxThreads, threads);
    EnsureNoHeaders(body, MaxThreads, threads);
    if key == MaxThreads {
      EnsureIff(q, t, body, MaxThreads, threads);
      PickedSet(q, t, b1, MaxDepth, depth);
    } else {
      PickedSet(q, t, body, MaxThreads, threads);
      SettingOpensNone(threads, MaxThreads);
      NoOpensSnoc(body, threads);
      KeySnoc(body, threads, MaxDepth);
      EnsureIff(q, t, b1, MaxDepth, depth);
    }
  }

  lemma FeatureKeyIff(key: string, body: seq<Line>)
    requires NoHeaders(body) && key in Keys(Features)
    ensures Picked(BelowPick(key), Title(Features), Fix(Features, body)) == Picked(BelowPick(key), Title(Features), body)
            <==> KeyKept(Features, key, body)
  {
    hide KindOf, Trim, LooksBelow, Picked, SetLast, DropKey, SettingLine, HeaderLine, NoHeaders, LastKept, HasKey, HeadOnly, Opens, BelowPick, Skips;
    BelowPickIs(Features, key);
    KeysDistinct();
    FeatureKinds();
    var q, t := BelowPick(key), Title(Features);
    var m, a, h := SettingLine(MultiAgent, "true"), SettingLine(ChildAgents, "true"), SettingLine(CodexHooks, "true");
    var b1 := DropKey(body, Collab);
    var b2 := SetLast(b1, MultiAgent, m);
    var b3 := SetLast(b2, ChildAgents, a);
    DropNoHeaders(body, Collab);
    ReplaceNoHeaders(b1, MultiAgent, m);
    ReplaceNoHeaders(b2, ChildAgents, a);
    if key == Collab {
      DropIff(q, t, body, Collab);
    } else {
      PickedDropKey(q, t, body, Collab);
      KeptByDrop(body, Collab, key, KeyLine(Features, key));
      KeyLines(Features, key);
    }
    if key == MultiAgent {
      SetIff(q, t, b1, MultiAgent, m);
    } else {
      PickedSet(q, t, b1, MultiAgent, m);
      KeptBySet(b1, MultiAgent, m, key, KeyLine(Features, key));
    }
    if key == ChildAgents {
      SetIff(q, t, b2, ChildAgents, a);
    } else {
      PickedSet(q, t, b2, ChildAgents, a);
      KeptBySet(b2, ChildAgents, a, key, KeyLine(Features, key));
    }
    if key == CodexHooks {
      SetIff(q, t, b3, CodexHooks, h);
    } else {
      PickedSet(q, t, b3, CodexHooks, h);
    }
  }

  /** Key by key: the upsert leaves the lines below bracket lines alone exactly when the guard holds. */
  lemma UpsertKeyIff(sec: Section, key: string, table: string, lines: seq<Line>)
    requires key in Keys(sec)
    ensures Picked(BelowPick(key), table, Upsert(sec, lines)) == Picked(BelowPick(key), table, lines)
            <==> (HasTitle(lines, Title(sec)) ==> KeyKept(sec, key, CutAt(lines, Title(sec)).body))
  {
    hide KindOf, Picked, HasTitle, Fix, Upsert, BelowPick, Keys, KeyKept, CutAt, NoneTitled, Glue, LooksBelow;
    BelowPickIs(sec, key);
    if HasTitle(lines, Title(sec)) {
      CutAtIs(lines, Title(sec));
      FixKeyIff(sec, key, CutAt(lines, Title(sec)).body);
      PickedFixed(BelowPick(key), table, sec, lines);
    } else {
      BelowNotTitle(sec, key);
      PickedAdded(BelowPick(key), table, sec, lines);
    }
  }

  lemma BelowNotTitle(sec: Section, key: string)
    ensures forall e :: BelowPick(key)(e) ==> e.table != Title(sec)
  {
    TitleKind(sec);
    hide HeaderLine;
  }
}
