/** The [features], [env] and [agents] sections of src/config/generator.ts: what setup puts into
    them and what uninstall takes out again. */
module ConfigSections {
  import opened Text
  import opened ConfigLines

  // ----- finding a section -----

  predicate NoneTitled(lines: seq<Line>, title: string) { forall l :: l in lines ==> !Titled(l, title) }
  predicate NoHeaders(lines: seq<Line>) { forall l :: l in lines ==> !IsHeader(l) }
  predicate StartsSection(lines: seq<Line>) { lines == [] || IsHeader(lines[0]) }

  /** Index of the first line with that title, or the number of lines. */
  function TitleAt(lines: seq<Line>, title: string): (i: nat)
    ensures i <= |lines|
  {
    if lines == [] || Titled(lines[0], title) then 0 else 1 + TitleAt(lines[1..], title)
  }

  predicate HasTitle(lines: seq<Line>, title: string) { TitleAt(lines, title) < |lines| }

  /** Number of lines before the first header. */
  function BodyLength(lines: seq<Line>): (n: nat)
    ensures n <= |lines|
  {
    if lines == [] || IsHeader(lines[0]) then 0 else 1 + BodyLength(lines[1..])
  }

  /** `lines` cut at the first section with that title. */
  datatype Cut = Cut(before: seq<Line>, header: Line, body: seq<Line>, after: seq<Line>)

  function Glue(c: Cut): seq<Line> { c.before + [c.header] + c.body + c.after }

  predicate IsCut(c: Cut, title: string) {
    NoneTitled(c.before, title) && Titled(c.header, title) && NoHeaders(c.body) && StartsSection(c.after)
  }

  function CutAt(lines: seq<Line>, title: string): Cut
    requires HasTitle(lines, title)
  {
    var s := TitleAt(lines, title);
    var rest := lines[s + 1..];
    var n := BodyLength(rest);
    Cut(lines[..s], lines[s], rest[..n], rest[n..])
  }

  lemma {:induction false} TitleAtIs(lines: seq<Line>, title: string)
    ensures var s := TitleAt(lines, title);
            NoneTitled(lines[..s], title) && (s < |lines| ==> Titled(lines[s], title))
  {
    if lines != [] && !Titled(lines[0], title) {
      TitleAtIs(lines[1..], title);
      var s := TitleAt(lines, title);
      assert lines[..s] == [lines[0]] + lines[1..][..s - 1];
    }
  }

  lemma {:induction false} BodyLengthIs(lines: seq<Line>)
    ensures var n := BodyLength(lines);
            NoHeaders(lines[..n]) && StartsSection(lines[n..])
  {
    if lines != [] && !IsHeader(lines[0]) {
      BodyLengthIs(lines[1..]);
      var n := BodyLength(lines);
      assert lines[..n] == [lines[0]] + lines[1..][..n - 1];
      assert lines[n..] == lines[1..][n - 1..];
    }
  }

  lemma CutAtIs(lines: seq<Line>, title: string)
    requires HasTitle(lines, title)
    ensures IsCut(CutAt(lines, title), title) && Glue(CutAt(lines, title)) == lines
  {
    hide KindOf, NoneTitled, NoHeaders, StartsSection, TitleAt, BodyLength;
    TitleAtIs(lines, title);
    var s := TitleAt(lines, title);
    var rest := lines[s + 1..];
    BodyLengthIs(rest);
    assert rest == rest[..BodyLength(rest)] + rest[BodyLength(rest)..];
    assert lines == lines[..s] + [lines[s]] + rest;
  }

  lemma {:induction false} TitleAtSkips(before: seq<Line>, rest: seq<Line>, title: string)
    requires NoneTitled(before, title)
    ensures TitleAt(before + rest, title) == |before| + TitleAt(rest, title)
  {
    if before == [] {
      assert before + rest == rest;
    } else {
      assert before[0] in before;
      assert (before + rest)[1..] == before[1..] + rest;
      TitleAtSkips(before[1..], rest, title);
    }
  }

  lemma {:induction false} BodyLengthSkips(body: seq<Line>, after: seq<Line>)
    requires NoHeaders(body) && StartsSection(after)
    ensures BodyLength(body + after) == |body|
  {
    if body == [] {
      assert body + after == after;
    } else {
      assert body[0] in body;
      assert (body + after)[1..] == body[1..] + after;
      BodyLengthSkips(body[1..], after);
    }
  }

  /** The cut at the first section is unique. */
  lemma CutAtGlue(c: Cut, title: string)
    requires IsCut(c, title)
    ensures HasTitle(Glue(c), title) && CutAt(Glue(c), title) == c
  {
    hide KindOf, NoneTitled, NoHeaders, StartsSection, BodyLength;
    var rest := [c.header] + c.body + c.after;
    assert Glue(c) == c.before + rest;
    TitleAtSkips(c.before, rest, title);
    assert TitleAt(rest, title) == 0;
    hide TitleAt;
    var s := |c.before|;
    assert Glue(c)[s] == c.header && Glue(c)[..s] == c.before;
    assert Glue(c)[s + 1..] == c.body + c.after;
    BodyLengthSkips(c.body, c.after);
  }

  lemma NoTitleAt(lines: seq<Line>, title: string)
    ensures HasTitle(lines, title) <==> !NoneTitled(lines, title)
  {
    TitleAtIs(lines, title);
    if HasTitle(lines, title) {
      assert lines[TitleAt(lines, title)] in lines;
    } else {
      assert lines[..|lines|] == lines;
    }
  }

  // ----- keys of a section body -----

  predicate HasKey(body: seq<Line>, key: string) { exists l :: l in body && Sets(l, key) }

  function DropKey(body: seq<Line>, key: string): seq<Line> {
    if body == [] then []
    else
      var n := |body| - 1;
      DropKey(body[..n], key) + (if Sets(body[n], key) then [] else [body[n]])
  }

  /** The last line that sets the key becomes `line`. */
  function ReplaceLast(body: seq<Line>, key: string, line: Line): seq<Line> {
    if body == [] then []
    else
      var n := |body| - 1;
      if Sets(body[n], key) then body[..n] + [line] else ReplaceLast(body[..n], key, line) + [body[n]]
  }

  function Ensure(body: seq<Line>, key: string, line: Line): seq<Line> {
    if HasKey(body, key) then body else body + [line]
  }

  function SetLast(body: seq<Line>, key: string, line: Line): seq<Line> {
    if HasKey(body, key) then ReplaceLast(body, key, line) else body + [line]
  }

  function Without(body: seq<Line>, keys: set<string>): seq<Line> {
    if body == [] then []
    else
      var n := |body| - 1;
      Without(body[..n], keys) + (if KindOf(body[n]).Setting? && KindOf(body[n]).key in keys then [] else [body[n]])
  }

  predicate AllBlank(lines: seq<Line>) { forall l :: l in lines ==> IsBlank(l) }

  // ----- the three sections -----

  datatype Section = Features | Env | Agents

  function Name(sec: Section): string {
    match sec case Features => "features" case Env => "env" case Agents => "agents"
  }

  function Title(sec: Section): string { HeaderLine(Name(sec)) }

  const MultiAgent := "multi_agent"
  const ChildAgents := "child_agents_md"
  const CodexHooks := "codex_hooks"
  const Collab := "collab"
  const ExploreCmd := "USE_OMX_EXPLORE_CMD"
  const MaxThreads := "max_threads"
  const MaxDepth := "max_depth"

  const ExploreValue := "\"1\""

  /** The keys uninstall removes. */
  function Managed(sec: Section): set<string> {
    match sec
    case Features => {MultiAgent, ChildAgents, CodexHooks, Collab}
    case Env => {ExploreCmd}
    case Agents => {}
  }

  function Defaults(sec: Section): seq<Line> {
    match sec
    case Features => [SettingLine(MultiAgent, "true"), SettingLine(ChildAgents, "true"), SettingLine(CodexHooks, "true")]
    case Env => [SettingLine(ExploreCmd, ExploreValue)]
    case Agents => [SettingLine(MaxThreads, "6"), SettingLine(MaxDepth, "2")]
  }

  /** A new section is separated from what precedes it by a blank line, except [features]. */
  function Gap(sec: Section): seq<Line> { if sec == Features then [] else [""] }

  function Block(sec: Section): seq<Line> { [Title(sec)] + Defaults(sec) + [""] }

  /** What setup makes of an existing section body. */
  function Fix(sec: Section, body: seq<Line>): seq<Line> {
    match sec
    case Features =>
      SetLast(SetLast(SetLast(DropKey(body, Collab), MultiAgent, SettingLine(MultiAgent, "true")),
                      ChildAgents, SettingLine(ChildAgents, "true")),
              CodexHooks, SettingLine(CodexHooks, "true"))
    case Env => Ensure(body, ExploreCmd, SettingLine(ExploreCmd, ExploreValue))
    case Agents =>
      Ensure(Ensure(body, MaxThreads, SettingLine(MaxThreads, "6")), MaxDepth, SettingLine(MaxDepth, "2"))
  }

  function Upsert(sec: Section, lines: seq<Line>): seq<Line> {
    if HasTitle(lines, Title(sec)) then
      var c := CutAt(lines, Title(sec));
      Glue(c.(body := Fix(sec, c.body)))
    else
      var base := TrimEndLines(lines);
      if base == [] then Block(sec) else base + Gap(sec) + Block(sec)
  }

  function Strip(sec: Section, lines: seq<Line>): seq<Line> {
    if !HasTitle(lines, Title(sec)) then lines
    else
      var c := CutAt(lines, Title(sec));
      var left := Without(c.body, Managed(sec));
      if AllBlank(left) then c.before + c.after else Glue(c.(body := left))
  }

  // ----- the fixed lines -----

  lemma TitleKind(sec: Section)
    ensures KindOf(Title(sec)) == Table(Title(sec))
    ensures TrimEnd(Title(sec)) == Title(sec)
  {
    HeaderLineKind(Name(sec));
  }

  lemma FeatureKinds()
    ensures Sets(SettingLine(MultiAgent, "true"), MultiAgent)
    ensures Sets(SettingLine(ChildAgents, "true"), ChildAgents)
    ensures Sets(SettingLine(CodexHooks, "true"), CodexHooks)
  {
    hide KindOf, IsSpace;
    FeatureKeysBare();
    VisibleEnds();
    SettingLineKind(MultiAgent, "true");
    SettingLineKind(ChildAgents, "true");
    SettingLineKind(CodexHooks, "true");
  }

  lemma VisibleEnds()
    ensures !IsSpace('e') && !IsSpace('"') && !IsSpace('6') && !IsSpace('2')
  {
  }

  lemma FeatureKeysBare()
    ensures BareKey(MultiAgent) && BareKey(ChildAgents) && BareKey(CodexHooks)
  {
    assert BareKey(MultiAgent);
    ChildAgentsBare();
  }

  lemma ChildAgentsBare()
    ensures BareKey(ChildAgents)
  {
  }

  lemma OtherKinds()
    ensures Sets(SettingLine(ExploreCmd, ExploreValue), ExploreCmd)
    ensures Sets(SettingLine(MaxThreads, "6"), MaxThreads) && Sets(SettingLine(MaxDepth, "2"), MaxDepth)
  {
    hide KindOf, IsSpace;
    OtherKeysBare();
    VisibleEnds();
    SettingLineKind(ExploreCmd, ExploreValue);
    SettingLineKind(MaxThreads, "6");
    SettingLineKind(MaxDepth, "2");
  }

  lemma OtherKeysBare()
    ensures BareKey(ExploreCmd) && BareKey(MaxThreads) && BareKey(MaxDepth)
  {
  }

  // ----- what fixing a body does -----

  lemma {:induction false} DropKeyDrops(body: seq<Line>, key: string, l: Line)
    ensures l in DropKey(body, key) <==> l in body && !Sets(l, key)
  {
    if body != [] {
      var n := |body| - 1;
      DropKeyDrops(body[..n], key, l);
      assert body == body[..n] + [body[n]];
    }
  }

  lemma {:induction false} DropKeyAbsent(body: seq<Line>, key: string)
    requires !HasKey(body, key)
    ensures DropKey(body, key) == body
  {
    hide KindOf;
    if body != [] {
      var n := |body| - 1;
      assert body[n] in body;
      DropKeyAbsent(body[..n], key);
    }
  }

  /** The key is set, and its last setting is `line`. */
  predicate LastSet(body: seq<Line>, key: string, line: Line) {
    body != []
    && (var n := |body| - 1; if Sets(body[n], key) then body[n] == line else LastSet(body[..n], key, line))
  }

  lemma {:induction false} LastSetHas(body: seq<Line>, key: string, line: Line)
    requires LastSet(body, key, line)
    ensures HasKey(body, key)
  {
    var n := |body| - 1;
    assert body[n] in body;
    if !Sets(body[n], key) {
      LastSetHas(body[..n], key, line);
    }
  }

  lemma {:induction false} SetLastFixed(body: seq<Line>, key: string, line: Line)
    requires LastSet(body, key, line)
    ensures ReplaceLast(body, key, line) == body
  {
    var n := |body| - 1;
    assert body == body[..n] + [body[n]];
    if !Sets(body[n], key) {
      SetLastFixed(body[..n], key, line);
    }
  }

  lemma {:induction false} ReplaceLastSets(body: seq<Line>, key: string, line: Line)
    requires HasKey(body, key) && Sets(line, key)
    ensures LastSet(ReplaceLast(body, key, line), key, line)
  {
    var n := |body| - 1;
    assert body == body[..n] + [body[n]];
    if !Sets(body[n], key) {
      ReplaceLastSets(body[..n], key, line);
    }
  }

  lemma SetLastSets(body: seq<Line>, key: string, line: Line)
    requires Sets(line, key)
    ensures LastSet(SetLast(body, key, line), key, line)
  {
    if HasKey(body, key) {
      ReplaceLastSets(body, key, line);
    }
  }

  /** Setting one key leaves the others alone. */
  lemma {:induction false} ReplaceLastOther(body: seq<Line>, key: string, line: Line, other: string, kept: Line)
    requires Sets(line, key) && other != key
    ensures LastSet(ReplaceLast(body, key, line), other, kept) == LastSet(body, other, kept)
    ensures HasKey(ReplaceLast(body, key, line), other) ==> HasKey(body, other)
  {
    hide KindOf;
    if body != [] {
      var n := |body| - 1;
      assert body == body[..n] + [body[n]];
      ReplaceLastOther(body[..n], key, line, other, kept);
    }
  }

  lemma SetLastOther(body: seq<Line>, key: string, line: Line, other: string, kept: Line)
    requires Sets(line, key) && other != key
    ensures LastSet(SetLast(body, key, line), other, kept) == LastSet(body, other, kept)
    ensures HasKey(SetLast(body, key, line), other) ==> HasKey(body, other)
  {
    ReplaceLastOther(body, key, line, other, kept);
  }

  lemma {:induction false} ReplaceLastWithout(body: seq<Line>, key: string, line: Line, keys: set<string>)
    requires Sets(line, key) && key in keys
    ensures Without(ReplaceLast(body, key, line), keys) == Without(body, keys)
  {
    if body != [] {
      var n := |body| - 1;
      ReplaceLastWithout(body[..n], key, line, keys);
    }
  }

  lemma SetLastWithout(body: seq<Line>, key: string, line: Line, keys: set<string>)
    requires Sets(line, key) && key in keys
    ensures Without(SetLast(body, key, line), keys) == Without(body, keys)
  {
    ReplaceLastWithout(body, key, line, keys);
  }

  lemma {:induction false} DropKeyWithout(body: seq<Line>, key: string, keys: set<string>)
    requires key in keys
    ensures Without(DropKey(body, key), keys) == Without(body, keys)
  {
    if body != [] {
      var n := |body| - 1;
      DropKeyWithout(body[..n], key, keys);
      var dropped := DropKey(body[..n], key);
      if Sets(body[n], key) {
        assert DropKey(body, key) == dropped;
      } else {
        assert (dropped + [body[n]])[..|dropped|] == dropped;
      }
    }
  }

  /** Uninstall cannot tell a fixed body from the original. */
  lemma FixIsUnseen(sec: Section, body: seq<Line>)
    requires sec != Agents
    ensures Without(Fix(sec, body), Managed(sec)) == Without(body, Managed(sec))
  {
    hide KindOf, Sets, SetLast, Without, DropKey, ReplaceLast, SettingLine;
    FeatureKinds();
    OtherKinds();
    match sec
    case Features =>
      var keys := Managed(Features);
      DropKeyWithout(body, Collab, keys);
      var b1 := DropKey(body, Collab);
      SetLastWithout(b1, MultiAgent, SettingLine(MultiAgent, "true"), keys);
      var b2 := SetLast(b1, MultiAgent, SettingLine(MultiAgent, "true"));
      SetLastWithout(b2, ChildAgents, SettingLine(ChildAgents, "true"), keys);
      var b3 := SetLast(b2, ChildAgents, SettingLine(ChildAgents, "true"));
      SetLastWithout(b3, CodexHooks, SettingLine(CodexHooks, "true"), keys);
    case Env => EnsureWithout(body, ExploreCmd, SettingLine(ExploreCmd, ExploreValue), Managed(Env));
  }

  lemma EnsureWithout(body: seq<Line>, key: string, line: Line, keys: set<string>)
    requires Sets(line, key) && key in keys
    ensures Without(Ensure(body, key, line), keys) == Without(body, keys)
  {
  }

  /** The state setup aims for: no [features] flag left to its default. */
  predicate Fixed(sec: Section, body: seq<Line>) {
    match sec
    case Features =>
      && !HasKey(body, Collab)
      && LastSet(body, MultiAgent, SettingLine(MultiAgent, "true"))
      && LastSet(body, ChildAgents, SettingLine(ChildAgents, "true"))
      && LastSet(body, CodexHooks, SettingLine(CodexHooks, "true"))
    case Env => HasKey(body, ExploreCmd)
    case Agents => HasKey(body, MaxThreads) && HasKey(body, MaxDepth)
  }

  lemma FixFixes(sec: Section, body: seq<Line>)
    ensures Fixed(sec, Fix(sec, body))
  {
    hide KindOf, SettingLine;
    match sec
    case Features => FixFixesFeatures(body);
    case Env =>
      OtherKinds();
      EnsureHas(body, ExploreCmd, SettingLine(ExploreCmd, ExploreValue));
    case Agents =>
      OtherKinds();
      var inner := Ensure(body, MaxThreads, SettingLine(MaxThreads, "6"));
      EnsureHas(body, MaxThreads, SettingLine(MaxThreads, "6"));
      EnsureHas(inner, MaxDepth, SettingLine(MaxDepth, "2"));
      assert HasKey(Fix(sec, body), MaxThreads) by {
        var l :| l in inner && Sets(l, MaxThreads);
        assert l in Fix(sec, body);
      }
  }

  lemma EnsureHas(body: seq<Line>, key: string, line: Line)
    requires Sets(line, key)
    ensures HasKey(Ensure(body, key, line), key)
    ensures forall l :: l in body ==> l in Ensure(body, key, line)
  {
    assert line in body + [line];
  }

  lemma FixFixesFeatures(body: seq<Line>)
    ensures Fixed(Features, Fix(Features, body))
  {
    hide KindOf, Sets, SetLast, DropKey, ReplaceLast, SettingLine, LastSet, HasKey;
    FeatureKinds();
    var m, a, h := SettingLine(MultiAgent, "true"), SettingLine(ChildAgents, "true"), SettingLine(CodexHooks, "true");
    var b1 := DropKey(body, Collab);
    DroppedKeyGone(body, Collab);
    var b2 := SetLast(b1, MultiAgent, m);
    SetLastSets(b1, MultiAgent, m);
    SetLastOther(b1, MultiAgent, m, Collab, m);
    var b3 := SetLast(b2, ChildAgents, a);
    SetLastSets(b2, ChildAgents, a);
    SetLastOther(b2, ChildAgents, a, Collab, m);
    SetLastOther(b2, ChildAgents, a, MultiAgent, m);
    SetLastSets(b3, CodexHooks, h);
    SetLastOther(b3, CodexHooks, h, Collab, m);
    SetLastOther(b3, CodexHooks, h, MultiAgent, m);
    SetLastOther(b3, CodexHooks, h, ChildAgents, a);
  }

  lemma DroppedKeyGone(body: seq<Line>, key: string)
    ensures !HasKey(DropKey(body, key), key)
  {
    if HasKey(DropKey(body, key), key) {
      var l :| l in DropKey(body, key) && Sets(l, key);
      DropKeyDrops(body, key, l);
    }
  }

  /** Fixing is the identity exactly on fixed bodies. */
  lemma FixedIff(sec: Section, body: seq<Line>)
    ensures Fix(sec, body) == body <==> Fixed(sec, body)
  {
    FixFixes(sec, body);
    if Fixed(sec, body) {
      if sec == Features {
        LastSetHas(body, MultiAgent, SettingLine(MultiAgent, "true"));
        LastSetHas(body, ChildAgents, SettingLine(ChildAgents, "true"));
        LastSetHas(body, CodexHooks, SettingLine(CodexHooks, "true"));
        DropKeyAbsent(body, Collab);
        SetLastFixed(body, MultiAgent, SettingLine(MultiAgent, "true"));
        SetLastFixed(body, ChildAgents, SettingLine(ChildAgents, "true"));
        SetLastFixed(body, CodexHooks, SettingLine(CodexHooks, "true"));
      }
    }
  }

  // ----- headers stay out of bodies -----

  lemma {:induction false} ReplaceLastLines(body: seq<Line>, key: string, line: Line, l: Line)
    ensures l in ReplaceLast(body, key, line) ==> l in body || l == line
    decreases |body|
  {
    if body != [] {
      var n := |body| - 1;
      ReplaceLastLines(body[..n], key, line, l);
      assert body == body[..n] + [body[n]];
    }
  }

  lemma FixLines(sec: Section, body: seq<Line>, l: Line)
    ensures l in Fix(sec, body) ==> l in body || l in Defaults(sec)
  {
    hide KindOf, Sets, SettingLine, ReplaceLast, DropKey, HasKey;
    match sec
    case Features =>
      var m, a, h := SettingLine(MultiAgent, "true"), SettingLine(ChildAgents, "true"), SettingLine(CodexHooks, "true");
      var b1 := DropKey(body, Collab);
      DropKeyDrops(body, Collab, l);
      var b2 := SetLast(b1, MultiAgent, m);
      ReplaceLastLines(b1, MultiAgent, m, l);
      var b3 := SetLast(b2, ChildAgents, a);
      ReplaceLastLines(b2, ChildAgents, a, l);
      ReplaceLastLines(b3, CodexHooks, h, l);
    case _ =>
  }

  lemma DefaultKinds(sec: Section, l: Line)
    requires l in Defaults(sec)
    ensures KindOf(l).Setting?
  {
    hide KindOf, SettingLine;
    FeatureKinds();
    OtherKinds();
  }

  lemma FixNoHeaders(sec: Section, body: seq<Line>)
    requires NoHeaders(body)
    ensures NoHeaders(Fix(sec, body))
  {
    forall l | l in Fix(sec, body) ensures !IsHeader(l) {
      FixLines(sec, body, l);
      if l !in body { DefaultKinds(sec, l); }
    }
  }

  lemma {:induction false} WithoutLines(body: seq<Line>, keys: set<string>, l: Line)
    ensures l in Without(body, keys) <==> l in body && !(KindOf(l).Setting? && KindOf(l).key in keys)
  {
    if body != [] {
      var n := |body| - 1;
      WithoutLines(body[..n], keys, l);
      assert body == body[..n] + [body[n]];
    }
  }

  lemma WithoutNoHeaders(body: seq<Line>, keys: set<string>)
    requires NoHeaders(body)
    ensures NoHeaders(Without(body, keys))
  {
    forall l | l in Without(body, keys) ensures !IsHeader(l) {
      WithoutLines(body, keys, l);
    }
  }

  // ----- a section that is not there -----

  lemma {:induction false} TrimEndLinesFrom(lines: seq<Line>, l: Line)
    requires l in TrimEndLines(lines)
    ensures exists k :: k in lines && KindOf(k) == KindOf(l) && (l == k || l == TrimEnd(k))
    ensures TrimEndLines(lines) != []
  {
    var n := |lines| - 1;
    assert lines == lines[..n] + [lines[n]];
    if IsBlank(lines[n]) {
      TrimEndLinesFrom(lines[..n], l);
    } else if l == TrimEnd(lines[n]) {
      KindIgnoresTrim(lines[n]);
    }
  }

  lemma TrimKeepsAbsent(lines: seq<Line>, title: string)
    requires NoneTitled(lines, title)
    ensures NoneTitled(TrimEndLines(lines), title)
  {
    forall l | l in TrimEndLines(lines) ensures !Titled(l, title) {
      TrimEndLinesFrom(lines, l);
    }
  }

  /** Where setup had to add the section, this is the cut it leaves. */
  function AddedCut(sec: Section, lines: seq<Line>): Cut {
    var base := TrimEndLines(lines);
    Cut(if base == [] then [] else base + Gap(sec), Title(sec), Defaults(sec) + [""], [])
  }

  lemma AddedIsCut(sec: Section, lines: seq<Line>)
    requires !HasTitle(lines, Title(sec))
    ensures IsCut(AddedCut(sec, lines), Title(sec)) && Glue(AddedCut(sec, lines)) == Upsert(sec, lines)
  {
    hide KindOf, TrimEndLines, HasTitle, HeaderLine;
    NoTitleAt(lines, Title(sec));
    TrimKeepsAbsent(lines, Title(sec));
    TitleKind(sec);
    EmptyKind();
    var c := AddedCut(sec, lines);
    forall l | l in c.body ensures !IsHeader(l) {
      if l in Defaults(sec) { DefaultKinds(sec, l); }
    }
    assert Glue(c) == c.before + Block(sec);
  }

  lemma EmptyKind()
    ensures KindOf("") == Empty
  {
  }

  lemma DefaultsAreFixed(sec: Section)
    ensures Fixed(sec, Defaults(sec) + [""])
  {
    hide KindOf, SettingLine;
    FeatureKinds();
    OtherKinds();
    EmptyKind();
    var body := Defaults(sec) + [""];
    match sec
    case Features =>
      FixedFeatures(SettingLine(MultiAgent, "true"), SettingLine(ChildAgents, "true"), SettingLine(CodexHooks, "true"), body);
    case Env => assert SettingLine(ExploreCmd, ExploreValue) in body;
    case Agents =>
      assert SettingLine(MaxThreads, "6") in body && SettingLine(MaxDepth, "2") in body;
  }

  lemma FixedFeatures(m: Line, a: Line, h: Line, body: seq<Line>)
    requires body == [m, a, h] + [""] && Sets(m, MultiAgent) && Sets(a, ChildAgents) && Sets(h, CodexHooks)
    ensures !HasKey(body, Collab) && LastSet(body, MultiAgent, m) && LastSet(body, ChildAgents, a) && LastSet(body, CodexHooks, h)
  {
    hide KindOf;
    EmptyKind();
    LastSetAt(body, MultiAgent, m, 0);
    LastSetAt(body, ChildAgents, a, 1);
    LastSetAt(body, CodexHooks, h, 2);
  }

  lemma {:induction false} LastSetAt(body: seq<Line>, key: string, line: Line, i: nat)
    requires i < |body| && body[i] == line && Sets(line, key)
    requires forall j :: i < j < |body| ==> !Sets(body[j], key)
    ensures LastSet(body, key, line)
    decreases |body|
  {
    if i < |body| - 1 {
      LastSetAt(body[..|body| - 1], key, line, i);
    }
  }

  // ----- the laws -----

  /** What setup leaves: the section is there, and its body is fixed. */
  lemma UpsertEstablishes(sec: Section, lines: seq<Line>)
    ensures HasTitle(Upsert(sec, lines), Title(sec))
    ensures Fixed(sec, CutAt(Upsert(sec, lines), Title(sec)).body)
  {
    hide KindOf, HasTitle, Fix, Fixed, Glue, IsCut, CutAt;
    if HasTitle(lines, Title(sec)) {
      var c := CutAt(lines, Title(sec));
      CutAtIs(lines, Title(sec));
      FixesBody(sec, c);
      FixFixes(sec, c.body);
      CutAtGlue(c.(body := Fix(sec, c.body)), Title(sec));
    } else {
      AddedIsCut(sec, lines);
      DefaultsAreFixed(sec);
      CutAtGlue(AddedCut(sec, lines), Title(sec));
    }
  }

  lemma FixesBody(sec: Section, c: Cut)
    requires IsCut(c, Title(sec))
    ensures IsCut(c.(body := Fix(sec, c.body)), Title(sec))
  {
    FixNoHeaders(sec, c.body);
  }

  /** A second setup changes nothing. */
  lemma UpsertTwice(sec: Section, lines: seq<Line>)
    ensures Upsert(sec, Upsert(sec, lines)) == Upsert(sec, lines)
  {
    hide KindOf, HasTitle, Fix, Fixed, Glue, IsCut, CutAt;
    UpsertEstablishes(sec, lines);
    var once := Upsert(sec, lines);
    CutAtIs(once, Title(sec));
    FixedIff(sec, CutAt(once, Title(sec)).body);
  }

  /** Uninstall after setup is uninstall; where the section was not there before, it is the text
      without its trailing blanks, up to the blank line put before [env]. */
  lemma StripUndoesUpsert(sec: Section, lines: seq<Line>)
    requires sec != Agents
    ensures Strip(sec, Upsert(sec, lines))
         == if HasTitle(lines, Title(sec)) then Strip(sec, lines) else AddedCut(sec, lines).before
  {
    hide KindOf, HasTitle, Fix, IsCut, CutAt, Without, AllBlank, NoneTitled, NoHeaders;
    if HasTitle(lines, Title(sec)) {
      var c := CutAt(lines, Title(sec));
      CutAtIs(lines, Title(sec));
      FixesBody(sec, c);
      CutAtGlue(c.(body := Fix(sec, c.body)), Title(sec));
      FixIsUnseen(sec, c.body);
    } else {
      AddedIsCut(sec, lines);
      CutAtGlue(AddedCut(sec, lines), Title(sec));
      DefaultsAreManaged(sec);
      assert AddedCut(sec, lines).before + [] == AddedCut(sec, lines).before;
    }
  }

  lemma DefaultsAreManaged(sec: Section)
    requires sec != Agents
    ensures AllBlank(Without(Defaults(sec) + [""], Managed(sec)))
  {
    hide KindOf, SettingLine;
    FeatureKinds();
    OtherKinds();
    EmptyKind();
    forall l | l in Without(Defaults(sec) + [""], Managed(sec)) ensures IsBlank(l) {
      WithoutLines(Defaults(sec) + [""], Managed(sec), l);
    }
  }
}
