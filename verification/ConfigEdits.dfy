/** The section edits of src/config/generator.ts as they work on the line array, and their effect on
    the text of the file. */
module ConfigEdits {
  import opened Text
  import opened ConfigLines
  import opened ConfigSections

  // ----- loops over the line array -----

  /** First line with the title, and the end of its section; -1 when there is none. */
  method FindSection(lines: seq<Line>, title: string) returns (start: int, end: nat)
    ensures start == -1 <==> !HasTitle(lines, title)
    ensures start != -1 ==> var c := CutAt(lines, title);
                            && IsCut(c, title) && Glue(c) == lines
                            && start == |c.before| && end == start + 1 + |c.body| <= |lines|
  {
    hide KindOf, IsCut, Glue;
    start := 0;
    while start < |lines| && !Titled(lines[start], title)
      invariant 0 <= start <= |lines|
      invariant TitleAt(lines, title) == start + TitleAt(lines[start..], title)
    {
      start := start + 1;
    }
    if start == |lines| {
      return -1, |lines|;
    }
    CutAtIs(lines, title);
    end := start + 1;
    ghost var rest := lines[start + 1..];
    while end < |lines| && !IsHeader(lines[end])
      invariant start < end <= |lines|
      invariant BodyLength(rest) == (end - start - 1) + BodyLength(lines[end..])
    {
      end := end + 1;
    }
  }

  lemma {:induction false} DropKeyConcat(a: seq<Line>, b: seq<Line>, key: string)
    ensures DropKey(a + b, key) == DropKey(a, key) + DropKey(b, key)
    decreases |b|
  {
    hide KindOf, Sets;
    if b == [] {
      assert a + b == a;
    } else {
      var n := |b| - 1;
      assert (a + b)[..|a| + n] == a + b[..n] && (a + b)[|a| + n] == b[n];
      DropKeyConcat(a, b[..n], key);
    }
  }

  /** The section while its lines are looked at from the last one down: `k` lines are left. */
  function Spliced(c: Cut, k: nat, key: string): seq<Line>
    requires k <= |c.body|
  {
    Glue(c.(body := c.body[..k] + DropKey(c.body[k..], key)))
  }

  lemma SpliceStep(c: Cut, k: nat, key: string)
    requires 0 < k <= |c.body|
    ensures var r := Spliced(c, k, key);
            var i := |c.before| + k;
            && i < |r| && r[i] == c.body[k - 1]
            && Spliced(c, k - 1, key) == if Sets(r[i], key) then r[..i] + r[i + 1..] else r
    ensures |DropKey(c.body[k - 1..], key)| == |DropKey(c.body[k..], key)| + if Sets(c.body[k - 1], key) then 0 else 1
  {
    hide KindOf, Sets, Glue, DropKey;
    var l := c.body[k - 1];
    var front, tail := c.body[..k - 1], DropKey(c.body[k..], key);
    assert c.body[..k] == front + [l];
    assert c.body[k - 1..] == [l] + c.body[k..];
    DropKeyConcat([l], c.body[k..], key);
    DropOne(l, key);
    GlueMiddle(c, front, l, tail);
    SpliceAt(c.before + [c.header] + front, l, tail + c.after);
    if Sets(l, key) {
      assert front + ([] + tail) == front + tail;
    } else {
      assert front + ([l] + tail) == front + [l] + tail;
    }
  }

  lemma GlueMiddle(c: Cut, a: seq<Line>, l: Line, b: seq<Line>)
    ensures Glue(c.(body := a + [l] + b)) == (c.before + [c.header] + a) + [l] + (b + c.after)
    ensures Glue(c.(body := a + b)) == (c.before + [c.header] + a) + (b + c.after)
  {
  }

  lemma DropOne(l: Line, key: string)
    ensures DropKey([l], key) == if Sets(l, key) then [] else [l]
  {
  }

  lemma SpliceAt(head: seq<Line>, l: Line, rest: seq<Line>)
    ensures var r := head + [l] + rest;
            var i := |head|;
            r[i] == l && r[..i] + r[i + 1..] == head + rest
  {
    var r := head + [l] + rest;
    assert r[..|head|] == head && r[|head| + 1..] == rest;
  }

  /** The downward loop that splices the deprecated key out of the section. */
  method SpliceOut(lines: seq<Line>, ghost c: Cut, start: nat, end: nat, key: string) returns (r: seq<Line>, last: nat)
    requires lines == Glue(c) && start == |c.before| && end == start + 1 + |c.body|
    ensures r == Glue(c.(body := DropKey(c.body, key)))
    ensures last == start + 1 + |DropKey(c.body, key)|
  {
    hide KindOf, Sets, Glue, DropKey;
    r, last := lines, end;
    var i := end - 1;
    SpliceEnds(c, key);
    while i > start
      invariant start <= i < end
      invariant r == Spliced(c, i - start, key)
      invariant last == start + 1 + (i - start) + |DropKey(c.body[i - start..], key)|
    {
      SpliceStep(c, i - start, key);
      if Sets(r[i], key) {
        r := r[..i] + r[i + 1..];
        last := last - 1;
      }
      i := i - 1;
    }
  }

  lemma SpliceEnds(c: Cut, key: string)
    ensures Spliced(c, |c.body|, key) == Glue(c) && DropKey(c.body[|c.body|..], key) == []
    ensures Spliced(c, 0, key) == Glue(c.(body := DropKey(c.body, key))) && c.body[0..] == c.body
  {
    assert c.body[..|c.body|] == c.body && c.body[|c.body|..] == [] && c.body[0..] == c.body;
    assert c.body[..0] + DropKey(c.body, key) == DropKey(c.body, key);
  }

  /** Position of the last line of the section that sets the key, or -1. */
  method LastIndex(lines: seq<Line>, ghost c: Cut, start: nat, end: nat, key: string) returns (at: int)
    requires lines == Glue(c) && start == |c.before| && end == start + 1 + |c.body|
    ensures at == -1 <==> !HasKey(c.body, key)
    ensures at != -1 ==> start < at < end && Sets(lines[at], key)
                         && forall j :: at < j < end ==> !Sets(lines[j], key)
  {
    hide KindOf, HasKey;
    at := -1;
    for i := start + 1 to end
      invariant at == -1 ==> forall j :: start < j < i ==> !Sets(lines[j], key)
      invariant at != -1 ==> start < at < i && Sets(lines[at], key) && forall j :: at < j < i ==> !Sets(lines[j], key)
    {
      if Sets(lines[i], key) { at := i; }
    }
    InBody(lines, c, start, end, key);
  }

  lemma InBody(lines: seq<Line>, c: Cut, start: nat, end: nat, key: string)
    requires lines == Glue(c) && start == |c.before| && end == start + 1 + |c.body|
    ensures HasKey(c.body, key) <==> exists j :: start < j < end && Sets(lines[j], key)
  {
    if HasKey(c.body, key) {
      var l :| l in c.body && Sets(l, key);
      var j :| 0 <= j < |c.body| && c.body[j] == l;
      assert lines[start + 1 + j] == l;
    }
    if j :| start < j < end && Sets(lines[j], key) {
      assert lines[j] == c.body[j - start - 1];
      assert lines[j] in c.body;
    }
  }

  lemma {:induction false} ReplaceLastAt(body: seq<Line>, key: string, line: Line, i: nat)
    requires i < |body| && Sets(body[i], key) && forall j :: i < j < |body| ==> !Sets(body[j], key)
    ensures ReplaceLast(body, key, line) == body[i := line]
    decreases |body|
  {
    hide KindOf;
    var n := |body| - 1;
    if i < n {
      ReplaceLastAt(body[..n], key, line, i);
      assert body == body[..n] + [body[n]];
    }
  }

  /** `lines[at] = line`, or a splice at the end of the section. */
  method PutSetting(lines: seq<Line>, ghost c: Cut, start: nat, end: nat, at: int, key: string, line: Line)
    returns (r: seq<Line>, last: nat)
    requires lines == Glue(c) && start == |c.before| && end == start + 1 + |c.body|
    requires at == -1 <==> !HasKey(c.body, key)
    requires at != -1 ==> start < at < end && Sets(lines[at], key) && forall j :: at < j < end ==> !Sets(lines[j], key)
    ensures r == Glue(c.(body := SetLast(c.body, key, line)))
    ensures last == start + 1 + |SetLast(c.body, key, line)|
  {
    hide KindOf;
    if at >= 0 {
      ghost var i := at - start - 1;
      assert lines[at] == c.body[i];
      forall j | i < j < |c.body| ensures !Sets(c.body[j], key) {
        assert lines[start + 1 + j] == c.body[j];
      }
      ReplaceLastAt(c.body, key, line, i);
      r, last := lines[at := line], end;
      assert r == Glue(c.(body := c.body[i := line]));
    } else {
      assert lines[..end] == c.before + [c.header] + c.body && lines[end..] == c.after;
      r, last := lines[..end] + [line] + lines[end..], end + 1;
      assert r == Glue(c.(body := c.body + [line]));
    }
  }

  // ----- the edits -----

  method UpsertFeatureFlags(config: seq<Line>) returns (lines: seq<Line>)
    ensures lines == Upsert(Features, config)
  {
    hide KindOf, HasTitle, CutAt, IsCut, SettingLine, SetLast, DropKey, HasKey;
    lines := config;
    var start, end := FindSection(lines, Title(Features));
    if start < 0 {
      var base := TrimEndLines(lines);
      if base == [] {
        return Block(Features);
      }
      assert base + Gap(Features) == base;
      return base + Block(Features);
    }
    ghost var c := CutAt(config, Title(Features));
    ghost var c1 := c.(body := DropKey(c.body, Collab));
    lines, end := SpliceOut(lines, c, start, end, Collab);
    var multiAgent := LastIndex(lines, c1, start, end, MultiAgent);
    var childAgents := LastIndex(lines, c1, start, end, ChildAgents);
    var codexHooks := LastIndex(lines, c1, start, end, CodexHooks);
    ghost var lines1, end1 := lines, end;
    lines, end := PutSetting(lines, c1, start, end, multiAgent, MultiAgent, SettingLine(MultiAgent, "true"));
    ghost var c2 := c1.(body := SetLast(c1.body, MultiAgent, SettingLine(MultiAgent, "true")));
    FeatureKinds();
    StillLast(c1, start, end1, childAgents, MultiAgent, SettingLine(MultiAgent, "true"), ChildAgents);
    StillLast(c1, start, end1, codexHooks, MultiAgent, SettingLine(MultiAgent, "true"), CodexHooks);
    ghost var end2 := end;
    lines, end := PutSetting(lines, c2, start, end, childAgents, ChildAgents, SettingLine(ChildAgents, "true"));
    ghost var c3 := c2.(body := SetLast(c2.body, ChildAgents, SettingLine(ChildAgents, "true")));
    StillLast(c2, start, end2, codexHooks, ChildAgents, SettingLine(ChildAgents, "true"), CodexHooks);
    lines, end := PutSetting(lines, c3, start, end, codexHooks, CodexHooks, SettingLine(CodexHooks, "true"));
  }

  /** What `LastIndex` found. */
  predicate IsLast(lines: seq<Line>, c: Cut, start: nat, end: nat, at: int, key: string)
    requires lines == Glue(c) && start == |c.before| && end == start + 1 + |c.body|
  {
    && (at == -1 <==> !HasKey(c.body, key))
    && (at != -1 ==> start < at < end && Sets(lines[at], key) && forall j :: at < j < end ==> !Sets(lines[j], key))
  }

  /** Setting one key does not move the last line of another. */
  lemma StillLast(c: Cut, start: nat, end: nat, at: int, key: string, line: Line, other: string)
    requires start == |c.before| && end == start + 1 + |c.body| && key != other && Sets(line, key)
    requires IsLast(Glue(c), c, start, end, at, other)
    ensures var d := c.(body := SetLast(c.body, key, line));
            IsLast(Glue(d), d, start, start + 1 + |d.body|, at, other)
  {
    hide KindOf;
    var d := c.(body := SetLast(c.body, key, line));
    SetLastOtherKey(c.body, key, line, other);
    SetLastKeeps(c.body, key, line, other);
    forall j | start < j < start + 1 + |d.body|
      ensures Sets(Glue(d)[j], other) <==> j < end && Sets(Glue(c)[j], other)
    {
      assert Glue(d)[j] == d.body[j - start - 1];
      assert j < end ==> Glue(c)[j] == c.body[j - start - 1];
    }
  }

  lemma SetLastOtherKey(body: seq<Line>, key: string, line: Line, other: string)
    requires Sets(line, key) && other != key
    ensures HasKey(SetLast(body, key, line), other) <==> HasKey(body, other)
  {
    hide KindOf;
    var r := SetLast(body, key, line);
    SetLastKeeps(body, key, line, other);
    if HasKey(body, other) {
      var l :| l in body && Sets(l, other);
      var j :| 0 <= j < |body| && body[j] == l;
      assert r[j] in r;
    }
    if HasKey(r, other) {
      var l :| l in r && Sets(l, other);
      var j :| 0 <= j < |r| && r[j] == l;
      assert body[j] in body;
    }
  }

  /** Position by position, other keys are where they were. */
  lemma SetLastKeeps(body: seq<Line>, key: string, line: Line, other: string)
    requires Sets(line, key) && other != key
    ensures var r := SetLast(body, key, line);
            |body| <= |r| && forall j :: 0 <= j < |r| ==> (Sets(r[j], other) <==> j < |body| && Sets(body[j], other))
  {
    hide KindOf;
    if HasKey(body, key) {
      ReplaceLastKeeps(body, key, line, other);
    }
  }

  lemma {:induction false} ReplaceLastKeeps(body: seq<Line>, key: string, line: Line, other: string)
    requires Sets(line, key) && other != key
    ensures var r := ReplaceLast(body, key, line);
            |r| == |body| && forall j :: 0 <= j < |r| ==> (Sets(r[j], other) <==> Sets(body[j], other))
  {
    hide KindOf;
    if body != [] {
      ReplaceLastKeeps(body[..|body| - 1], key, line, other);
    }
  }

  method UpsertEnvSettings(config: seq<Line>) returns (lines: seq<Line>)
    ensures lines == Upsert(Env, config)
  {
    hide KindOf, HasTitle, CutAt, IsCut, SettingLine, HasKey;
    lines := config;
    var start, end := FindSection(lines, Title(Env));
    if start < 0 {
      var base := TrimEndLines(lines);
      return if base == [] then Block(Env) else base + [""] + Block(Env);
    }
    ghost var c := CutAt(config, Title(Env));
    var routing := -1;
    var i := start + 1;
    while i < end
      invariant start < i <= end
      invariant routing == -1
      invariant forall j :: start < j < i ==> !Sets(lines[j], ExploreCmd)
    {
      if Sets(lines[i], ExploreCmd) {
        routing := i;
        break;
      }
      i := i + 1;
    }
    InBody(lines, c, start, end, ExploreCmd);
    if routing < 0 {
      assert lines[..end] == c.before + [c.header] + c.body && lines[end..] == c.after;
      lines := lines[..end] + [SettingLine(ExploreCmd, ExploreValue)] + lines[end..];
      assert lines == Glue(c.(body := c.body + [SettingLine(ExploreCmd, ExploreValue)]));
    }
  }

  method UpsertAgentsSettings(config: seq<Line>) returns (lines: seq<Line>)
    ensures lines == Upsert(Agents, config)
  {
    hide KindOf, HasTitle, CutAt, IsCut, SettingLine, HasKey;
    lines := config;
    var start, end := FindSection(lines, Title(Agents));
    if start < 0 {
      var base := TrimEndLines(lines);
      return if base == [] then Block(Agents) else base + [""] + Block(Agents);
    }
    ghost var c := CutAt(config, Title(Agents));
    var maxThreads := LastIndex(lines, c, start, end, MaxThreads);
    var maxDepth := LastIndex(lines, c, start, end, MaxDepth);
    var threads, depth := SettingLine(MaxThreads, "6"), SettingLine(MaxDepth, "2");
    OtherKinds();
    ghost var body := Ensure(c.body, MaxThreads, threads);
    assert lines[..end] == c.before + [c.header] + c.body && lines[end..] == c.after;
    AppendedKey(c.body, MaxThreads, threads, MaxDepth);
    if maxThreads < 0 {
      lines := lines[..end] + [threads] + lines[end..];
      end := end + 1;
    }
    ghost var d := c.(body := body);
    assert lines == Glue(d);
    assert lines[..end] == d.before + [d.header] + d.body && lines[end..] == d.after;
    if maxDepth < 0 {
      lines := lines[..end] + [depth] + lines[end..];
      assert lines == Glue(c.(body := body + [depth]));
    }
  }

  lemma AppendedKey(body: seq<Line>, key: string, line: Line, other: string)
    requires Sets(line, key) && key != other
    ensures HasKey(Ensure(body, key, line), other) <==> HasKey(body, other)
  {
    hide KindOf;
    if HasKey(body, other) {
      var l :| l in body && Sets(l, other);
      assert l in Ensure(body, key, line);
    }
    if HasKey(Ensure(body, key, line), other) {
      var l :| l in Ensure(body, key, line) && Sets(l, other);
      assert l in body;
    }
  }

  lemma {:induction false} WithoutConcat(a: seq<Line>, b: seq<Line>, keys: set<string>)
    ensures Without(a + b, keys) == Without(a, keys) + Without(b, keys)
    decreases |b|
  {
    hide KindOf;
    if b == [] {
      assert a + b == a;
    } else {
      var n := |b| - 1;
      assert (a + b)[..|a| + n] == a + b[..n] && (a + b)[|a| + n] == b[n];
      WithoutConcat(a, b[..n], keys);
    }
  }

  predicate IsManaged(sec: Section, l: Line) { KindOf(l).Setting? && KindOf(l).key in Managed(sec) }

  /** The filtering loop: managed lines of the section go, every other line stays. */
  method FilterSection(sec: Section, config: seq<Line>, ghost c: Cut, start: nat, end: nat) returns (filtered: seq<Line>)
    requires config == Glue(c) && start == |c.before| && end == start + 1 + |c.body|
    ensures filtered == Glue(c.(body := Without(c.body, Managed(sec))))
  {
    hide KindOf, Without;
    filtered := config[..start + 1];
    assert config[..start + 1] == c.before + [c.header];
    assert config[start + 1..end] == c.body && config[end..] == c.after;
    WithoutNone(sec);
    assert config[start + 1..start + 1] == [] && filtered + [] == filtered;
    for i := start + 1 to end
      invariant filtered == c.before + [c.header] + Without(config[start + 1..i], Managed(sec))
    {
      ghost var done := config[start + 1..i];
      assert config[start + 1..i + 1] == done + [config[i]];
      WithoutConcat(done, [config[i]], Managed(sec));
      WithoutOne(sec, config[i]);
      if !IsManaged(sec, config[i]) {
        filtered := filtered + [config[i]];
      }
    }
    filtered := filtered + config[end..];
  }

  method EveryBlank(content: seq<Line>) returns (blank: bool)
    ensures blank <==> AllBlank(content)
  {
    blank := true;
    for i := 0 to |content|
      invariant blank <==> forall j :: 0 <= j < i ==> IsBlank(content[j])
    {
      if !IsBlank(content[i]) { blank := false; }
    }
    AllBlankAt(content);
  }

  /** stripOmcpFeatureFlags and stripOmcpEnvSettings, which differ in title and keys only. */
  method StripSettings(sec: Section, config: seq<Line>) returns (filtered: seq<Line>)
    requires sec != Agents
    ensures filtered == Strip(sec, config)
  {
    hide KindOf, HasTitle, CutAt, Without, AllBlank, IsCut;
    var start, end := FindSection(config, Title(sec));
    if start < 0 {
      return config;
    }
    ghost var c := CutAt(config, Title(sec));
    filtered := FilterSection(sec, config, c, start, end);
    ghost var d := c.(body := Without(c.body, Managed(sec)));
    FilteredIsCut(sec, c);
    CutAtGlue(d, Title(sec));
    var newStart, newEnd := FindSection(filtered, Title(sec));
    var content := filtered[newStart + 1..newEnd];
    assert content == d.body;
    var blank := EveryBlank(content);
    if blank {
      assert filtered[..newStart] == c.before && filtered[newEnd..] == c.after;
      filtered := filtered[..newStart] + filtered[newEnd..];
    }
  }

  lemma FilteredIsCut(sec: Section, c: Cut)
    requires IsCut(c, Title(sec))
    ensures IsCut(c.(body := Without(c.body, Managed(sec))), Title(sec))
  {
    WithoutNoHeaders(c.body, Managed(sec));
  }

  lemma AllBlankAt(lines: seq<Line>)
    ensures AllBlank(lines) <==> forall j :: 0 <= j < |lines| ==> IsBlank(lines[j])
  {
    if forall j :: 0 <= j < |lines| ==> IsBlank(lines[j]) {
      forall l | l in lines ensures IsBlank(l) {
        var j :| 0 <= j < |lines| && lines[j] == l;
      }
    }
  }

  lemma WithoutNone(sec: Section)
    ensures Without([], Managed(sec)) == []
  {
  }

  lemma WithoutOne(sec: Section, l: Line)
    ensures Without([l], Managed(sec)) == if IsManaged(sec, l) then [] else [l]
  {
  }

  // ----- the same on whole texts -----

  function SetupText(sec: Section, text: string): string { Join(Upsert(sec, Split(text))) }

  function UninstallText(sec: Section, text: string): string {
    if HasTitle(Split(text), Title(sec)) then Join(Strip(sec, Split(text))) else text
  }

  predicate SingleLines(lines: seq<Line>) { forall l :: l in lines ==> SingleLine(l) }

  lemma SplitIsSingle(text: string)
    ensures SingleLines(Split(text))
  {
    forall l | l in Split(text) ensures SingleLine(l) {
      var i :| 0 <= i < |Split(text)| && Split(text)[i] == l;
      SplitSingles(text, i);
    }
  }

  lemma TrimEndSingle(l: Line)
    requires SingleLine(l)
    ensures SingleLine(TrimEnd(l))
  {
    TrimEndCuts(l);
  }

  lemma DefaultsSingle(sec: Section)
    ensures SingleLines(Block(sec))
  {
    hide HeaderLine, SettingLine, SingleLine;
    EmptySingle();
    match sec
    case Features =>
      TitleSingle("features");
      FeaturesSingle();
    case Env =>
      TitleSingle("env");
      EnvSingle();
    case Agents =>
      TitleSingle("agents");
      AgentsSingle();
  }

  lemma TitleSingle(name: string)
    requires name == "features" || name == "env" || name == "agents"
    ensures SingleLine(HeaderLine(name))
  {
  }

  lemma SettingSingle(key: string, value: string)
    requires SingleLine(key) && SingleLine(value)
    ensures SingleLine(SettingLine(key, value))
  {
  }

  lemma FeaturesSingle()
    ensures SingleLines(Defaults(Features))
  {
    assert SingleLine("true") && SingleLine(MultiAgent) && SingleLine(ChildAgents) && SingleLine(CodexHooks);
    SettingSingle(MultiAgent, "true");
    SettingSingle(ChildAgents, "true");
    SettingSingle(CodexHooks, "true");
    hide SingleLine, SettingLine;
  }

  lemma EnvSingle()
    ensures SingleLines(Defaults(Env))
  {
    assert SingleLine(ExploreCmd) && SingleLine(ExploreValue);
    SettingSingle(ExploreCmd, ExploreValue);
    hide SingleLine, SettingLine;
  }

  lemma AgentsSingle()
    ensures SingleLines(Defaults(Agents))
  {
    assert SingleLine("6") && SingleLine("2") && SingleLine(MaxThreads) && SingleLine(MaxDepth);
    SettingSingle(MaxThreads, "6");
    SettingSingle(MaxDepth, "2");
    hide SingleLine, SettingLine;
  }

  lemma UpsertSingle(sec: Section, lines: seq<Line>)
    requires SingleLines(lines)
    ensures SingleLines(Upsert(sec, lines)) && Upsert(sec, lines) != []
  {
    hide KindOf, HeaderLine, SettingLine, SingleLine, HasTitle, Fix, TrimEndLines;
    DefaultsSingle(sec);
    EmptySingle();
    forall l | l in Upsert(sec, lines) ensures SingleLine(l) {
      if HasTitle(lines, Title(sec)) {
        var c := CutAt(lines, Title(sec));
        CutAtIs(lines, Title(sec));
        if l in Fix(sec, c.body) {
          FixLines(sec, c.body, l);
          assert l in Defaults(sec) ==> l in Block(sec);
        }
      } else if l in TrimEndLines(lines) {
        TrimEndLinesFrom(lines, l);
        var k :| k in lines && (l == k || l == TrimEnd(k));
        TrimEndSingle(k);
      }
    }
  }

  lemma EmptySingle()
    ensures SingleLine("")
  {
  }

  lemma SplitUpsert(sec: Section, text: string)
    ensures Split(SetupText(sec, text)) == Upsert(sec, Split(text))
  {
    hide Split, Upsert, Join, SingleLine;
    SplitIsSingle(text);
    var lines := Split(text);
    UpsertSingle(sec, lines);
    var after := Upsert(sec, lines);
    forall i | 0 <= i < |after| ensures SingleLine(after[i]) {
      assert after[i] in after;
    }
    SplitJoin(after);
  }

  /** Setup is idempotent on every text. */
  lemma SetupTwice(sec: Section, text: string)
    ensures SetupText(sec, SetupText(sec, text)) == SetupText(sec, text)
  {
    SplitUpsert(sec, text);
    UpsertTwice(sec, Split(text));
  }

  /** Uninstall undoes setup on every text: where the section existed the result is what uninstall
      alone gives; elsewhere it is the text without trailing space, with a final newline in the case
      of a non-empty file and [env]. */
  lemma UninstallUndoesSetup(sec: Section, text: string)
    requires sec != Agents
    ensures UninstallText(sec, SetupText(sec, text))
         == if HasTitle(Split(text), Title(sec)) then UninstallText(sec, text)
            else if sec == Features || TrimEnd(text) == "" then TrimEnd(text)
            else TrimEnd(text) + "\n"
  {
    hide Split, Upsert, Join, HasTitle, Strip, TrimEndLines, KindOf;
    var lines := Split(text);
    SplitUpsert(sec, text);
    StripUndoesUpsert(sec, lines);
    UpsertEstablishes(sec, lines);
    if !HasTitle(lines, Title(sec)) {
      var base := TrimEndLines(lines);
      JoinTrimEnd(lines);
      JoinSplit(text);
      assert Join(base) == TrimEnd(text);
      TrimmedEmptyIff(lines);
      if base != [] {
        JoinSnoc(base, "");
        assert base + [] == base;
        assert Join(base) + "\n" + "" == Join(base) + "\n";
      }
    }
  }

  lemma TrimmedEmptyIff(lines: seq<Line>)
    ensures TrimEndLines(lines) == [] <==> Join(TrimEndLines(lines)) == ""
  {
    var base := TrimEndLines(lines);
    if base != [] {
      TrimEndLinesLast(lines);
      JoinSnoc(base[..|base| - 1], base[|base| - 1]);
      assert base == base[..|base| - 1] + [base[|base| - 1]];
    }
  }

  lemma {:induction false} TrimEndLinesLast(lines: seq<Line>)
    requires TrimEndLines(lines) != []
    ensures var base := TrimEndLines(lines); base[|base| - 1] != "" && TrimEnd(base[|base| - 1]) == base[|base| - 1]
  {
    var n := |lines| - 1;
    if IsBlank(lines[n]) {
      TrimEndLinesLast(lines[..n]);
    } else {
      BlankIff(lines[n]);
      TrimEndTwice(lines[n]);
    }
  }
}
