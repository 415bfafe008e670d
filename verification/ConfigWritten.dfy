/** The lines a setup writes, to the letter: the three sections, the startup timeout, the managed block and
    the shared servers. */
module ConfigWritten {
  import opened Text
  import opened ConfigLines
  import opened ConfigSections
  import opened ConfigTui
  import opened ConfigMarkers
  import opened ConfigTimeouts
  import opened ConfigRoot
  import opened ConfigStable
  import opened ConfigMerge
  import opened ConfigSettled
  import opened ConfigRepaired
  import opened ConfigFooter
  import opened ConfigIdempotence
  import opened ConfigSetup
  import opened ConfigPreserves
  import Upserts = ConfigUpserts

  // ----- sections -----

  lemma EnvTexts()
    ensures Title(Env) == "[env]" && ExploreCmd == "USE_OMX_EXPLORE_CMD"
    ensures SettingLine(ExploreCmd, ExploreValue) == "USE_OMX_EXPLORE_CMD" + " = " + "\"1\""
  {
  }

  lemma AgentsTexts()
    ensures Title(Agents) == "[agents]" && MaxThreads == "max_threads" && MaxDepth == "max_depth"
    ensures SettingLine(MaxThreads, "6") == "max_threads = 6" && SettingLine(MaxDepth, "2") == "max_depth = 2"
  {
  }

  lemma FeatureTexts()
    ensures Title(Features) == "[features]" && Collab == "collab"
    ensures SettingLine(MultiAgent, "true") == "multi_agent" + " = true"
    ensures SettingLine(ChildAgents, "true") == "child_agents_md" + " = true"
    ensures SettingLine(CodexHooks, "true") == "codex_hooks" + " = true"
  {
  }

  /** [env]: a new section with the one key, or the key behind a section that lacks it; a section that has
      it stays. */
  lemma EnvWritten(lines: seq<Line>)
    ensures var line := "USE_OMX_EXPLORE_CMD" + " = " + "\"1\"";
            && (NoneTitled(lines, "[env]") ==>
                  Upsert(Env, lines) == (if TrimEndLines(lines) == [] then [] else TrimEndLines(lines) + [""]) + ["[env]", line, ""])
            && (forall c: Cut :: lines == Glue(c) && IsCut(c, "[env]") ==>
                  Upsert(Env, lines) == Glue(c.(body := if HasKey(c.body, "USE_OMX_EXPLORE_CMD") then c.body else c.body + [line])))
  {
    hide KindOf, HasTitle, CutAt, IsCut, Glue, NoneTitled, TrimEndLines, HasKey, SettingLine, HeaderLine;
    EnvTexts();
    NoTitleAt(lines, Title(Env));
    SectionWritten(Env, lines);
    hide ExploreCmd, ExploreValue;
  }

  /** [agents]: six threads, depth two, where the section does not set them. */
  lemma AgentsWritten(lines: seq<Line>)
    ensures NoneTitled(lines, "[agents]") ==>
              Upsert(Agents, lines)
              == (if TrimEndLines(lines) == [] then [] else TrimEndLines(lines) + [""]) + ["[agents]", "max_threads = 6", "max_depth = 2", ""]
    ensures forall c: Cut :: lines == Glue(c) && IsCut(c, "[agents]") ==>
              Upsert(Agents, lines)
              == Glue(c.(body := c.body + (if HasKey(c.body, "max_threads") then [] else ["max_threads = 6"])
                                        + (if HasKey(c.body, "max_depth") then [] else ["max_depth = 2"])))
  {
    hide KindOf, HasTitle, CutAt, IsCut, Glue, NoneTitled, TrimEndLines, HasKey, SettingLine, HeaderLine;
    AgentsTexts();
    NoTitleAt(lines, Title(Agents));
    SectionWritten(Agents, lines);
    forall c: Cut | lines == Glue(c) && IsCut(c, "[agents]")
      ensures Fix(Agents, c.body) == c.body + (if HasKey(c.body, "max_threads") then [] else ["max_threads = 6"])
                                            + (if HasKey(c.body, "max_depth") then [] else ["max_depth = 2"])
    {
      AgentsFixed(c.body);
    }
    hide MaxThreads, MaxDepth;
  }

  lemma AgentsFixed(body: seq<Line>)
    ensures Fix(Agents, body)
         == body + (if HasKey(body, MaxThreads) then [] else [SettingLine(MaxThreads, "6")])
                 + (if HasKey(body, MaxDepth) then [] else [SettingLine(MaxDepth, "2")])
  {
    OtherKinds();
    KeysApart();
    hide SettingLine, KindOf;
    KeySnocOther(body, SettingLine(MaxThreads, "6"), MaxDepth);
    assert body + [] == body;
  }

  lemma KeysApart()
    ensures MaxThreads != MaxDepth
  {
    assert |MaxThreads| == 11 && |MaxDepth| == 9;
  }

  lemma KeySnocOther(body: seq<Line>, l: Line, key: string)
    requires !Sets(l, key)
    ensures HasKey(body + [l], key) <==> HasKey(body, key)
  {
    hide KindOf;
    assert forall x :: x in body + [l] <==> x in body || x == l;
  }

  /** [features]: a new section switches all three on. */
  lemma FeaturesWritten(lines: seq<Line>)
    ensures NoneTitled(lines, "[features]") ==>
              Upsert(Features, lines)
              == TrimEndLines(lines) + ["[features]", "multi_agent" + " = true", "child_agents_md" + " = true", "codex_hooks" + " = true", ""]
    ensures forall c: Cut :: lines == Glue(c) && IsCut(c, "[features]") ==>
              exists body :: Upsert(Features, lines) == Glue(c.(body := body)) && SwitchedOn(body)
  {
    hide KindOf, HasTitle, CutAt, IsCut, Glue, NoneTitled, TrimEndLines, HasKey, SettingLine, HeaderLine, Fix, SwitchedOn;
    FeatureTexts();
    NoTitleAt(lines, Title(Features));
    SectionWritten(Features, lines);
    forall c: Cut | lines == Glue(c) && IsCut(c, "[features]")
      ensures exists body :: Upsert(Features, lines) == Glue(c.(body := body)) && SwitchedOn(body)
    {
      var body := Fix(Features, c.body);
      FeaturesOn(c.body);
      assert Upsert(Features, lines) == Glue(c.(body := body)) && SwitchedOn(body);
    }
    hide MultiAgent, ChildAgents, CodexHooks;
  }

  /** The last line of each of the three keys switches it on, and no line sets `collab`. */
  predicate SwitchedOn(body: seq<Line>) {
    && LastSet(body, "multi_agent", "multi_agent" + " = true") && LastSet(body, "child_agents_md", "child_agents_md" + " = true")
    && LastSet(body, "codex_hooks", "codex_hooks" + " = true") && !HasKey(body, "collab")
  }

  lemma FeaturesOn(body: seq<Line>)
    ensures SwitchedOn(Fix(Features, body))
  {
    FixFixes(Features, body);
    FeatureTexts();
    FeatureKeyTexts();
    hide Fix, LastSet, HasKey, SettingLine, HeaderLine, MultiAgent, ChildAgents, CodexHooks, Collab;
  }

  lemma FeatureKeyTexts()
    ensures MultiAgent == "multi_agent" && ChildAgents == "child_agents_md" && CodexHooks == "codex_hooks"
  {
  }

  lemma SectionWritten(sec: Section, lines: seq<Line>)
    ensures !HasTitle(lines, Title(sec)) ==>
              Upsert(sec, lines) == (if TrimEndLines(lines) == [] then [] else TrimEndLines(lines) + Gap(sec)) + ([Title(sec)] + Defaults(sec) + [""])
    ensures forall c: Cut :: lines == Glue(c) && IsCut(c, Title(sec)) ==> Upsert(sec, lines) == Glue(c.(body := Fix(sec, c.body)))
  {
    hide KindOf, HasTitle, CutAt, IsCut, Glue, TrimEndLines, HeaderLine, Defaults, Fix;
    forall c: Cut | lines == Glue(c) && IsCut(c, Title(sec)) ensures Upsert(sec, lines) == Glue(c.(body := Fix(sec, c.body))) {
      CutAtGlue(c, Title(sec));
    }
    assert [] + ([Title(sec)] + Defaults(sec) + [""]) == [Title(sec)] + Defaults(sec) + [""];
  }

  // ----- timeouts -----

  /** The timeout stands behind the last visible line of the section, or behind its header. */
  lemma {:induction false} TimeoutIs(section: seq<Line>) returns (k: nat)
    requires section != []
    ensures 1 <= k <= |section| && AllBlank(section[k..]) && (k == 1 || !IsBlank(section[k - 1]))
    ensures WithTimeout(section) == section[..k] + ["startup_timeout_sec" + " = " + "15"] + section[k..]
  {
    hide KindOf;
    assert TimeoutLine == "startup_timeout_sec" + " = " + "15";
    hide TimeoutLine;
    k := |section|;
    if |section| > 1 && IsBlank(section[|section| - 1]) {
      var n := |section| - 1;
      k := TimeoutIs(section[..n]);
      assert section[k..] == section[..n][k..] + [section[n]] && section[..n][..k] == section[..k];
    } else {
      assert section[..k] == section && section[k..] == [];
    }
  }

  /** An MCP section anywhere in the file gets it exactly when the decision says so. */
  lemma SectionRepaired(before: seq<Line>, section: seq<Line>, after: seq<Line>, needs: Needs)
    requires section != [] && StartsMcp(section[0]) && NoHeaders(section[1..]) && StartsSection(after)
    requires IsHeader(section[0])
    ensures AddTimeouts(before + section + after, needs)
         == AddTimeouts(before, needs) + (if needs(section) then WithTimeout(section) else section) + AddTimeouts(after, needs)
  {
    hide KindOf, AddTimeouts, WithTimeout, NoHeaders, StartsMcp, StartsSection, BodyLength;
    Assoc(before, section, after);
    SectionFirst(section, after);
    AddConcat(before, section + after, needs);
    SectionIsPart(section, after);
    AddPart(section, after, needs);
  }

  lemma SectionFirst(section: seq<Line>, after: seq<Line>)
    requires section != [] && IsHeader(section[0])
    ensures StartsSection(section + after)
  {
  }

  lemma SectionIsPart(section: seq<Line>, after: seq<Line>)
    requires section != [] && StartsMcp(section[0]) && NoHeaders(section[1..]) && StartsSection(after)
    ensures IsPart(section, after)
  {
  }

  lemma {:induction false} AddHas(lines: seq<Line>, needs: Needs, l: Line)
    requires l in lines
    ensures l in AddTimeouts(lines, needs)
    decreases |lines|
  {
    hide KindOf, SectionLength, StartsMcp, WithTimeout;
    if StartsMcp(lines[0]) {
      var n := SectionLength(lines);
      assert lines == lines[..n] + lines[n..];
      if l in lines[..n] {
        TimeoutHas(lines[..n], l);
      } else {
        AddHas(lines[n..], needs, l);
      }
    } else {
      assert lines == [lines[0]] + lines[1..];
      if l != lines[0] { AddHas(lines[1..], needs, l); }
    }
  }

  lemma TimeoutHas(section: seq<Line>, l: Line)
    requires l in section
    ensures l in WithTimeout(section)
  {
    hide WithTimeout, KindOf;
    var k := TimeoutIs(section);
    assert section == section[..k] + section[k..];
  }

  // ----- the texts that are looked for -----

  /** The status line, piece by piece. */
  lemma StatusText()
    ensures TuiTitle == "[tui]" && StatusLine == "status_line" + " = " + StatusList()
  {
  }

  function StatusList(): string {
    "[\"model-with-reasoning\", \"git-branch\", " + "\"context-remaining\", \"total-input-tokens\", "
    + "\"total-output-tokens\", " + "\"five-hour-limit\", \"weekly-limit\"]"
  }

  /** A rule is "# " and sixty equals signs. */
  lemma RuleText()
    ensures |RuleLine| == 62 && RuleLine[..2] == "# " && forall i :: 2 <= i < 62 ==> RuleLine[i] == '='
  {
  }

  /** `[[name]]` is a table header like `[name]`. */
  lemma DoubleBrackets(name: string)
    requires name != "" && ']' !in name
    ensures KindOf("[[" + name + "]]") == Table("[[" + name + "]]")
  {
    var t := "[[" + name + "]]";
    assert !IsSpace('[') && !IsSpace(']');
    TrimVisible(t);
    assert t[1..|t| - 2] == "[" + name;
  }

  /** The notify line setup itself writes is one that is taken out when it has lost its place. */
  lemma OwnNotifyLine(root: string)
    requires forall c :: c in root ==> c != '\r' && c != '\U{2028}' && c != '\U{2029}'
    ensures IsNotifyLine("notify" + " = " + ("[\"node\"," + (" " + ("\"" + (root + "/dist/scripts/") + "notify-hook.js\"]"))))
  {
    var rest := "\"" + (root + "/dist/scripts/") + "notify-hook.js\"]";
    var list := "[\"node\"," + (" " + rest);
    SlashesOk(root);
    HookListOf(root + "/dist/scripts/", rest);
    ListEnds(root + "/dist/scripts/", rest, list);
    NotifyKeyBare();
    assert NotifyKey == "notify";
    hide IsHookList;
    NotifyListIs(list);
  }

  lemma NotifyListIs(list: string)
    requires IsHookList(list) && list != "" && !IsSpace(list[0]) && !IsSpace(list[|list| - 1]) && BareKey(NotifyKey)
    ensures IsNotifyLine(NotifyKey + " = " + list)
  {
    var l := SettingLine(NotifyKey, list);
    SettingLineKind(NotifyKey, list);
    Upserts.SettingTrimmed(NotifyKey, list);
    hide KindOf, IsSpace, IsHookList;
    BehindKey(NotifyKey, list);
  }

  lemma BehindKey(key: string, list: string)
    requires list != "" && !IsSpace(list[0])
    ensures TrimStart((key + " = " + list)[|key|..]) == "= " + list && TrimStart(("= " + list)[1..]) == list
  {
    var l := key + " = " + list;
    assert l[|key|..] == " = " + list;
    SpacesOf(list);
    assert !IsSpace('=');
    SpaceFirst("= " + list);
    SpaceFirst(list);
  }

  lemma SpacesOf(list: string)
    ensures " = " + list == " " + ("= " + list) && ("= " + list)[1..] == " " + list
  {
  }

  lemma SlashesOk(root: string)
    requires forall c :: c in root ==> c != '\r' && c != '\U{2028}' && c != '\U{2029}'
    ensures forall c :: c in root + "/dist/scripts/" ==> c != '\r' && c != '\U{2028}' && c != '\U{2029}'
  {
    var tail := "/dist/scripts/";
    assert forall c :: c in tail ==> c != '\r' && c != '\U{2028}' && c != '\U{2029}';
  }

  lemma ListEnds(middle: string, rest: string, list: string)
    requires rest == "\"" + middle + "notify-hook.js\"]" && list == "[\"node\"," + (" " + rest)
    ensures list != "" && !IsSpace(list[0]) && !IsSpace(list[|list| - 1])
  {
    assert list[0] == '[' && list[|list| - 1] == ']';
  }

  lemma NotifyKeyBare()
    ensures BareKey(NotifyKey)
  {
  }

  lemma SpaceFirst(s: string)
    requires s != "" && !IsSpace(s[0])
    ensures TrimStart(" " + s) == s
  {
    assert (" " + s)[1..] == s;
  }

  lemma HookListOf(middle: string, rest: string)
    requires rest == "\"" + middle + "notify-hook.js\"]"
    requires forall c :: c in middle ==> c != '\r' && c != '\U{2028}' && c != '\U{2029}'
    ensures IsHookList("[\"node\"," + (" " + rest))
  {
    HookTexts();
    var list := "[\"node\"," + (" " + rest);
    assert list[|NodeOpen|..] == " " + rest;
    assert !IsSpace('"') && rest[0] == '"';
    SpaceFirst(rest);
    hide HookText, NodeOpen, IsSpace;
    assert rest[|rest| - |HookText| - 1..] == HookText + "]";
    RestBreaksNowhere(middle);
  }

  lemma HookTexts()
    ensures NodeOpen == "[\"node\"," && |NodeOpen| == 8 && |HookText| == 15 && HookText + "]" == "notify-hook.js\"]"
  {
  }

  lemma RestBreaksNowhere(middle: string)
    requires forall c :: c in middle ==> c != '\r' && c != '\U{2028}' && c != '\U{2029}'
    ensures forall c :: c in "\"" + middle + "notify-hook.js\"]" ==> c != '\r' && c != '\U{2028}' && c != '\U{2029}'
  {
    var tail := "notify-hook.js\"]";
    assert forall c :: c in tail ==> c != '\r' && c != '\U{2028}' && c != '\U{2029}';
  }

  function WithoutNotify(lines: seq<Line>): seq<Line> {
    if lines == [] then [] else (if IsNotifyLine(lines[0]) then [] else [lines[0]]) + WithoutNotify(lines[1..])
  }

  lemma {:induction false} WithoutNotifyBlanks(blanks: seq<Line>, rest: seq<Line>)
    requires AllBlank(blanks)
    ensures WithoutNotify(blanks + rest) == blanks + WithoutNotify(rest)
  {
    hide KindOf, IsNotifyLine;
    if blanks == [] {
      assert blanks + rest == rest;
    } else {
      assert blanks[0] in blanks && (blanks + rest)[0] == blanks[0] && (blanks + rest)[1..] == blanks[1..] + rest;
      BlankNoNotify(blanks[0]);
      WithoutNotifyBlanks(blanks[1..], rest);
    }
  }

  lemma BlankNoNotify(l: Line)
    requires IsBlank(l)
    ensures !IsNotifyLine(l)
  {
    hide IsHookList;
  }

  lemma PoppedVisible(lines: seq<Line>)
    ensures Visible(PopBlanks(lines)) == Visible(lines)
  {
    hide KindOf, Visible;
    PopBlanksIs(lines);
    var k := |PopBlanks(lines)|;
    assert PopBlanks(lines) == lines[..k] && lines == lines[..k] + lines[k..];
    VisibleConcat(lines[..k], lines[k..]);
    BlankVisible(lines[k..]);
    assert Visible(lines[..k]) + [] == Visible(lines[..k]);
  }

  lemma SkippedVisible(lines: seq<Line>)
    ensures Visible(WithoutNotify(SkipBlanks(lines))) == Visible(WithoutNotify(lines))
  {
    hide KindOf, Visible, WithoutNotify;
    SkipBlanksIs(lines);
    var rest := SkipBlanks(lines);
    var k := |lines| - |rest|;
    assert lines == lines[..k] + rest;
    WithoutNotifyBlanks(lines[..k], rest);
    VisibleConcat(lines[..k], WithoutNotify(rest));
    BlankVisible(lines[..k]);
    assert [] + Visible(WithoutNotify(rest)) == Visible(WithoutNotify(rest));
  }

  /** Taking out notify lines that lost their place takes those lines and blank ones, and not one more. */
  lemma {:induction false} NotifyTakesOnly(result: seq<Line>, lines: seq<Line>)
    ensures Visible(DropNotify(result, lines)) == Visible(result) + Visible(WithoutNotify(lines))
    decreases |lines|
  {
    hide KindOf, IsNotifyLine, Visible, PopBlanks, SkipBlanks;
    EmptyVisible();
    if lines == [] {
      assert Visible(result) + [] == Visible(result);
    } else if IsNotifyLine(lines[0]) {
      PoppedVisible(result);
      SkippedVisible(lines[1..]);
      assert WithoutNotify(lines) == WithoutNotify(lines[1..]);
      var rest := SkipBlanks(lines[1..]);
      if rest == [] {
        EmptyKind();
        BlankEnd(PopBlanks(result), "");
        assert Visible(result) + [] == Visible(result);
      } else {
        NotifyTakesOnly(PopBlanks(result), rest);
      }
    } else {
      NotifyTakesOnly(result + [lines[0]], lines[1..]);
      VisibleConcat(result, [lines[0]]);
      VisibleConcat([lines[0]], WithoutNotify(lines[1..]));
      Assoc(Visible(result), Visible([lines[0]]), Visible(WithoutNotify(lines[1..])));
    }
  }

  /** No table of OMCP's own servers, and none of a legacy agent, is left of the user's part. */
  lemma OrphansGo(s: Setup, lines: seq<Line>, name: string)
    requires name != "" && ']' !in name && ("mcp_servers.omcp_" <= name || s.legacyAgent(name))
    ensures "[" + name + "]" !in Cleared(s, lines)
  {
    hide KindOf, StripOrphans, StripRootKeys, Overrides;
    HeaderLineKind(name);
    assert HeaderLine(name)[1..|HeaderLine(name)| - 1] == name;
    assert IsOrphan(HeaderLine(name), s.legacyAgent);
    var quiet := s.dropNotify(StripRootKeys(lines, TopKeys, true));
    var ready := if Overrides(s.top) then StripRootKeys(quiet, {ModelKey}, false) else quiet;
    hide IsOrphan;
    StripOrphansKeeps((l: Line) => true, [], ready, s.legacyAgent);
  }

  /** A comment of OMCP's: a hash, spaces, and one of the two names in any case. */
  lemma OmcpCommentIff(l: Line)
    ensures IsOmcpComment(l) <==>
            l != "" && l[0] == '#' && (var t := TrimStart(l[1..]); BeginsWith(t, "OMCP") || BeginsWith(t, "oh-my-copilot"))
  {
    if l != "" {
      var t := TrimStart(l[1..]);
      hide TrimStart;
      StartsIff(t, "OMCP");
      StartsIff(t, "oh-my-copilot");
      hide StartsNoCase, BeginsWith;
    }
  }

  function SmallLetter(c: char): char { if 'A' <= c <= 'Z' then (c as int + 32) as char else c }

  predicate BeginsWith(s: string, word: string) {
    |s| >= |word| && forall i :: 0 <= i < |word| ==> SmallLetter(s[i]) == SmallLetter(word[i])
  }

  lemma {:induction false} StartsIff(s: string, word: string)
    ensures StartsNoCase(s, word) <==> BeginsWith(s, word)
    decreases |word|
  {
    if word != "" && s != "" {
      StartsIff(s[1..], word[1..]);
      assert BeginsWith(s, word) <==> SmallLetter(s[0]) == SmallLetter(word[0]) && BeginsWith(s[1..], word[1..]) by {
        forall i | 0 <= i < |word| && BeginsWith(s[1..], word[1..]) && SmallLetter(s[0]) == SmallLetter(word[0])
          ensures |s| >= |word| && SmallLetter(s[i]) == SmallLetter(word[i])
        {
          if i > 0 { assert s[i] == s[1..][i - 1] && word[i] == word[1..][i - 1]; }
        }
      }
    }
  }

  predicate Solid(l: Line) { !IsBlank(l) && !IsOmcpComment(l) }

  function SolidLines(lines: seq<Line>): seq<Line> {
    if lines == [] then [] else (if Solid(lines[0]) then [lines[0]] else []) + SolidLines(lines[1..])
  }

  /** The lines outside the orphaned tables; `inside` one, up to the next bracket line. */
  function OutsideOrphans(lines: seq<Line>, legacyAgent: string -> bool, inside: bool): seq<Line> {
    if lines == [] then []
    else if IsOrphan(lines[0], legacyAgent) then OutsideOrphans(lines[1..], legacyAgent, true)
    else if inside && !Opens(lines[0]) then OutsideOrphans(lines[1..], legacyAgent, true)
    else [lines[0]] + OutsideOrphans(lines[1..], legacyAgent, false)
  }

  lemma {:induction false} SolidConcat(a: seq<Line>, b: seq<Line>)
    ensures SolidLines(a + b) == SolidLines(a) + SolidLines(b)
  {
    hide Solid;
    if a == [] {
      assert a + b == b;
    } else {
      assert (a + b)[0] == a[0] && (a + b)[1..] == a[1..] + b;
      SolidConcat(a[1..], b);
    }
  }

  lemma {:induction false} NothingSolid(lines: seq<Line>)
    requires forall l :: l in lines ==> !Solid(l)
    ensures SolidLines(lines) == []
  {
    hide Solid;
    if lines != [] {
      assert lines[0] in lines;
      NothingSolid(lines[1..]);
    }
  }

  lemma PoppedSolid(lines: seq<Line>)
    ensures SolidLines(PopComments(lines)) == SolidLines(lines)
  {
    hide KindOf, IsOmcpComment;
    PopCommentsIs(lines);
    var k := |PopComments(lines)|;
    assert PopComments(lines) == lines[..k] && lines == lines[..k] + lines[k..];
    SolidConcat(lines[..k], lines[k..]);
    NothingSolid(lines[k..]);
    assert SolidLines(lines[..k]) + [] == SolidLines(lines[..k]);
  }

  lemma {:induction false} SkippedOutside(lines: seq<Line>, legacyAgent: string -> bool)
    ensures OutsideOrphans(lines, legacyAgent, true) == OutsideOrphans(SkipToTable(lines), legacyAgent, false)
  {
    hide KindOf, IsOrphan;
    if lines != [] && !Opens(lines[0]) {
      OrphanOpens(lines[0], legacyAgent);
      SkippedOutside(lines[1..], legacyAgent);
    }
  }

  lemma OrphanOpens(l: Line, legacyAgent: string -> bool)
    ensures IsOrphan(l, legacyAgent) ==> Opens(l)
  {
  }

  /** Stripping the orphaned tables takes those tables, OMCP's comments and blank lines, and not one line
      more, comments of the user included. */
  lemma {:induction false} OrphansTakeOnly(result: seq<Line>, lines: seq<Line>, legacyAgent: string -> bool)
    ensures SolidLines(StripOrphans(result, lines, legacyAgent))
         == SolidLines(result) + SolidLines(OutsideOrphans(lines, legacyAgent, false))
    decreases |lines|
  {
    hide KindOf, IsOrphan, Solid, PopComments, SkipToTable;
    if lines == [] {
      assert SolidLines(result) + [] == SolidLines(result);
    } else if IsOrphan(lines[0], legacyAgent) {
      PoppedSolid(result);
      SkippedOutside(lines[1..], legacyAgent);
      OrphansTakeOnly(PopComments(result), SkipToTable(lines[1..]), legacyAgent);
    } else {
      var l, rest := lines[0], OutsideOrphans(lines[1..], legacyAgent, false);
      OrphansTakeOnly(result + [l], lines[1..], legacyAgent);
      SolidConcat(result, [l]);
      SolidConcat([l], rest);
      Assoc(SolidLines(result), SolidLines([l]), SolidLines(rest));
    }
  }

  // ----- the managed block -----

  function TuiWritten(withTui: bool): seq<Line> {
    if withTui then ["", "# OMCP TUI StatusLine " + "(Copilot CLI v0.101.0+)", "[tui]", StatusLine, ""] else []
  }

  lemma BlockTexts(s: Setup, withTui: bool)
    ensures TuiPart(withTui) == TuiWritten(withTui)
    ensures OmcpEnd == "# End oh-my-copilot" && ManagedNote == "# Managed by omcp setup - " + "manual edits preserved on next setup"
    ensures "# " + OmcpMarker == "# " + "oh-my-copilot (OMCP) Configuration"
    ensures "# " + RegistryMarker == "# " + "oh-my-copilot (OMCP) " + "Shared MCP Registry Sync"
  {
    assert TuiTitle == "[tui]" && TuiNote == "# OMCP TUI StatusLine " + "(Copilot CLI v0.101.0+)";
    assert "# " + RegistryMarker == ("# " + "oh-my-copilot (OMCP) ") + "Shared MCP Registry Sync";
  }

  lemma NotesAreComments()
    ensures KindOf(RuleLine).Remark? && KindOf(ManagedNote).Remark? && KindOf("").Empty?
  {
    FixedRemarks();
    RemarkKind(RuleLine);
    RemarkKind(ManagedNote);
    EmptyKind();
    hide RuleLine, ManagedNote, KindOf;
  }

  lemma ManagedParts(s: Setup)
    requires BlocksOk(s)
    ensures s.managed == [s.managed[0]] + s.managed[1..] && s.managed[1..] != []
    ensures KindOf(s.managed[0]).Remark? && IsHeader(s.managed[1..][0])
  {
    hide KindOf, IsOrphan, StartsMcp;
  }

  /** The lines of the block before its first table are four. */
  lemma MiddleBegins(s: Setup, withTui: bool)
    requires BlocksOk(s)
    ensures var middle := TablesMiddle(s, withTui);
            && BodyLength(middle) == 4 && |middle| >= 4 && middle[..4] == [ManagedNote, RuleLine, "", s.managed[0]]
            && middle[4..] == s.managed[1..] + TuiPart(withTui) + [RuleLine]
  {
    ManagedParts(s);
    NotesAreComments();
    hide KindOf, BlocksOk, TuiPart, BodyLength, RuleLine, ManagedNote;
    MiddleRegroup(s.managed[0], s.managed[1..], TuiPart(withTui));
    FourThenTable(s.managed[0], s.managed[1..], TuiPart(withTui) + [RuleLine]);
    Assoc(s.managed[1..], TuiPart(withTui), [RuleLine]);
  }

  lemma FourThenTable(first: Line, more: seq<Line>, back: seq<Line>)
    requires KindOf(first).Remark? && more != [] && IsHeader(more[0])
    requires KindOf(RuleLine).Remark? && KindOf(ManagedNote).Remark? && KindOf("").Empty?
    ensures var all := [ManagedNote, RuleLine, "", first] + (more + back);
            BodyLength(all) == 4 && |all| >= 4 && all[..4] == [ManagedNote, RuleLine, "", first] && all[4..] == more + back
  {
    hide KindOf, BodyLength, RuleLine, ManagedNote;
    HeadThenTable([ManagedNote, RuleLine, "", first], more + back);
  }

  lemma HeadThenTable(head: seq<Line>, rest: seq<Line>)
    requires |head| == 4 && (forall l :: l in head ==> !IsHeader(l)) && rest != [] && IsHeader(rest[0])
    ensures BodyLength(head + rest) == 4 && |head + rest| >= 4 && (head + rest)[..4] == head && (head + rest)[4..] == rest
  {
    hide KindOf, BodyLength;
    BodyLengthSkips(head, rest);
  }

  lemma MiddleRegroup(first: Line, more: seq<Line>, tui: seq<Line>)
    ensures [ManagedNote, RuleLine, ""] + ([first] + more) + tui + [RuleLine]
         == [ManagedNote, RuleLine, "", first] + (more + tui + [RuleLine])
  {
    hide RuleLine, ManagedNote;
  }

  lemma {:induction false} InsertHas(gap: seq<Line>, l: Line)
    requires l in gap
    ensures l in InsertIn(gap)
  {
    hide KindOf;
    var n := |gap| - 1;
    assert gap == gap[..n] + [gap[n]];
    if IsBlank(gap[n]) && l in gap[..n] { InsertHas(gap[..n], l); }
  }

  lemma MergeIsBefore(s: Setup, config: seq<Line>)
    requires SetupOk(s)
    ensures var lines := Unmarked(config);
            var existing, withTui := Existing(s, lines), WritesTui(s, lines);
            var front := TopLines(s.top, existing) + [""] + TrimEndLines(existing) + RegistryLines(s, existing);
            && Merge(s, config) == AddTimeouts(front + WrittenLines(Tables(s, withTui)), s.needs)
            && Merge(s, config) == AddInside(front, s.needs) + WrittenLines(TablesBehind(s, withTui, OpenSection(front)))
  {
    hide Existing, WritesTui, Unmarked, AddTimeouts, AddInside, TopLines, TrimEndLines, RegistryLines, Tables, TablesBehind, WrittenLines, ManagedOk, Sensible, OpenSection, SharedOk, TopOk, NotifyOk;
    var lines := Unmarked(config);
    var existing, withTui := Existing(s, lines), WritesTui(s, lines);
    MergeIsAdded(s, config);
    var a, b, c := TopLines(s.top, existing) + [""] + TrimEndLines(existing), RegistryLines(s, existing), WrittenLines(Tables(s, withTui));
    Assoc(a, b, c);
    TablesAdded(s, withTui, a + b);
  }

  /** The result ends in the managed servers from their first table on, the [tui] table if the file has
      none, and the end of the block; its marker stands in front. */
  lemma MergeEnds(s: Setup, config: seq<Line>) returns (front: seq<Line>)
    requires SetupOk(s) && BlocksOk(s)
    ensures Merge(s, config)
         == front + (s.managed[1..] + TuiWritten(WritesTui(s, Unmarked(config))) + [RuleLine] + ["# End oh-my-copilot"] + [""])
    ensures RuleLine in front && "# " + "oh-my-copilot (OMCP) Configuration" in front
    ensures "# Managed by omcp setup - " + "manual edits preserved on next setup" in front
  {
    hide KindOf, Existing, WritesTui, Unmarked, AddTimeouts, AddInside, TopLines, TrimEndLines, RegistryLines, SetupOk, BlocksOk, OpenSection, InsertIn, BodyLength, TablesMiddle, TuiPart, TuiWritten, RuleLine, Merge, ManagedNote, OmcpMarker, OmcpEnd;
    var lines := Unmarked(config);
    var existing, withTui := Existing(s, lines), WritesTui(s, lines);
    MergeIsBefore(s, config);
    var begin := TopLines(s.top, existing) + [""] + TrimEndLines(existing) + RegistryLines(s, existing);
    BlockTexts(s, withTui);
    MiddleBegins(s, withTui);
    var middle := TablesMiddle(s, withTui);
    var behind := OpenedMiddle(OpenSection(begin), Tables(s, withTui), s.needs);
    InsertHas(middle[..4], ManagedNote);
    var head := if OpenSection(begin) != [] && s.needs(OpenSection(begin) + BlockGap(Tables(s, withTui))) then InsertIn(middle[..4]) else middle[..4];
    assert behind == head + middle[4..];
    ManagedHas(s);
    front := AddInside(begin, s.needs) + [""] + [RuleLine] + ["# " + OmcpMarker] + head;
    EndsRegroup(AddInside(begin, s.needs), [""], [RuleLine], ["# " + OmcpMarker], head, s.managed[1..], TuiPart(withTui), [OmcpEnd]);
  }

  lemma ManagedHas(s: Setup)
    requires BlocksOk(s)
    ensures |s.managed| >= 1
  {
  }

  lemma EndsRegroup(a: seq<Line>, b: seq<Line>, r: seq<Line>, m: seq<Line>, h: seq<Line>, x: seq<Line>, t: seq<Line>, e: seq<Line>)
    ensures a + (b + r + m + (h + (x + t + r)) + e + [""]) == (a + b + r + m + h) + (x + t + r + e + [""])
  {
  }

  // ----- the shared servers -----

  lemma {:induction false} NewServersIff(servers: seq<Shared>, existing: seq<Line>, x: Shared)
    ensures x in NewServers(servers, existing) <==> x in servers && forall l :: l in existing ==> Trim(l) != x.table
  {
    hide Trim;
    if servers != [] {
      NewServersIff(servers[1..], existing, x);
      assert servers == [servers[0]] + servers[1..];
    }
  }

  lemma {:induction false} ServerLinesHas(servers: seq<Shared>, x: Shared, l: Line)
    requires x in servers && l in x.lines
    ensures l in ServerLines(servers)
  {
    assert servers == [servers[0]] + servers[1..];
    if x != servers[0] { ServerLinesHas(servers[1..], x, l); }
  }

  /** A shared server whose table the file does not have is written, line by line, behind its marker. */
  lemma SharedAreWritten(s: Setup, config: seq<Line>, x: Shared, l: Line)
    requires SetupOk(s) && x in s.shared && l in x.lines
    requires forall k :: k in Existing(s, Unmarked(config)) ==> Trim(k) != x.table
    ensures l in Merge(s, config) && "# " + "oh-my-copilot (OMCP) " + "Shared MCP Registry Sync" in Merge(s, config)
    ensures "# Managed by omcp setup - " + "edit the registry file instead" in Merge(s, config)
    ensures "# End oh-my-copilot" + " shared MCP registry sync" in Merge(s, config)
  {
    hide KindOf, Existing, WritesTui, Unmarked, AddTimeouts, AddInside, TopLines, TrimEndLines, SetupOk, OpenSection, Tables, TablesBehind, Merge, Trim, ServerLines, NewServers, RegistryMarker, RegistryEnd, RegistryNote, RuleLine;
    var lines := Unmarked(config);
    var existing, withTui := Existing(s, lines), WritesTui(s, lines);
    MergeIsBefore(s, config);
    BlockTexts(s, withTui);
    var servers := NewServers(s.shared, existing);
    NewServersIff(s.shared, existing, x);
    ServerLinesHas(servers, x, l);
    var all := TopLines(s.top, existing) + [""] + TrimEndLines(existing) + RegistryLines(s, existing) + WrittenLines(Tables(s, withTui));
    RegistryHas(s, servers, l);
    RegistryTexts();
    assert RegistryNote in RegistryLines(s, existing) && RegistryEnd in RegistryLines(s, existing);
    assert l in RegistryLines(s, existing) && "# " + RegistryMarker in RegistryLines(s, existing);
    hide RegistryLines;
    AddHas(all, s.needs, l);
    AddHas(all, s.needs, "# " + RegistryMarker);
    AddHas(all, s.needs, RegistryNote);
    AddHas(all, s.needs, RegistryEnd);
  }

  lemma RegistryTexts()
    ensures RegistryNote == "# Managed by omcp setup - " + "edit the registry file instead"
    ensures RegistryEnd == "# End oh-my-copilot" + " shared MCP registry sync"
  {
  }

  lemma RegistryHas(s: Setup, servers: seq<Shared>, l: Line)
    requires l in ServerLines(servers)
    ensures l in WrittenLines(Registry(s, servers)) && "# " + RegistryMarker in WrittenLines(Registry(s, servers))
    ensures RegistryNote in WrittenLines(Registry(s, servers)) && RegistryEnd in WrittenLines(Registry(s, servers))
  {
    hide RegistryMarker, RegistryEnd, RegistryNote, RuleLine, ServerLines;
  }
}
