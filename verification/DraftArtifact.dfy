/** The deep-interview draft of src/cli/autoresearch-intake.ts: printed as markdown sections and read
    back from them. A heading stands on one line. */
module DraftArtifact {
  import opened Text
  import opened ConfigLines
  import Sandbox = SandboxFile
  import Slugs

  datatype Target = Target(topic: string, command: string, policy: Sandbox.KeepPolicy, slug: string)

  datatype Problem = MissionMissing | EvaluatorMissing | BadSandbox(problem: Sandbox.Problem)
  datatype Parsed = Ok(target: Target) | Err(problem: Problem)

  // ----- sections -----

  /** `/^##\s+/m` at a line: two hashes and a space, or two hashes and the end of the line. */
  predicate IsHeading(l: Line, isLast: bool) {
    "##" <= l && (if |l| == 2 then !isLast else IsSpace(l[2]))
  }

  /** `/^##\s+<heading>\s*$/im`. */
  predicate IsHeadingFor(l: Line, heading: string) {
    "##" <= l && |l| > 2 && IsSpace(l[2]) && Sandbox.LowerAll(Trim(l[2..])) == Sandbox.LowerAll(heading)
  }

  /** The lines up to the next heading. */
  function UpToHeading(lines: seq<Line>): seq<Line> {
    if lines == [] || IsHeading(lines[0], |lines| == 1) then [] else [lines[0]] + UpToHeading(lines[1..])
  }

  /** extractMarkdownSection. */
  function SectionText(lines: seq<Line>, heading: string): string {
    if lines == [] then ""
    else if IsHeadingFor(lines[0], heading) then Trim(Join(UpToHeading(lines[1..])))
    else SectionText(lines[1..], heading)
  }

  // ----- printing and parsing -----

  const MissionHeading := "Mission Draft"
  const EvaluatorHeading := "Evaluator Draft"
  const PolicyHeading := "Keep Policy"
  const SlugHeading := "Session Slug"

  function HeadingLine(heading: string): Line { "## " + heading }

  const TitleStart := "# Deep Interview Autoresearch Draft \U{2014} "

  /** buildAutoresearchDraftArtifactContent; `rest` holds the seed inputs, the launch readiness and
      the closing section. */
  function DraftLines(t: Target, rest: seq<Line>): seq<Line> {
    [TitleStart + t.slug, ""]
    + ([HeadingLine(MissionHeading)] + (Split(t.topic) + [""]))
    + ([HeadingLine(EvaluatorHeading)] + [t.command, ""])
    + ([HeadingLine(PolicyHeading)] + [Sandbox.PolicyName(t.policy), ""])
    + ([HeadingLine(SlugHeading)] + [t.slug, ""])
    + ["## Seed Inputs"] + rest
  }

  function NormalPolicy(raw: string): Sandbox.KeepPolicy {
    if Sandbox.LowerAll(Trim(raw)) == "pass_only" then Sandbox.PassOnly else Sandbox.ScoreImprovement
  }

  /** Runs of line breaks become one space. */
  function JoinBreaks(s: string, inRun: bool): string {
    if s == "" then ""
    else if s[0] == '\n' || s[0] == '\r' then (if inRun then "" else " ") + JoinBreaks(s[1..], true)
    else [s[0]] + JoinBreaks(s[1..], false)
  }

  /** parseDraftArtifactContent, launch readiness aside. */
  function ParseDraft(lines: seq<Line>): Parsed {
    var mission := SectionText(lines, MissionHeading);
    var evaluator := JoinBreaks(SectionText(lines, EvaluatorHeading), false);
    var policyRaw := SectionText(lines, PolicyHeading);
    var slugRaw := SectionText(lines, SlugHeading);
    if mission == "" then Err(MissionMissing)
    else if evaluator == "" then Err(EvaluatorMissing)
    else
      var policy := NormalPolicy(if policyRaw == "" then "score_improvement" else policyRaw);
      var sandbox := Sandbox.ParseSandbox(Sandbox.BuildSandbox(evaluator, policy));
      if sandbox.Err? then Err(BadSandbox(sandbox.problem))
      else Ok(Target(mission, evaluator, policy, Slugs.Slugify(if slugRaw == "" then mission else slugRaw)))
  }

  // ----- reading sections back -----

  /** No line of the text could be taken for a heading. */
  predicate HeadingFree(lines: seq<Line>) { forall l :: l in lines ==> !IsHeading(l, false) }

  lemma HeadingForIsHeading(l: Line, heading: string)
    requires IsHeadingFor(l, heading)
    ensures IsHeading(l, false) && IsHeading(l, true)
  {
  }

  lemma {:induction false} SectionSkips(before: seq<Line>, lines: seq<Line>, heading: string)
    requires forall l :: l in before ==> !IsHeadingFor(l, heading)
    ensures SectionText(before + lines, heading) == SectionText(lines, heading)
  {
    hide IsHeadingFor, Join, Trim;
    if before == [] {
      assert before + lines == lines;
    } else {
      assert before[0] in before;
      assert (before + lines)[1..] == before[1..] + lines;
      SectionSkips(before[1..], lines, heading);
    }
  }

  lemma {:induction false} UpToNext(body: seq<Line>, next: Line, after: seq<Line>)
    requires HeadingFree(body) && IsHeading(next, true)
    ensures UpToHeading(body + ([next] + after)) == body
  {
    var whole := body + ([next] + after);
    if body == [] {
      assert whole == [next] + after;
    } else {
      assert body == [body[0]] + body[1..];
      assert body[0] in body;
      assert whole[1..] == body[1..] + ([next] + after);
      UpToNext(body[1..], next, after);
    }
  }

  /** A section printed between two headings. */
  lemma SectionFound(before: seq<Line>, heading: string, body: seq<Line>, next: Line, after: seq<Line>)
    requires forall l :: l in before ==> !IsHeadingFor(l, heading)
    requires IsHeadingFor(HeadingLine(heading), heading) && HeadingFree(body) && IsHeading(next, true)
    ensures SectionText(before + ([HeadingLine(heading)] + (body + ([next] + after))), heading) == Trim(Join(body))
  {
    hide IsHeadingFor, IsHeading, HeadingFree, Join, Trim, HeadingLine, UpToHeading;
    var rest := body + ([next] + after);
    SectionSkips(before, [HeadingLine(heading)] + rest, heading);
    assert ([HeadingLine(heading)] + rest)[1..] == rest;
    UpToNext(body, next, after);
  }

  predicate Named(heading: string) { Sandbox.Visible(heading) }

  lemma {:induction false} LowerLength(s: string)
    ensures |Sandbox.LowerAll(s)| == |s|
  {
    if s != "" {
      LowerLength(s[1..]);
    }
  }

  lemma SpaceVisible(v: string)
    requires Sandbox.Visible(v)
    ensures Trim(" " + v) == v
  {
    var s := " " + v;
    assert s[|s| - 1] == v[|v| - 1];
    assert TrimEnd(s) == s;
    assert s[1..] == v;
    TrimStartOfVisible(v);
  }

  /** A heading line is found under its own name and under no name of another length. */
  lemma HeadingNames(name: string, other: string)
    requires Named(name)
    ensures IsHeading(HeadingLine(name), true) && IsHeading(HeadingLine(name), false)
    ensures IsHeadingFor(HeadingLine(name), name)
    ensures |name| != |other| ==> !IsHeadingFor(HeadingLine(name), other)
  {
    var l := HeadingLine(name);
    assert l[2..] == " " + name;
    assert l[..2] == "##";
    SpaceVisible(name);
    LowerLength(name);
    LowerLength(other);
  }

  lemma FixedNames()
    ensures Named(MissionHeading) && Named(EvaluatorHeading) && Named(PolicyHeading) && Named(SlugHeading)
    ensures |MissionHeading| == 13 && |EvaluatorHeading| == 15 && |PolicyHeading| == 11 && |SlugHeading| == 12
  {
  }

  // ----- the round trip -----

  /** "\n" is the only character at which `^` could find another line. */
  predicate OnlyNewlines(text: string) { forall c :: c in text && Sandbox.IsBreak(c) ==> c == '\n' }

  /** What a target has to be for the printed sections to be told apart. */
  predicate Printable(t: Target) {
    && Sandbox.Visible(t.topic) && HeadingFree(Split(t.topic)) && OnlyNewlines(t.topic) && OnlyNewlines(t.slug)
    && Sandbox.Visible(t.command) && '\n' !in t.command && '\r' !in t.command && !IsHeading(t.command, false)
    && Sandbox.Visible(t.slug) && '\n' !in t.slug && !IsHeading(t.slug, false)
  }

  lemma TrimNewline(v: string)
    requires Sandbox.Visible(v)
    ensures Trim(v + "\n") == v
  {
    var s := v + "\n";
    assert s[..|s| - 1] == v;
    assert TrimEnd(s) == TrimEnd(v);
    TrimVisible(v);
  }

  /** A body followed by an empty line is read back as its text. */
  lemma BodyText(body: seq<Line>, text: string)
    requires body != [] && Join(body) == text && Sandbox.Visible(text)
    ensures Trim(Join(body + [""])) == text
  {
    hide Join, Trim;
    JoinSnoc(body, "");
    assert text + "\n" + "" == text + "\n";
    TrimNewline(text);
  }

  lemma OneLineBody(v: string)
    requires Sandbox.Visible(v)
    ensures Trim(Join([v, ""])) == v
  {
    hide Join, Trim;
    OneJoin(v);
    assert [v, ""] == [v] + [""];
    BodyText([v], v);
  }

  lemma OneJoin(v: string)
    ensures Join([v]) == v
  {
  }

  lemma EmptyIsNoHeading()
    ensures !IsHeading("", false)
  {
  }

  /** The four parts in front of the seed inputs. */
  function Part(heading: string, body: seq<Line>): seq<Line> { [HeadingLine(heading)] + body }

  lemma PartLines(heading: string, body: seq<Line>, other: string)
    requires Named(heading) && |heading| != |other| && HeadingFree(body)
    ensures forall l :: l in Part(heading, body) ==> !IsHeadingFor(l, other)
  {
    hide HeadingLine, Named;
    HeadingNames(heading, other);
    forall l | l in body ensures !IsHeadingFor(l, other) {
      if IsHeadingFor(l, other) { HeadingForIsHeading(l, other); }
    }
    hide IsHeadingFor;
  }

  lemma TitleLines(slug: string, heading: string)
    ensures forall l :: l in [TitleStart + slug, ""] ==> !IsHeadingFor(l, heading)
  {
    assert TitleStart[0] == '#' && TitleStart[1] == ' ';
    var l := TitleStart + slug;
    assert l[1] == ' ' && "##"[1] == '#';
  }

  lemma BodiesFree(t: Target)
    requires Printable(t)
    ensures HeadingFree(Split(t.topic) + [""]) && HeadingFree([t.command, ""]) && HeadingFree([t.slug, ""])
    ensures HeadingFree([Sandbox.PolicyName(t.policy), ""])
  {
    hide Split, IsSpace;
    EmptyIsNoHeading();
    assert Sandbox.PolicyName(t.policy)[0] != '#';
  }

  lemma SeedHeading()
    ensures IsHeading("## Seed Inputs", true)
  {
    var l := "## Seed Inputs";
    assert l[..2] == "##" && l[2] == ' ';
  }

  /** All four sections are read back as printed. */
  lemma SectionsReadBack(t: Target, rest: seq<Line>)
    requires Printable(t)
    ensures var lines := DraftLines(t, rest);
            && SectionText(lines, MissionHeading) == t.topic
            && SectionText(lines, EvaluatorHeading) == t.command
            && SectionText(lines, PolicyHeading) == Sandbox.PolicyName(t.policy)
            && SectionText(lines, SlugHeading) == t.slug
  {
    hide IsHeadingFor, IsHeading, HeadingFree, Join, Trim, HeadingLine, Split, SectionText, Named;
    FixedNames();
    BodiesFree(t);
    SeedHeading();
    JoinSplit(t.topic);
    BodyText(Split(t.topic), t.topic);
    OneLineBody(t.command);
    PolicyVisible(t.policy);
    OneLineBody(Sandbox.PolicyName(t.policy));
    OneLineBody(t.slug);
    HeadingNames(MissionHeading, "");
    HeadingNames(EvaluatorHeading, "");
    HeadingNames(PolicyHeading, "");
    HeadingNames(SlugHeading, "");
    FindMission(t, rest);
    FindEvaluator(t, rest);
    FindPolicy(t, rest);
    FindSlug(t, rest);
  }

  lemma PolicyVisible(p: Sandbox.KeepPolicy)
    ensures Sandbox.Visible(Sandbox.PolicyName(p)) && Sandbox.LowerAll(Trim(Sandbox.PolicyName(p))) == Sandbox.PolicyName(p)
  {
    Sandbox.FixedValues(p);
    Sandbox.FixedReads(p);
  }

  ghost predicate PartsOk(t: Target) {
    && HeadingFree(Split(t.topic) + [""]) && HeadingFree([t.command, ""]) && HeadingFree([t.slug, ""])
    && HeadingFree([Sandbox.PolicyName(t.policy), ""])
    && IsHeading("## Seed Inputs", true)
    && IsHeading(HeadingLine(EvaluatorHeading), true) && IsHeading(HeadingLine(PolicyHeading), true)
    && IsHeading(HeadingLine(SlugHeading), true)
    && IsHeadingFor(HeadingLine(MissionHeading), MissionHeading) && IsHeadingFor(HeadingLine(EvaluatorHeading), EvaluatorHeading)
    && IsHeadingFor(HeadingLine(PolicyHeading), PolicyHeading) && IsHeadingFor(HeadingLine(SlugHeading), SlugHeading)
  }

  lemma FindMission(t: Target, rest: seq<Line>)
    requires PartsOk(t)
    ensures SectionText(DraftLines(t, rest), MissionHeading) == Trim(Join(Split(t.topic) + [""]))
  {
    hide IsHeadingFor, IsHeading, HeadingFree, Join, Trim, HeadingLine, Split, SectionText;
    TitleLines(t.slug, MissionHeading);
    var before, body := [TitleStart + t.slug, ""], Split(t.topic) + [""];
    var after := [t.command, ""] + Part(PolicyHeading, [Sandbox.PolicyName(t.policy), ""]) + Part(SlugHeading, [t.slug, ""])
                 + ["## Seed Inputs"] + rest;
    assert DraftLines(t, rest) == before + ([HeadingLine(MissionHeading)] + (body + ([HeadingLine(EvaluatorHeading)] + after)));
    SectionFound(before, MissionHeading, body, HeadingLine(EvaluatorHeading), after);
  }

  lemma FindEvaluator(t: Target, rest: seq<Line>)
    requires PartsOk(t)
    ensures SectionText(DraftLines(t, rest), EvaluatorHeading) == Trim(Join([t.command, ""]))
  {
    hide IsHeadingFor, IsHeading, HeadingFree, Join, Trim, HeadingLine, Split, SectionText, Named;
    FixedNames();
    TitleLines(t.slug, EvaluatorHeading);
    PartLines(MissionHeading, Split(t.topic) + [""], EvaluatorHeading);
    var before := [TitleStart + t.slug, ""] + Part(MissionHeading, Split(t.topic) + [""]);
    var body := [t.command, ""];
    var after := [Sandbox.PolicyName(t.policy), ""] + Part(SlugHeading, [t.slug, ""]) + ["## Seed Inputs"] + rest;
    assert DraftLines(t, rest) == before + ([HeadingLine(EvaluatorHeading)] + (body + ([HeadingLine(PolicyHeading)] + after)));
    SectionFound(before, EvaluatorHeading, body, HeadingLine(PolicyHeading), after);
  }

  lemma FindPolicy(t: Target, rest: seq<Line>)
    requires PartsOk(t)
    ensures SectionText(DraftLines(t, rest), PolicyHeading) == Trim(Join([Sandbox.PolicyName(t.policy), ""]))
  {
    hide IsHeadingFor, IsHeading, HeadingFree, Join, Trim, HeadingLine, Split, SectionText, Named;
    FixedNames();
    TitleLines(t.slug, PolicyHeading);
    PartLines(MissionHeading, Split(t.topic) + [""], PolicyHeading);
    PartLines(EvaluatorHeading, [t.command, ""], PolicyHeading);
    var before := [TitleStart + t.slug, ""] + Part(MissionHeading, Split(t.topic) + [""]) + Part(EvaluatorHeading, [t.command, ""]);
    var body := [Sandbox.PolicyName(t.policy), ""];
    var after := [t.slug, ""] + ["## Seed Inputs"] + rest;
    assert DraftLines(t, rest) == before + ([HeadingLine(PolicyHeading)] + (body + ([HeadingLine(SlugHeading)] + after)));
    SectionFound(before, PolicyHeading, body, HeadingLine(SlugHeading), after);
  }

  lemma FindSlug(t: Target, rest: seq<Line>)
    requires PartsOk(t)
    ensures SectionText(DraftLines(t, rest), SlugHeading) == Trim(Join([t.slug, ""]))
  {
    hide IsHeadingFor, IsHeading, HeadingFree, Join, Trim, HeadingLine, Split, SectionText, Named;
    FixedNames();
    TitleLines(t.slug, SlugHeading);
    PartLines(MissionHeading, Split(t.topic) + [""], SlugHeading);
    PartLines(EvaluatorHeading, [t.command, ""], SlugHeading);
    PartLines(PolicyHeading, [Sandbox.PolicyName(t.policy), ""], SlugHeading);
    var before := [TitleStart + t.slug, ""] + Part(MissionHeading, Split(t.topic) + [""]) + Part(EvaluatorHeading, [t.command, ""])
                  + Part(PolicyHeading, [Sandbox.PolicyName(t.policy), ""]);
    var body := [t.slug, ""];
    assert DraftLines(t, rest) == before + ([HeadingLine(SlugHeading)] + (body + (["## Seed Inputs"] + rest)));
    SectionFound(before, SlugHeading, body, "## Seed Inputs", rest);
  }

  lemma {:induction false} JoinBreaksNone(s: string)
    requires '\n' !in s && '\r' !in s
    ensures JoinBreaks(s, false) == s
  {
    if s != "" {
      assert s == [s[0]] + s[1..];
      JoinBreaksNone(s[1..]);
    }
  }

  /** A printed draft reads back as it was, with its slug made a slug; so it is the same draft exactly
      when the slug was one that slugifying leaves alone. */
  lemma DraftRoundTripIff(t: Target, rest: seq<Line>)
    requires Printable(t) && Sandbox.ParseSandbox(Sandbox.BuildSandbox(t.command, t.policy)).Ok?
    ensures ParseDraft(DraftLines(t, rest)) == Ok(t.(slug := Slugs.Slugify(t.slug)))
    ensures ParseDraft(DraftLines(t, rest)) == Ok(t) <==> Slugs.Slugify(t.slug) == t.slug
  {
    SectionsReadBack(t, rest);
    JoinBreaksNone(t.command);
    PolicyVisible(t.policy);
    Sandbox.PolicyNames();
    hide SectionText, DraftLines, Trim, Sandbox.LowerAll, Sandbox.ParseSandbox, Sandbox.BuildSandbox, Slugs.Slugify;
    PolicyBack(t.policy);
  }

  lemma PolicyBack(p: Sandbox.KeepPolicy)
    ensures NormalPolicy(Sandbox.PolicyName(p)) == p
  {
    PolicyVisible(p);
    assert |"pass_only"| == 9 && |"score_improvement"| == 17;
  }
}
