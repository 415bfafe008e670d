/** The texts of sandbox.md and of the draft, to the letter, and every answer of their parsers. */
module MissionTexts {
  import opened Text
  import opened ConfigLines
  import Sandbox = SandboxFile
  import Draft = DraftArtifact

  // ----- characters -----

  /** Lower case, letter by letter. */
  lemma {:induction false} LowerAllIs(s: string)
    ensures |Sandbox.LowerAll(s)| == |s|
    ensures forall i :: 0 <= i < |s| ==>
              Sandbox.LowerAll(s)[i] == if 'A' <= s[i] <= 'Z' then (s[i] as int + 32) as char else s[i]
  {
    if s != "" { LowerAllIs(s[1..]); }
  }

  /** Line breaks become spaces, one by one. */
  lemma {:induction false} OneLineIs(s: string)
    ensures |Sandbox.OneLine(s)| == |s|
    ensures forall i :: 0 <= i < |s| ==> Sandbox.OneLine(s)[i] == if s[i] == '\n' || s[i] == '\r' then ' ' else s[i]
  {
    if s != "" { OneLineIs(s[1..]); }
  }

  /** A tab becomes two spaces. */
  lemma UntabIs(a: string, b: string)
    ensures Sandbox.Untab(a + b) == Sandbox.Untab(a) + Sandbox.Untab(b)
    ensures Sandbox.Untab("\t") == "  " && Sandbox.Untab("") == ""
    ensures |a| == 1 && a != "\t" ==> Sandbox.Untab(a) == a
  {
    Sandbox.UntabConcat(a, b);
    assert "\t"[1..] == "";
    if |a| == 1 { assert a[1..] == "" && a == [a[0]]; }
  }

  predicate Breaks(s: string) { forall c :: c in s ==> c == '\n' || c == '\r' }
  predicate BreaksNowhere(s: string) { forall c :: c in s ==> c != '\n' && c != '\r' }

  /** A run of line breaks behind text without any becomes one space. */
  lemma {:induction false} JoinBreaksIs(a: string, run: string, rest: string)
    requires BreaksNowhere(a) && run != "" && Breaks(run) && (rest == "" || BreaksNowhere(rest[..1]))
    ensures Draft.JoinBreaks(a + run + rest, false) == a + " " + Draft.JoinBreaks(rest, false)
    decreases |a|
  {
    if a == "" {
      Part(run);
      assert run[0] in run && "" + run + rest == [run[0]] + (run[1..] + rest);
      assert ("" + run + rest)[1..] == run[1..] + rest;
      RunGoes(run[1..], rest);
    } else {
      Part(a);
      assert a[0] in a && (a + run + rest)[1..] == a[1..] + run + rest;
      JoinBreaksIs(a[1..], run, rest);
      assert [a[0]] + (a[1..] + " " + Draft.JoinBreaks(rest, false)) == a + " " + Draft.JoinBreaks(rest, false);
    }
  }

  lemma Part(s: string)
    requires s != ""
    ensures forall c :: c in s[1..] ==> c in s
  {
  }

  lemma {:induction false} RunGoes(run: string, rest: string)
    requires Breaks(run) && (rest == "" || BreaksNowhere(rest[..1]))
    ensures Draft.JoinBreaks(run + rest, true) == Draft.JoinBreaks(rest, false)
  {
    if run == "" {
      assert run + rest == rest;
      if rest != "" { assert rest[0] in rest[..1]; }
    } else {
      Part(run);
      assert run[0] in run && (run + rest)[1..] == run[1..] + rest;
      RunGoes(run[1..], rest);
    }
  }

  // ----- sandbox.md -----

  function PolicyText(p: Sandbox.KeepPolicy): string { match p case PassOnly => "pass_only" case ScoreImprovement => "score_improvement" }

  /** What buildSandboxContent writes. */
  lemma SandboxText(command: string, p: Sandbox.KeepPolicy)
    ensures Sandbox.BuildSandbox(command, p)
         == Join(["---", "evaluator:", "  command: " + Trim(Sandbox.OneLine(command)), "  format: json", "  keep_policy: " + PolicyText(p), "---", ""])
  {
  }

  function Policy(fields: map<string, string>): string {
    if "keep_policy" in fields then Sandbox.LowerAll(Trim(fields["keep_policy"])) else ""
  }

  function Field(fields: map<string, string>, key: string): string { if key in fields then Trim(fields[key]) else "" }

  /** The answers of parseSandboxContract to an evaluator section, in the order in which they are looked for. */
  lemma EvaluatorAnswers(fields: map<string, string>, body: string)
    ensures var answer := Sandbox.Evaluate(fields, body);
            var policy, command, format := Policy(fields), Field(fields, "command"), Sandbox.LowerAll(Field(fields, "format"));
            var policyOk := policy == "" || policy == "pass_only" || policy == "score_improvement";
            && (!policyOk ==> answer == Sandbox.Err(Sandbox.BadKeepPolicy))
            && (policyOk && command == "" ==> answer == Sandbox.Err(Sandbox.CommandMissing))
            && (policyOk && command != "" && format == "" ==> answer == Sandbox.Err(Sandbox.FormatMissing))
            && (policyOk && command != "" && format != "" && format != "json" ==> answer == Sandbox.Err(Sandbox.FormatNotJson))
            && (policyOk && command != "" && format == "json" ==>
                  answer == Sandbox.Ok(Sandbox.Contract(command,
                    if policy == "pass_only" then Sandbox.Some(Sandbox.PassOnly)
                    else if policy == "score_improvement" then Sandbox.Some(Sandbox.ScoreImprovement) else Sandbox.None, body)))
  {
  }

  /** The answers to a whole file: without two lines of dashes around it there is no frontmatter, and an
      `evaluator` that is missing or no section is refused. */
  lemma FileAnswers(lines: seq<string>)
    requires lines != [] && forall l :: l in lines ==> '\n' !in l
    ensures lines[0] != "---" ==> Sandbox.ParseSandbox(Join(lines)) == Sandbox.Err(Sandbox.NoFrontmatter)
    ensures (forall i :: 2 <= i < |lines| ==> !("---" <= lines[i])) ==> Sandbox.ParseSandbox(Join(lines)) == Sandbox.Err(Sandbox.NoFrontmatter)
  {
    SplitJoin(lines);
    if |lines| >= 2 && forall i :: 2 <= i < |lines| ==> !("---" <= lines[i]) {
      assert Sandbox.ClosingAt(lines, 2) == |lines|;
    }
  }

  lemma NoEvaluator(lines: seq<string>, k: nat)
    requires 2 <= k < |lines| && (forall l :: l in lines ==> '\n' !in l) && lines[0] == "---"
    requires "---" <= lines[k] && forall i :: 2 <= i < k ==> !("---" <= lines[i])
    requires var reading := Sandbox.ReadAll(lines[1..k]);
             reading.Reading? && ("evaluator" !in reading.result || reading.result["evaluator"].Scalar?)
    ensures Sandbox.ParseSandbox(Join(lines)) == Sandbox.Err(Sandbox.EvaluatorBlock)
  {
    hide Sandbox.ReadAll, Sandbox.Evaluate, Join, Split, Trim, TrimEnd, TrimStart;
    SplitJoin(lines);
    ClosesAt(lines, 2, k);
  }

  lemma {:induction false} ClosesAt(lines: seq<string>, i: nat, j: nat)
    requires i <= j < |lines| && "---" <= lines[j] && forall k :: i <= k < j ==> !("---" <= lines[k])
    ensures Sandbox.ClosingAt(lines, i) == j
    decreases j - i
  {
    if i < j { ClosesAt(lines, i + 1, j); }
  }

  // ----- the draft -----

  /** The lines of a draft artifact up to the seed inputs. */
  lemma DraftText(t: Draft.Target, rest: seq<Line>)
    ensures Draft.DraftLines(t, rest)
         == ["# Deep Interview Autoresearch Draft \U{2014} " + t.slug, "", "## " + "Mission Draft"] + Split(t.topic)
            + ["", "## " + "Evaluator Draft", t.command, "", "## " + "Keep Policy", PolicyText(t.policy), "", "## " + "Session Slug", t.slug, "", "## Seed Inputs"]
            + rest
  {
    hide Split;
  }

  /** A draft without a mission or an evaluator is refused; without a policy score_improvement is meant, and
      without a slug the mission names it. */
  lemma DraftAnswers(lines: seq<Line>)
    ensures var answer := Draft.ParseDraft(lines);
            var mission, evaluator := Draft.SectionText(lines, "Mission Draft"), Draft.JoinBreaks(Draft.SectionText(lines, "Evaluator Draft"), false);
            && (mission == "" ==> answer == Draft.Err(Draft.MissionMissing))
            && (mission != "" && evaluator == "" ==> answer == Draft.Err(Draft.EvaluatorMissing))
            && (answer.Ok? ==>
                  && answer.target.topic == mission && answer.target.command == evaluator
                  && (Draft.SectionText(lines, "Keep Policy") == "" ==> answer.target.policy == Sandbox.ScoreImprovement)
                  && (Draft.SectionText(lines, "Session Slug") == "" ==> answer.target.slug == Draft.Slugs.Slugify(mission)))
  {
    hide *;
    DraftNames();
    DraftCases(lines);
  }

  lemma DraftNames()
    ensures Draft.MissionHeading == "Mission Draft" && Draft.EvaluatorHeading == "Evaluator Draft"
    ensures Draft.PolicyHeading == "Keep Policy" && Draft.SlugHeading == "Session Slug"
  {
  }

  lemma DraftCases(lines: seq<Line>)
    ensures var answer := Draft.ParseDraft(lines);
            var mission, evaluator := Draft.SectionText(lines, Draft.MissionHeading), Draft.JoinBreaks(Draft.SectionText(lines, Draft.EvaluatorHeading), false);
            && (mission == "" ==> answer == Draft.Err(Draft.MissionMissing))
            && (mission != "" && evaluator == "" ==> answer == Draft.Err(Draft.EvaluatorMissing))
            && (answer.Ok? ==>
                  && answer.target.topic == mission && answer.target.command == evaluator
                  && (Draft.SectionText(lines, Draft.PolicyHeading) == "" ==> answer.target.policy == Sandbox.ScoreImprovement)
                  && (Draft.SectionText(lines, Draft.SlugHeading) == "" ==> answer.target.slug == Draft.Slugs.Slugify(mission)))
  {
    hide Draft.SectionText, Draft.JoinBreaks, Sandbox.ParseSandbox, Sandbox.BuildSandbox, Draft.MissionHeading, Draft.EvaluatorHeading, Draft.PolicyHeading, Draft.SlugHeading;
    DefaultPolicy();
    hide Draft.NormalPolicy;
  }

  lemma DefaultPolicy()
    ensures Draft.NormalPolicy("score_improvement") == Sandbox.ScoreImprovement
  {
    var t := "score_improvement";
    assert |"pass_only"| == 9 && |t| == 17 && t[0] == 's' && t[16] == 't';
    assert !IsSpace('s') && !IsSpace('t');
    hide IsSpace, Sandbox.LowerAll;
    TrimVisible(t);
    hide TrimStart, TrimEnd;
    LowerAllIs(t);
  }
}
