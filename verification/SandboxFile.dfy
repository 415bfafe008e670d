/** The sandbox.md contract: its parser, src/autoresearch/contracts.ts, and its printer,
    src/cli/autoresearch-intake.ts. Text uses "\n" line ends. */
module SandboxFile {
  import opened Text
  import opened ConfigLines

  datatype Option<T> = None | Some(value: T)
  datatype KeepPolicy = ScoreImprovement | PassOnly

  datatype Problem =
    | NoFrontmatter | UnsupportedLine(text: string) | NestedWithoutParent(text: string) | InvalidSection(key: string)
    | EvaluatorBlock | CommandMissing | FormatMissing | FormatNotJson | BadKeepPolicy

  datatype Contract = Contract(command: string, keepPolicy: Option<KeepPolicy>, body: string)
  datatype Parsed = Ok(contract: Contract) | Err(problem: Problem)

  // ----- one line of frontmatter -----

  /** `line.replace(/\t/g, "  ")`. */
  function Untab(l: string): string {
    if l == "" then "" else (if l[0] == '\t' then "  " else [l[0]]) + Untab(l[1..])
  }

  predicate IsKeyChar(c: char) {
    'A' <= c <= 'Z' || 'a' <= c <= 'z' || '0' <= c <= '9' || c == '_' || c == '-'
  }

  function KeyChars(t: string): (n: nat)
    ensures n <= |t|
  {
    if t == "" || !IsKeyChar(t[0]) then 0 else 1 + KeyChars(t[1..])
  }

  predicate IsQuote(c: char) { c == '\'' || c == '"' }

  function WithoutFirstQuote(v: string): string { if v != "" && IsQuote(v[0]) then v[1..] else v }
  function WithoutLastQuote(v: string): string { if v != "" && IsQuote(v[|v| - 1]) then v[..|v| - 1] else v }

  /** `value.replace(/^['"]|['"]$/g, "")`: one quote at each end, matching or not. */
  function Unquote(v: string): string { WithoutLastQuote(WithoutFirstQuote(v)) }

  /** The characters `.` does not match. */
  predicate IsBreak(c: char) { c == '\n' || c == '\r' || c == '\U{2028}' || c == '\U{2029}' }

  predicate HasBreak(s: string) { exists c :: c in s && IsBreak(c) }

  datatype YamlLine = Skipped | Head(key: string) | Pair(key: string, value: string, nested: bool) | Unsupported(text: string)

  function ReadLine(raw: string): YamlLine {
    var line := Untab(raw);
    var t := Trim(line);
    if t == "" || t[0] == '#' then Skipped
    else
      var n := KeyChars(t);
      if n == 0 || n == |t| || t[n] != ':' then Unsupported(t)
      else
        var rest := TrimStart(t[n + 1..]);
        if rest == "" then Head(t[..n])
        else if HasBreak(rest) then Unsupported(t)
        else Pair(t[..n], Unquote(rest), line != "" && line[0] == ' ')
  }

  // ----- the frontmatter -----

  datatype Value = Scalar(text: string) | Section(fields: map<string, string>)

  datatype Reading = Reading(result: map<string, Value>, current: Option<string>) | Failed(problem: Problem)

  function Read(r: Reading, raw: string): Reading {
    if r.Failed? then r
    else
      match ReadLine(raw)
      case Skipped => r
      case Unsupported(text) => Failed(UnsupportedLine(text))
      case Head(key) => Reading(r.result[key := Section(map[])], Some(key))
      case Pair(key, value, nested) =>
        if !nested then Reading(r.result[key := Scalar(value)], None)
        else if r.current.None? then Failed(NestedWithoutParent(Trim(Untab(raw))))
        else if r.current.value !in r.result || r.result[r.current.value].Scalar? then Failed(InvalidSection(r.current.value))
        else
          var section := r.result[r.current.value].fields;
          r.(result := r.result[r.current.value := Section(section[key := value])])
  }

  function ReadAll(lines: seq<string>): Reading {
    if lines == [] then Reading(map[], None) else Read(ReadAll(lines[..|lines| - 1]), lines[|lines| - 1])
  }

  /** parseSimpleYamlFrontmatter. */
  method ParseFrontmatter(lines: seq<string>) returns (r: Reading)
    ensures r == ReadAll(lines)
  {
    hide ReadLine;
    var result: map<string, Value> := map[];
    var current: Option<string> := None;
    for i := 0 to |lines|
      invariant ReadAll(lines[..i]) == Reading(result, current)
    {
      var raw := lines[i];
      assert lines[..i + 1][..i] == lines[..i];
      ghost var before := Reading(result, current);
      assert ReadAll(lines[..i + 1]) == Read(before, raw);
      match ReadLine(raw) {
        case Skipped => continue;
        case Unsupported(text) =>
          FailedStays(lines, i + 1);
          return Failed(UnsupportedLine(text));
        case Head(key) =>
          result, current := result[key := Section(map[])], Some(key);
        case Pair(key, value, nested) =>
          if nested {
            if current.None? {
              FailedStays(lines, i + 1);
              return Failed(NestedWithoutParent(Trim(Untab(raw))));
            }
            if current.value !in result || result[current.value].Scalar? {
              FailedStays(lines, i + 1);
              return Failed(InvalidSection(current.value));
            }
            result := result[current.value := Section(result[current.value].fields[key := value])];
          } else {
            result, current := result[key := Scalar(value)], None;
          }
      }
    }
    assert lines[..|lines|] == lines;
    r := Reading(result, current);
  }

  lemma {:induction false} FailedStays(lines: seq<string>, i: nat)
    requires i <= |lines| && ReadAll(lines[..i]).Failed?
    ensures ReadAll(lines) == ReadAll(lines[..i])
    decreases |lines| - i
  {
    if i < |lines| {
      assert lines[..i + 1][..i] == lines[..i];
      FailedStays(lines, i + 1);
    } else {
      assert lines[..i] == lines;
    }
  }

  /** The current section is always there: the last of the parser's errors cannot happen. */
  lemma {:induction false} SectionIsThere(lines: seq<string>)
    ensures var r := ReadAll(lines);
            && (r.Reading? && r.current.Some? ==> r.current.value in r.result && r.result[r.current.value].Section?)
            && (r.Failed? ==> !r.problem.InvalidSection?)
  {
    hide ReadLine;
    if lines != [] {
      SectionIsThere(lines[..|lines| - 1]);
    }
  }

  // ----- the contract -----

  /** Index of the closing line, the first from the third on that starts with `---`. */
  function ClosingAt(lines: seq<string>, i: nat): (j: nat)
    requires i <= |lines|
    ensures i <= j <= |lines|
    ensures j < |lines| ==> "---" <= lines[j]
    decreases |lines| - i
  {
    if i == |lines| || "---" <= lines[i] then i else ClosingAt(lines, i + 1)
  }

  function LowerAll(s: string): string {
    if s == "" then "" else [if 'A' <= s[0] <= 'Z' then s[0] - 'A' + 'a' else s[0]] + LowerAll(s[1..])
  }

  datatype PolicyRead = Absent | Policy(policy: KeepPolicy) | Wrong

  /** parseKeepPolicy. */
  function ReadPolicy(fields: map<string, string>): PolicyRead {
    if "keep_policy" !in fields then Absent
    else
      var t := LowerAll(Trim(fields["keep_policy"]));
      if t == "" then Absent
      else if t == "pass_only" then Policy(PassOnly)
      else if t == "score_improvement" then Policy(ScoreImprovement)
      else Wrong
  }

  function FieldText(fields: map<string, string>, key: string): string {
    if key in fields then Trim(fields[key]) else ""
  }

  function Evaluate(fields: map<string, string>, body: string): Parsed {
    var command, format := FieldText(fields, "command"), LowerAll(FieldText(fields, "format"));
    var policy := ReadPolicy(fields);
    if policy.Wrong? then Err(BadKeepPolicy)
    else if command == "" then Err(CommandMissing)
    else if format == "" then Err(FormatMissing)
    else if format != "json" then Err(FormatNotJson)
    else Ok(Contract(command, if policy.Policy? then Some(policy.policy) else None, body))
  }

  /** parseSandboxContract. */
  function ParseSandbox(text: string): Parsed {
    var lines := Split(text);
    var j := if |lines| >= 2 then ClosingAt(lines, 2) else |lines|;
    if lines[0] != "---" || j == |lines| then Err(NoFrontmatter)
    else
      var reading := ReadAll(lines[1..j]);
      var body := Trim(Join([lines[j][3..]] + lines[j + 1..]));
      if reading.Failed? then Err(reading.problem)
      else if "evaluator" !in reading.result || reading.result["evaluator"].Scalar? then Err(EvaluatorBlock)
      else Evaluate(reading.result["evaluator"].fields, body)
  }

  // ----- the printer -----

  function OneLine(command: string): string {
    if command == "" then ""
    else [if command[0] == '\n' || command[0] == '\r' then ' ' else command[0]] + OneLine(command[1..])
  }

  function PolicyName(p: KeepPolicy): string { if p == PassOnly then "pass_only" else "score_improvement" }

  function SandboxLines(command: string, p: KeepPolicy): seq<string> {
    ["---", "evaluator:", "  command: " + command, "  format: json", "  keep_policy: " + PolicyName(p), "---", ""]
  }

  /** buildSandboxContent. */
  function BuildSandbox(command: string, p: KeepPolicy): string { Join(SandboxLines(Trim(OneLine(command)), p)) }

  // ----- reading back what was printed -----

  lemma {:induction false} UntabConcat(a: string, b: string)
    ensures Untab(a + b) == Untab(a) + Untab(b)
  {
    if a == "" {
      assert a + b == b;
    } else {
      assert (a + b)[1..] == a[1..] + b;
      UntabConcat(a[1..], b);
    }
  }

  lemma {:induction false} UntabNone(l: string)
    requires '\t' !in l
    ensures Untab(l) == l
  {
    if l != "" {
      assert l == [l[0]] + l[1..];
      UntabNone(l[1..]);
    }
  }

  lemma {:induction false} UntabHasNone(l: string)
    ensures '\t' !in Untab(l)
    ensures l != "" ==> |Untab(l)| > 0
  {
    if l != "" {
      UntabHasNone(l[1..]);
      assert '\t' !in (if l[0] == '\t' then "  " else [l[0]]);
    }
  }

  predicate Visible(v: string) { v != "" && !IsSpace(v[0]) && !IsSpace(v[|v| - 1]) }

  lemma UntabVisible(v: string)
    requires Visible(v)
    ensures Visible(Untab(v)) && Untab(v)[0] == v[0] && Untab(v)[|Untab(v)| - 1] == v[|v| - 1]
  {
    var n := |v| - 1;
    assert v == [v[0]] + v[1..] && v == v[..n] + [v[n]];
    UntabConcat([v[0]], v[1..]);
    UntabConcat(v[..n], [v[n]]);
    OneChar(v[0]);
    OneChar(v[n]);
  }

  lemma OneChar(c: char)
    requires !IsSpace(c)
    ensures Untab([c]) == [c]
  {
    assert [c][1..] == "";
  }

  lemma {:induction false} KeyCharsOf(key: string, rest: string)
    requires forall c :: c in key ==> IsKeyChar(c)
    requires rest == "" || !IsKeyChar(rest[0])
    ensures KeyChars(key + rest) == |key|
  {
    if key == "" {
      assert key + rest == rest;
    } else {
      assert (key + rest)[1..] == key[1..] + rest;
      assert (key + rest)[0] == key[0] && key[0] in key;
      KeyCharsOf(key[1..], rest);
    }
  }

  predicate IsKey(key: string) { key != "" && forall c :: c in key ==> IsKeyChar(c) }

  lemma KeyCharPlain(c: char)
    requires IsKeyChar(c)
    ensures !IsSpace(c) && c != '#' && c != '\t'
  {
  }

  lemma IndentTrims(t: string)
    requires Visible(t)
    ensures Trim("  " + t) == t
  {
    var s := "  " + t;
    assert s[|s| - 1] == t[|t| - 1];
    assert TrimEnd(s) == s;
    SpaceTrims(t);
    assert s[1..] == " " + t;
  }

  lemma SpaceTrims(v: string)
    requires Visible(v)
    ensures TrimStart(" " + v) == v
  {
    assert (" " + v)[1..] == v;
    TrimStartOfVisible(v);
  }

  lemma {:induction false} UntabBreaks(l: string)
    ensures HasBreak(Untab(l)) <==> HasBreak(l)
  {
    if l != "" {
      UntabBreaks(l[1..]);
      var first := if l[0] == '\t' then "  " else [l[0]];
      BreaksConcat([l[0]], l[1..]);
      BreaksConcat(first, Untab(l[1..]));
      assert l == [l[0]] + l[1..];
      assert HasBreak([l[0]]) <==> IsBreak(l[0]) by { assert l[0] in [l[0]]; }
      assert HasBreak(first) <==> IsBreak(l[0]) by { assert first[0] in first; }
    }
  }

  lemma BreaksConcat(a: string, b: string)
    ensures HasBreak(a + b) <==> HasBreak(a) || HasBreak(b)
  {
    if c :| c in a && IsBreak(c) { assert c in a + b; }
    if c :| c in b && IsBreak(c) { assert c in a + b; }
  }

  /** An indented `key: value` line is read as a pair, tabs widened and outer quotes dropped, unless a
      line break other than "\n" stands in it. */
  lemma NestedLine(key: string, v: string)
    requires IsKey(key) && Visible(v)
    ensures ReadLine("  " + key + ": " + v)
         == if HasBreak(v) then Unsupported(key + ": " + Untab(v)) else Pair(key, Unquote(Untab(v)), true)
  {
    hide IsSpace, IsKeyChar, TrimStart, TrimEnd, Trim, Unquote, KeyChars, Untab, HasBreak;
    UntabVisible(v);
    UntabBreaks(v);
    assert key + ": " + Untab(v) == key + (": " + Untab(v));
    var w := Untab(v);
    var t := key + (": " + w);
    NestedUntabbed(key, v);
    assert key[0] in key;
    KeyCharPlain(key[0]);
    assert t[0] == key[0] && t[|t| - 1] == w[|w| - 1];
    IndentTrims(t);
    ColonIsNoKey();
    KeyCharsOf(key, ": " + w);
    assert t[|key|] == ':' && t[|key| + 1..] == " " + w && t[..|key|] == key;
    SpaceTrims(w);
  }

  lemma ColonIsNoKey()
    ensures !IsKeyChar(':')
  {
  }

  lemma NestedUntabbed(key: string, v: string)
    requires IsKey(key)
    ensures Untab("  " + key + ": " + v) == "  " + (key + (": " + Untab(v)))
  {
    hide Untab;
    forall c | c in key ensures c != '\t' { KeyCharPlain(c); }
    assert "  " + key + ": " + v == ("  " + (key + ": ")) + v;
    UntabConcat("  " + (key + ": "), v);
    UntabNone("  " + (key + ": "));
  }

  lemma HeadLine(key: string)
    requires IsKey(key)
    ensures ReadLine(key + ":") == Head(key)
  {
    hide IsKeyChar;
    forall c | c in key ensures c != '\t' { KeyCharPlain(c); }
    UntabNone(key + ":");
    assert key[0] in key;
    KeyCharPlain(key[0]);
    ColonIsNoKey();
    assert !IsSpace(':');
    var t := key + ":";
    assert t[0] == key[0];
    TrimVisible(t);
    KeyCharsOf(key, ":");
    assert t[|key| + 1..] == "" && t[..|key|] == key;
  }

  lemma FixedKeys()
    ensures IsKey("evaluator") && IsKey("command") && IsKey("format") && IsKey("keep_policy")
  {
  }

  lemma FixedValues(p: KeepPolicy)
    ensures Visible("json") && Unquote(Untab("json")) == "json" && !HasBreak("json")
    ensures Visible(PolicyName(p)) && Unquote(Untab(PolicyName(p))) == PolicyName(p) && !HasBreak(PolicyName(p))
  {
    hide Untab, Unquote, Visible, HasBreak;
    PlainValue("json");
    match p
    case PassOnly => PlainValue("pass_only");
    case ScoreImprovement => PlainValue("score_improvement");
  }

  predicate IsLowerName(v: string) { v != "" && forall c :: c in v ==> 'a' <= c <= 'z' || c == '_' }

  lemma LowerNames()
    ensures IsLowerName("json") && IsLowerName("pass_only") && IsLowerName("score_improvement")
  {
  }

  /** A name in lower case is read back as it is. */
  lemma PlainValue(v: string)
    requires v == "json" || v == "pass_only" || v == "score_improvement"
    ensures Visible(v) && Unquote(Untab(v)) == v && !HasBreak(v)
  {
    LowerNames();
    PlainName(v);
  }

  lemma PlainName(v: string)
    requires IsLowerName(v)
    ensures Visible(v) && Unquote(Untab(v)) == v && LowerAll(Trim(v)) == v && !HasBreak(v)
  {
    hide IsSpace, Untab, LowerAll, TrimStart, TrimEnd;
    LetterPlain();
    assert v[0] in v && v[|v| - 1] in v;
    UntabNone(v);
    TrimVisible(v);
    LowerSame(v);
  }

  lemma LetterPlain()
    ensures forall c :: 'a' <= c <= 'z' || c == '_' ==> !IsSpace(c) && !IsQuote(c) && c != '\t' && !('A' <= c <= 'Z') && !IsBreak(c)
  {
  }

  lemma FixedReads(p: KeepPolicy)
    ensures LowerAll(Trim("json")) == "json"
    ensures LowerAll(Trim(PolicyName(p))) == PolicyName(p)
  {
    hide LowerAll, Trim, IsLowerName, Visible, Untab, Unquote;
    LowerNames();
    PlainName("json");
    PlainName("pass_only");
    PlainName("score_improvement");
  }

  lemma {:induction false} LowerSame(s: string)
    requires forall c :: c in s ==> !('A' <= c <= 'Z')
    ensures LowerAll(s) == s
  {
    if s != "" {
      assert s == [s[0]] + s[1..];
      assert s[0] in s;
      forall c | c in s[1..] ensures c in s { }
      LowerSame(s[1..]);
    }
  }

  /** The fields the parser finds in a printed frontmatter. */
  function PrintedFields(command: string, p: KeepPolicy): map<string, string> {
    map["command" := Unquote(Untab(command)), "format" := "json", "keep_policy" := PolicyName(p)]
  }

  lemma ReadsPrinted(command: string, p: KeepPolicy)
    requires Visible(command)
    ensures ReadAll(SandboxLines(command, p)[1..5])
         == if HasBreak(command) then Failed(UnsupportedLine("command" + ": " + Untab(command)))
            else Reading(map["evaluator" := Section(PrintedFields(command, p))], Some("evaluator"))
  {
    hide ReadLine, Untab, Unquote, IsKey, Visible, HasBreak;
    FixedKeys();
    FixedValues(p);
    HeadLine("evaluator");
    NestedLine("command", command);
    NestedLine("format", "json");
    NestedLine("keep_policy", PolicyName(p));
    LineTexts(command, p);
    var l1, l2, l3, l4 := "evaluator:", "  command: " + command, "  format: json", "  keep_policy: " + PolicyName(p);
    assert SandboxLines(command, p)[1..5] == [l1, l2, l3, l4];
    ReadFour(l1, l2, l3, l4);
    FieldNames();
  }

  lemma FieldNames()
    ensures "command" != "format" && "command" != "keep_policy" && "format" != "keep_policy"
  {
    assert |"command"| == 7 && |"format"| == 6 && |"keep_policy"| == 11;
  }

  lemma LineTexts(command: string, p: KeepPolicy)
    ensures "  command: " + command == "  " + "command" + ": " + command
    ensures "  format: json" == "  " + "format" + ": " + "json"
    ensures "  keep_policy: " + PolicyName(p) == "  " + "keep_policy" + ": " + PolicyName(p)
    ensures "evaluator:" == "evaluator" + ":"
  {
    assert "  command: " == "  " + "command" + ": ";
    assert "  keep_policy: " == "  " + "keep_policy" + ": ";
  }

  lemma ReadFour(a: string, b: string, c: string, d: string)
    ensures ReadAll([a, b, c, d]) == Read(Read(Read(Read(Reading(map[], None), a), b), c), d)
  {
    hide Read;
    assert [a, b, c, d][..3] == [a, b, c] && [a, b, c][..2] == [a, b] && [a, b][..1] == [a] && [a][..0] == [];
    assert ReadAll([]) == Reading(map[], None);
    assert ReadAll([a]) == Read(ReadAll([]), a);
    assert ReadAll([a, b]) == Read(ReadAll([a]), b);
    assert ReadAll([a, b, c]) == Read(ReadAll([a, b]), c);
  }

  lemma ClosesPrinted(command: string, p: KeepPolicy)
    ensures ClosingAt(SandboxLines(command, p), 2) == 5
  {
    var lines := SandboxLines(command, p);
    assert lines[2][0] == ' ' && lines[3][0] == ' ' && lines[4][0] == ' ' && lines[5] == "---";
    assert "---"[0] == '-';
    assert ClosingAt(lines, 5) == 5;
    assert ClosingAt(lines, 4) == 5;
    assert ClosingAt(lines, 3) == 5;
  }

  lemma PrintedSingles(command: string, p: KeepPolicy)
    requires '\n' !in command
    ensures forall i :: 0 <= i < 7 ==> SingleLine(SandboxLines(command, p)[i])
  {
    assert SingleLine("---") && SingleLine("evaluator:") && SingleLine("  format: json") && SingleLine("");
    assert '\n' !in "  command: " && '\n' !in "  keep_policy: " && '\n' !in PolicyName(p);
  }

  lemma TailBody()
    ensures Trim(Join(["---"[3..]] + [""])) == ""
  {
    assert "---"[3..] == "";
    assert ["", ""][..1] == [""];
    assert Join(["", ""]) == "\n";
    assert "\n"[..0] == "";
  }

  /** What the parser makes of a printed command. */
  lemma ParsesPrinted(command: string, p: KeepPolicy)
    requires Visible(command) && '\n' !in command && '\r' !in command
    ensures var read := Trim(Unquote(Untab(command)));
            ParseSandbox(BuildSandbox(command, p))
            == if HasBreak(command) then Err(UnsupportedLine("command" + ": " + Untab(command)))
               else if read == "" then Err(CommandMissing)
               else Ok(Contract(read, Some(p), ""))
  {
    hide Untab, Unquote, Split, Join, ReadAll, LowerAll, SandboxLines, ClosingAt, Visible, HasBreak;
    StaysOneLine(command);
    VisibleTrims(command);
    PrintedSingles(command, p);
    var lines := SandboxLines(command, p);
    SevenLines(command, p);
    SplitJoin(lines);
    ClosesPrinted(command, p);
    ReadsPrinted(command, p);
    TailBody();
    EvaluatesPrinted(command, p);
  }

  lemma VisibleTrims(v: string)
    requires Visible(v)
    ensures Trim(v) == v
  {
    TrimVisible(v);
  }

  lemma SevenLines(command: string, p: KeepPolicy)
    ensures var lines := SandboxLines(command, p);
            |lines| == 7 && lines[0] == "---" && lines[5] == "---" && lines[6..] == [""]
  {
  }

  lemma EvaluatesPrinted(command: string, p: KeepPolicy)
    ensures var read := Trim(Unquote(Untab(command)));
            Evaluate(PrintedFields(command, p), "") == if read == "" then Err(CommandMissing) else Ok(Contract(read, Some(p), ""))
  {
    hide Untab, Unquote, LowerAll, Trim;
    FixedReads(p);
    FieldNames();
    PolicyNames();
  }

  lemma PolicyNames()
    ensures PolicyName(PassOnly) != "" && PolicyName(ScoreImprovement) != "" && PolicyName(PassOnly) != PolicyName(ScoreImprovement)
  {
    assert |PolicyName(PassOnly)| == 9;
  }

  lemma {:induction false} StaysOneLine(command: string)
    requires '\n' !in command && '\r' !in command
    ensures OneLine(command) == command
  {
    if command != "" {
      assert command == [command[0]] + command[1..];
      StaysOneLine(command[1..]);
    }
  }

  /** A trimmed one-line command comes back exactly when it holds no tab, no Unicode line or paragraph
      separator, and neither begins nor ends with a quote. */
  lemma SandboxRoundTripIff(command: string, p: KeepPolicy)
    requires Visible(command) && '\n' !in command && '\r' !in command
    ensures ParseSandbox(BuildSandbox(command, p)) == Ok(Contract(command, Some(p), ""))
            <==> '\t' !in command && '\U{2028}' !in command && '\U{2029}' !in command
                 && !IsQuote(command[0]) && !IsQuote(command[|command| - 1])
  {
    hide ParseSandbox, BuildSandbox;
    ParsesPrinted(command, p);
    UntabHasNone(command);
    var read := Trim(Unquote(Untab(command)));
    if '\t' in command {
      TrimChars(Unquote(Untab(command)));
    } else {
      UntabNone(command);
      if IsQuote(command[0]) || IsQuote(command[|command| - 1]) {
        TrimShort(Unquote(command));
      } else {
        VisibleTrims(command);
      }
    }
  }

  lemma TrimChars(s: string)
    ensures forall c :: c in Trim(s) ==> c in s
  {
    TrimEndCuts(s);
    TrimStartCuts(TrimEnd(s));
    var r := TrimEnd(s);
    forall c | c in Trim(s) ensures c in s {
      assert c in r;
    }
  }

  lemma TrimShort(s: string)
    ensures |Trim(s)| <= |s|
  {
  }

  /** Every command is printed on one line: what it reads back as depends on its one-line form only. */
  lemma PrintsOneLine(command: string, p: KeepPolicy)
    ensures BuildSandbox(command, p) == BuildSandbox(Trim(OneLine(command)), p)
  {
    OneLineHasNone(command);
    TrimChars(OneLine(command));
    StaysOneLine(Trim(OneLine(command)));
    TrimAgain(OneLine(command));
  }

  lemma TrimAgain(s: string)
    ensures Trim(Trim(s)) == Trim(s)
  {
    hide TrimStart, TrimEnd;
    TrimCommutes(Trim(s));
    TrimCommutes(s);
    TrimEndTwice(TrimStart(s));
    TrimStartTwice(TrimEnd(s));
  }

  lemma {:induction false} OneLineHasNone(command: string)
    ensures '\n' !in OneLine(command) && '\r' !in OneLine(command)
  {
    if command != "" {
      OneLineHasNone(command[1..]);
    }
  }
}
