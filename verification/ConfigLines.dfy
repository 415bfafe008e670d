/** config.toml as src/config/generator.ts reads it: newline-separated lines, each told apart by the
    regular expressions of that file. Text uses "\n" line ends. */
module ConfigLines {
  import opened Text

  type Line = string

  // ----- text and lines -----

  /** `lines.join("\n")`. */
  function Join(lines: seq<Line>): string {
    if lines == [] then ""
    else if |lines| == 1 then lines[0]
    else Join(lines[..|lines| - 1]) + "\n" + lines[|lines| - 1]
  }

  /** `text.split("\n")`. */
  function Split(text: string): (lines: seq<Line>)
    ensures |lines| > 0
  {
    if text == "" then [""]
    else
      var n := |text| - 1;
      var front := Split(text[..n]);
      if text[n] == '\n' then front + [""]
      else front[..|front| - 1] + [front[|front| - 1] + [text[n]]]
  }

  predicate SingleLine(l: Line) { '\n' !in l }

  lemma JoinSnoc(front: seq<Line>, last: Line)
    ensures Join(front + [last]) == if front == [] then last else Join(front) + "\n" + last
  {
    assert (front + [last])[..|front|] == front;
  }

  lemma {:induction false} JoinSplit(text: string)
    ensures Join(Split(text)) == text
  {
    hide Join;
    if text == "" {
      JoinSnoc([], "");
      assert [] + [""] == [""];
    } else {
      var n := |text| - 1;
      var front := Split(text[..n]);
      JoinSplit(text[..n]);
      assert text == text[..n] + [text[n]];
      JoinExtended(front, text[n]);
    }
  }

  lemma JoinExtended(front: seq<Line>, c: char)
    requires front != []
    ensures Join(front + [""]) == Join(front) + "\n"
    ensures Join(front[..|front| - 1] + [front[|front| - 1] + [c]]) == Join(front) + [c]
  {
    hide Join;
    JoinEmpty(front);
    JoinLonger(front[..|front| - 1], front[|front| - 1], c);
    FrontAndLast(front);
  }

  lemma FrontAndLast(front: seq<Line>)
    requires front != []
    ensures front[..|front| - 1] + [front[|front| - 1]] == front
  {
  }

  lemma JoinEmpty(front: seq<Line>)
    requires front != []
    ensures Join(front + [""]) == Join(front) + "\n"
  {
    JoinSnoc(front, "");
    hide Join;
    var before := Join(front) + "\n";
    assert before + "" == before;
  }

  lemma JoinLonger(all: seq<Line>, last: Line, c: char)
    ensures Join(all + [last + [c]]) == Join(all + [last]) + [c]
  {
    hide Join;
    JoinSnoc(all, last);
    JoinSnoc(all, last + [c]);
    var before := Join(all) + "\n";
    assert before + (last + [c]) == (before + last) + [c];
  }

  lemma {:induction false} SplitSingles(text: string, i: nat)
    requires i < |Split(text)|
    ensures SingleLine(Split(text)[i])
    decreases |text|
  {
    if text != "" {
      var n := |text| - 1;
      var front := Split(text[..n]);
      SplitSingles(text[..n], if i < |front| then i else 0);
    }
  }

  lemma SplitSnoc(text: string, c: char)
    ensures var front := Split(text);
            Split(text + [c]) == if c == '\n' then front + [""] else front[..|front| - 1] + [front[|front| - 1] + [c]]
  {
    assert (text + [c])[..|text|] == text;
  }

  lemma {:induction false} SplitAppend(text: string, l: Line)
    requires SingleLine(l)
    ensures Split(text + "\n" + l) == Split(text) + [l]
    decreases |l|
  {
    hide Split;
    if l == "" {
      SplitSnoc(text, '\n');
      assert text + "\n" + l == text + ['\n'];
    } else {
      var n := |l| - 1;
      var front := l[..n];
      assert l == front + [l[n]] && l[n] in l;
      SplitAppend(text, front);
      assert text + "\n" + l == (text + "\n" + front) + [l[n]];
      SplitSnoc(text + "\n" + front, l[n]);
      assert (Split(text) + [front])[..|Split(text)|] == Split(text);
    }
  }

  lemma {:induction false} SplitSingle(l: Line)
    requires SingleLine(l)
    ensures Split(l) == [l]
  {
    if l != "" {
      var n := |l| - 1;
      SplitSingle(l[..n]);
      assert l[..n] + [l[n]] == l;
    }
  }

  lemma {:induction false} SplitJoin(lines: seq<Line>)
    requires lines != [] && forall i :: 0 <= i < |lines| ==> SingleLine(lines[i])
    ensures Split(Join(lines)) == lines
  {
    if |lines| == 1 {
      SplitSingle(lines[0]);
    } else {
      var n := |lines| - 1;
      SplitJoin(lines[..n]);
      SplitAppend(Join(lines[..n]), lines[n]);
      assert lines == lines[..n] + [lines[n]];
    }
  }

  // ----- what a line is -----

  function Trim(s: string): string { TrimStart(TrimEnd(s)) }

  /** `Table` holds a whole-line header, `[name]` or `[[name]]`; `Opener` any other line whose
      first visible character is `[`; `Setting` a line `key =` with its key. */
  datatype Kind = Empty | Table(text: string) | Opener | Remark | Setting(key: string) | Other

  /** Length of the leading part before a space or `=`. */
  function KeyLength(t: string): (n: nat)
    ensures n <= |t|
  {
    if t == "" || IsSpace(t[0]) || t[0] == '=' then 0 else 1 + KeyLength(t[1..])
  }

  /** `^\[\[?[^\]]+\]?\]$` on trimmed text: an optional second closing bracket aside, nothing but a
      non-empty name without `]` between the outer brackets. */
  predicate IsTableText(t: string) {
    && |t| >= 3 && t[0] == '[' && t[|t| - 1] == ']'
    && (var core := if t[|t| - 2] == ']' then t[1..|t| - 2] else t[1..|t| - 1];
        core != "" && ']' !in core)
  }

  function KindOf(l: Line): Kind {
    var t := Trim(l);
    if t == "" then Empty
    else if t[0] == '[' then (if IsTableText(t) then Table(t) else Opener)
    else if t[0] == '#' then Remark
    else
      var n := KeyLength(t);
      var rest := TrimStart(t[n..]);
      if rest != "" && rest[0] == '=' then Setting(t[..n]) else Other
  }

  predicate IsBlank(l: Line) { KindOf(l).Empty? }
  predicate IsHeader(l: Line) { KindOf(l).Table? }
  /** `^\s*\[`. */
  predicate Opens(l: Line) { KindOf(l).Table? || KindOf(l).Opener? }
  predicate Titled(l: Line, title: string) { KindOf(l) == Table(title) }
  predicate Sets(l: Line, key: string) { KindOf(l) == Setting(key) }

  function HeaderLine(name: string): Line { "[" + name + "]" }
  function SettingLine(key: string, value: string): Line { key + " = " + value }

  predicate BareKey(key: string) {
    key != "" && key[0] != '[' && key[0] != '#' && forall c :: c in key ==> !IsSpace(c) && c != '='
  }

  lemma TrimVisible(s: string)
    requires s != "" && !IsSpace(s[0]) && !IsSpace(s[|s| - 1])
    ensures Trim(s) == s && TrimEnd(s) == s && TrimStart(s) == s
  {
  }

  lemma HeaderLineKind(name: string)
    requires name != "" && ']' !in name
    ensures KindOf(HeaderLine(name)) == Table(HeaderLine(name))
    ensures TrimEnd(HeaderLine(name)) == HeaderLine(name) == TrimStart(HeaderLine(name))
  {
    var t := HeaderLine(name);
    TrimVisible(t);
    assert t[1..|t| - 1] == name;
    assert t[|t| - 2] == name[|name| - 1];
  }

  lemma {:induction false} KeyLengthOf(key: string, rest: string)
    requires forall c :: c in key ==> !IsSpace(c) && c != '='
    requires rest == "" || IsSpace(rest[0]) || rest[0] == '='
    ensures KeyLength(key + rest) == |key|
  {
    if key != "" {
      forall c | c in key[1..] ensures c in key { }
      KeyLengthOf(key[1..], rest);
      assert (key + rest)[1..] == key[1..] + rest;
      assert (key + rest)[0] == key[0] && key[0] in key;
    } else {
      assert key + rest == rest;
    }
  }

  lemma SettingLineKind(key: string, value: string)
    requires BareKey(key) && value != "" && !IsSpace(value[|value| - 1])
    ensures KindOf(SettingLine(key, value)) == Setting(key)
    ensures TrimEnd(SettingLine(key, value)) == SettingLine(key, value) == TrimStart(SettingLine(key, value))
  {
    var t := SettingLine(key, value);
    assert t[0] == key[0] && key[0] in key && t[|t| - 1] == value[|value| - 1];
    TrimVisible(t);
    var rest := " = " + value;
    assert t == key + rest;
    KeyLengthOf(key, rest);
    assert t[|key|..] == rest && t[..|key|] == key;
    assert rest[1..][0] == '=';
    assert TrimStart(rest[1..]) == rest[1..];
    assert TrimStart(rest) == rest[1..];
  }

  // ----- trimming -----

  lemma {:induction false} TrimEndTwice(s: string)
    ensures TrimEnd(TrimEnd(s)) == TrimEnd(s)
  {
    TrimEndCuts(s);
  }

  lemma {:induction false} TrimStartTwice(s: string)
    ensures TrimStart(TrimStart(s)) == TrimStart(s)
  {
    TrimStartCuts(s);
  }

  lemma TrimIgnoresEnd(s: string)
    ensures Trim(TrimEnd(s)) == Trim(s)
  {
    TrimEndTwice(s);
  }

  lemma {:induction false} BlankTrims(s: string)
    requires Blank(s)
    ensures TrimEnd(s) == "" && TrimStart(s) == ""
  {
    TrimStartOfBlank(s);
    TrimEndOf(s, 0);
  }

  /** Trimming from both ends, in either order. */
  lemma TrimCommutes(s: string)
    ensures TrimStart(TrimEnd(s)) == TrimEnd(TrimStart(s))
  {
    TrimStartCuts(s);
    TrimEndCuts(s);
    var a, b := TrimStart(s), TrimEnd(s);
    var i := |s| - |a|;
    VisibleAt(s, |b|, i);
    if |b| <= i {
      assert s[..i] == s;
      BlankTrims(s);
    } else {
      TrimsCore(s, i, |b|);
    }
  }

  lemma VisibleAt(s: string, k: nat, i: nat)
    ensures k <= i < |s| && !IsSpace(s[i]) ==> !Blank(s[k..])
  {
    assert k <= i < |s| ==> s[k..][i - k] == s[i];
  }

  lemma TrimsCore(s: string, i: nat, k: nat)
    requires i < k <= |s| && TrimStart(s) == s[i..] && TrimEnd(s) == s[..k]
    requires Blank(s[..i]) && Blank(s[k..]) && !IsSpace(s[i]) && !IsSpace(s[k - 1])
    ensures TrimStart(TrimEnd(s)) == TrimEnd(TrimStart(s))
  {
    hide TrimStart, TrimEnd, IsSpace, Blank;
    TrimEndCore(s, i, k);
    assert s[..k][..i] == s[..i];
    TrimStartOf(s[..k], i);
    assert s[..k][i..] == s[i..][..k - i];
  }

  lemma TrimEndCore(s: string, i: nat, k: nat)
    requires i < k <= |s| && Blank(s[k..]) && !IsSpace(s[k - 1])
    ensures TrimEnd(s[i..]) == s[i..][..k - i]
  {
    hide TrimStart, TrimEnd, IsSpace, Blank;
    assert s[i..][k - i..] == s[k..];
    TrimEndOf(s[i..], k - i);
  }

  lemma {:induction false} TrimStartOf(s: string, k: nat)
    requires k < |s| && !IsSpace(s[k]) && Blank(s[..k])
    ensures TrimStart(s) == s[k..]
    decreases k
  {
    if k > 0 {
      assert IsSpace(s[..k][0]);
      assert s[1..][..k - 1] == s[..k][1..] && s[1..][k - 1..] == s[k..];
      TrimStartOf(s[1..], k - 1);
    }
  }

  lemma KindIgnoresTrim(l: Line)
    ensures KindOf(TrimEnd(l)) == KindOf(l) == KindOf(TrimStart(l)) == KindOf(Trim(l))
  {
    hide TrimStart, TrimEnd;
    TrimIgnoresEnd(l);
    TrimCommutes(l);
    TrimStartTwice(TrimEnd(l));
    TrimStartTwice(l);
    TrimEndTwice(TrimStart(l));
    TrimCommutes(TrimStart(l));
    TrimCommutes(Trim(l));
    TrimEndTwice(l);
    assert Trim(TrimStart(l)) == Trim(l);
    assert Trim(Trim(l)) == Trim(l);
  }

  lemma BlankIff(l: Line)
    ensures IsBlank(l) <==> Blank(l)
    ensures IsBlank(l) <==> TrimEnd(l) == ""
  {
    TrimEndCuts(l);
    TrimStartCuts(TrimEnd(l));
    if Blank(l) {
      BlankTrims(l);
    }
    if Trim(l) == "" {
      var r := TrimEnd(l);
      assert r[..|r|] == r;
      BlankTrims(r);
      TrimEndTwice(l);
      assert l[0..] == l;
    }
  }

  /** `text.trimEnd()` on lines; no lines at all stand for the empty text. */
  function TrimEndLines(lines: seq<Line>): seq<Line> {
    if lines == [] then []
    else
      var n := |lines| - 1;
      if IsBlank(lines[n]) then TrimEndLines(lines[..n]) else lines[..n] + [TrimEnd(lines[n])]
  }

  /** `text.trimStart()` on lines. */
  function TrimStartLines(lines: seq<Line>): seq<Line> {
    if lines == [] then []
    else if IsBlank(lines[0]) then TrimStartLines(lines[1..])
    else [TrimStart(lines[0])] + lines[1..]
  }

  /** `TrimEndLines` is trimEnd of the joined text. */
  lemma {:induction false} JoinTrimEnd(lines: seq<Line>)
    ensures Join(TrimEndLines(lines)) == TrimEnd(Join(lines))
  {
    hide KindOf, TrimEnd, Blank;
    if lines == [] {
      EmptyTrims();
    } else {
      var n := |lines| - 1;
      var front, last := lines[..n], lines[n];
      assert lines == front + [last];
      JoinSnoc(front, last);
      BlankIff(last);
      if IsBlank(last) {
        JoinTrimEnd(front);
        if front == [] {
          BlankTrims(last);
          assert TrimEndLines(lines) == [];
        } else {
          NewlineBlank(last);
          TrimEndSkips(Join(front), "\n" + last);
          assert Join(front) + "\n" + last == Join(front) + ("\n" + last);
        }
      } else {
        JoinSnoc(front, TrimEnd(last));
        TrimEndLast(if front == [] then "" else Join(front) + "\n", last);
      }
    }
  }

  lemma EmptyTrims()
    ensures TrimEnd("") == ""
  {
  }

  lemma NewlineBlank(l: Line)
    requires Blank(l)
    ensures Blank("\n" + l)
  {
  }

  lemma TrimEndLast(before: string, last: string)
    requires TrimEnd(last) != ""
    ensures TrimEnd(before + last) == before + TrimEnd(last)
  {
    TrimEndCuts(last);
    var kept, whole := TrimEnd(last), before + last;
    var k := |before| + |kept|;
    assert whole[k..] == last[|kept|..];
    assert whole[k - 1] == kept[|kept| - 1];
    assert whole[..k] == before + kept;
    TrimEndOf(whole, k);
  }

  lemma TrimEndSkips(a: string, b: string)
    requires Blank(b)
    ensures TrimEnd(a + b) == TrimEnd(a)
  {
    TrimEndCuts(a);
    var k := |TrimEnd(a)|;
    assert (a + b)[k..] == a[k..] + b;
    assert (a + b)[..k] == a[..k];
    assert k > 0 ==> (a + b)[k - 1] == a[..k][k - 1];
    TrimEndOf(a + b, k);
  }
}
