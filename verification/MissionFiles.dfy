/** Mission slugs of src/autoresearch/contracts.ts, for names whose letters are ASCII. */
module Slugs {
  const MaxLength: nat := 48
  const Fallback := "mission"

  function Lower(c: char): char { if 'A' <= c <= 'Z' then c - 'A' + 'a' else c }

  predicate IsWordChar(c: char) { 'a' <= c <= 'z' || '0' <= c <= '9' }

  /** Lower case, with every run of other characters replaced by one dash. */
  function Dashed(name: string, inRun: bool): string {
    if name == "" then ""
    else
      var c := Lower(name[0]);
      if IsWordChar(c) then [c] + Dashed(name[1..], false)
      else (if inRun then "" else "-") + Dashed(name[1..], true)
  }

  function WithoutLead(s: string): string { if s != "" && s[0] == '-' then s[1..] else s }
  function WithoutTail(s: string): string { if s != "" && s[|s| - 1] == '-' then s[..|s| - 1] else s }
  function Cut(s: string): string { if |s| > MaxLength then s[..MaxLength] else s }

  /** slugifyMissionName. */
  function Slugify(name: string): string {
    var cut := Cut(WithoutTail(WithoutLead(Dashed(name, false))));
    if cut == "" then Fallback else cut
  }

  /** Word characters and single dashes. */
  predicate IsDashed(s: string) {
    && (forall i :: 0 <= i < |s| ==> IsWordChar(s[i]) || s[i] == '-')
    && (forall i :: 0 <= i < |s| - 1 ==> s[i] == '-' ==> s[i + 1] != '-')
  }

  lemma IsDashedCons(c: char, s: string)
    requires IsDashed(s) && (IsWordChar(c) || (c == '-' && (s == "" || s[0] != '-')))
    ensures IsDashed([c] + s)
  {
  }

  lemma IsDashedPart(s: string, lo: nat, hi: nat)
    requires IsDashed(s) && lo <= hi <= |s|
    ensures IsDashed(s[lo..hi])
  {
  }

  lemma {:induction false} DashedIs(name: string, inRun: bool)
    ensures IsDashed(Dashed(name, inRun))
    ensures inRun && Dashed(name, inRun) != "" ==> Dashed(name, inRun)[0] != '-'
  {
    if name != "" {
      var c := Lower(name[0]);
      if IsWordChar(c) {
        DashedIs(name[1..], false);
        IsDashedCons(c, Dashed(name[1..], false));
      } else {
        DashedIs(name[1..], true);
        IsDashedCons('-', Dashed(name[1..], true));
        assert "" + Dashed(name[1..], true) == Dashed(name[1..], true);
      }
    }
  }

  /** Dashing changes nothing in what is dashed already. */
  lemma {:induction false} DashedAgain(s: string, inRun: bool)
    requires IsDashed(s) && (inRun && s != "" ==> s[0] != '-')
    ensures Dashed(s, inRun) == s
  {
    if s != "" {
      IsDashedPart(s, 1, |s|);
      assert s[1..|s|] == s[1..];
      DashedAgain(s[1..], s[0] == '-');
      assert s == [s[0]] + s[1..];
    }
  }

  predicate EndsInDash(s: string) { s != "" && s[|s| - 1] == '-' }

  /** Every slug uses [a-z0-9-] only, has length 1 to 48, starts with a word character and has no two
      dashes in a row. */
  lemma SlugShape(name: string)
    ensures var slug := Slugify(name);
            1 <= |slug| <= MaxLength && IsDashed(slug) && slug[0] != '-'
  {
    DashedIs(name, false);
    var d := Dashed(name, false);
    var lead := WithoutLead(d);
    IsDashedPart(d, |d| - |lead|, |d|);
    assert d[|d| - |lead|..|d|] == lead;
    var tail := WithoutTail(lead);
    IsDashedPart(lead, 0, |tail|);
    assert lead[0..|tail|] == tail;
    var cut := Cut(tail);
    IsDashedPart(tail, 0, |cut|);
    assert tail[0..|cut|] == cut;
    FallbackIsDashed();
  }

  lemma FallbackIsDashed()
    ensures IsDashed(Fallback)
  {
  }

  /** What slugifying does to a slug: a dash left at the end by the cut goes. */
  lemma SlugOfSlug(slug: string)
    requires 1 <= |slug| <= MaxLength && IsDashed(slug) && slug[0] != '-'
    ensures Slugify(slug) == WithoutTail(slug)
  {
    DashedAgain(slug, false);
  }

  /** Once is enough exactly when the cut left no dash at the end. */
  lemma SlugTwiceIff(name: string)
    ensures Slugify(Slugify(name)) == Slugify(name) <==> !EndsInDash(Slugify(name))
  {
    SlugShape(name);
    SlugOfSlug(Slugify(name));
  }

  /** Twice is always enough. */
  lemma SlugSettles(name: string)
    ensures Slugify(Slugify(Slugify(name))) == Slugify(Slugify(name))
  {
    var once := Slugify(name);
    SlugShape(name);
    SlugOfSlug(once);
    var twice := Slugify(once);
    SlugShape(once);
    SlugOfSlug(twice);
    if EndsInDash(once) {
      assert once[|once| - 2] != '-';
    }
  }

  // ----- what a slug says -----

  predicate IsLetterOrDigit(c: char) { 'a' <= c <= 'z' || 'A' <= c <= 'Z' || '0' <= c <= '9' }

  function LowerCase(c: char): char { if 'A' <= c <= 'Z' then (c as int + 32) as char else c }

  /** The longest runs of letters and digits, in lower case. */
  function Words(name: string): (words: seq<string>)
    ensures name != "" && IsLetterOrDigit(name[0]) ==> words != []
  {
    if name == "" then []
    else
      var later := Words(name[1..]);
      if !IsLetterOrDigit(name[0]) then later
      else if |name| > 1 && IsLetterOrDigit(name[1]) then [[LowerCase(name[0])] + later[0]] + later[1..]
      else [[LowerCase(name[0])]] + later
  }

  /** The words with one dash between any two. */
  function Joined(words: seq<string>): string {
    if words == [] then "" else if |words| == 1 then words[0] else words[0] + "-" + Joined(words[1..])
  }

  predicate WordsOk(words: seq<string>) { forall w :: w in words ==> w != "" && forall c :: c in w ==> IsWordChar(c) }

  lemma {:induction false} WordsAreWords(name: string)
    ensures WordsOk(Words(name))
  {
    if name != "" {
      WordsAreWords(name[1..]);
      var later := Words(name[1..]);
      if IsLetterOrDigit(name[0]) {
        var c := LowerCase(name[0]);
        if |name| > 1 && IsLetterOrDigit(name[1]) {
          WordGrows(c, later);
        } else {
          WordBegins(c, later);
        }
      }
    }
  }

  lemma WordGrows(c: char, later: seq<string>)
    requires IsWordChar(c) && WordsOk(later) && later != []
    ensures WordsOk([[c] + later[0]] + later[1..])
  {
    hide IsWordChar;
    assert later[0] in later;
    forall w | w in later[1..] ensures w in later { }
  }

  lemma WordBegins(c: char, later: seq<string>)
    requires IsWordChar(c) && WordsOk(later)
    ensures WordsOk([[c]] + later)
  {
    hide IsWordChar;
  }

  predicate LeadsIn(name: string) { name != "" && !IsLetterOrDigit(name[0]) }

  predicate LeadsOut(name: string) { name != "" && !IsLetterOrDigit(name[|name| - 1]) && Words(name) != [] }

  function DashIf(b: bool): string { if b then "-" else "" }

  /** Dashing writes the words with dashes between, and one dash for what stands before the first and one
      for what stands behind the last. */
  lemma {:induction false} DashedIsJoined(name: string, inRun: bool)
    ensures Dashed(name, inRun) == DashIf(LeadsIn(name) && !inRun) + Joined(Words(name)) + DashIf(LeadsOut(name))
  {
    if name != "" {
      hide Dashed, Joined, Words, IsLetterOrDigit, LeadsOut;
      DashedIsJoined(name[1..], !IsLetterOrDigit(name[0]));
      NoWordsNoLetters(name[1..]);
      if IsLetterOrDigit(name[0]) {
        DashedLetter(name, inRun);
        Front(Joined(Words(name)), DashIf(LeadsOut(name)));
      } else {
        DashedOther(name, inRun);
      }
    } else {
      assert Joined(Words(name)) == "";
    }
  }

  lemma Front(j: string, z: string)
    ensures "" + j + z == j + z
  {
  }

  lemma DashedOther(name: string, inRun: bool)
    requires name != "" && !IsLetterOrDigit(name[0])
    requires Dashed(name[1..], true) == "" + Joined(Words(name[1..])) + DashIf(LeadsOut(name[1..]))
    ensures Dashed(name, inRun) == DashIf(!inRun) + Joined(Words(name)) + DashIf(LeadsOut(name))
  {
    OtherFirst(name, inRun);
    hide Joined, Dashed, Words, IsLetterOrDigit, LeadsOut, DashIf;
    Around(DashIf(!inRun), Joined(Words(name)), DashIf(LeadsOut(name)));
  }

  lemma Around(a: string, j: string, z: string)
    ensures a + ("" + j + z) == a + j + z
  {
  }

  lemma OtherFirst(name: string, inRun: bool)
    requires name != "" && !IsLetterOrDigit(name[0])
    ensures Dashed(name, inRun) == DashIf(!inRun) + Dashed(name[1..], true)
    ensures Words(name) == Words(name[1..]) && (LeadsOut(name) <==> LeadsOut(name[1..]))
  {
    assert !IsWordChar(Lower(name[0]));
    assert name[1..] != "" ==> name[1..][|name| - 2] == name[|name| - 1];
  }

  lemma DashedLetter(name: string, inRun: bool)
    requires name != "" && IsLetterOrDigit(name[0])
    requires var rest := name[1..];
             && Dashed(rest, false) == DashIf(LeadsIn(rest)) + Joined(Words(rest)) + DashIf(LeadsOut(rest))
             && (Words(rest) == [] ==> forall i :: 0 <= i < |rest| ==> !IsLetterOrDigit(rest[i]))
    ensures Dashed(name, inRun) == Joined(Words(name)) + DashIf(LeadsOut(name))
  {
    var rest, c := name[1..], LowerCase(name[0]);
    LetterFirst(name, inRun);
    if rest != "" && IsLetterOrDigit(rest[0]) {
      LetterOn(name);
      JoinsOn(c, Words(rest));
      hide *;
      Around([c], Joined(Words(rest)), DashIf(LeadsOut(rest)));
    } else {
      LetterLast(name);
      JoinsNew(c, Words(rest));
      hide *;
      Spread([c], Joined(Words(rest)), DashIf(LeadsOut(rest)));
    }
  }

  lemma Spread(c: string, j: string, z: string)
    ensures c + ("-" + j + z) == c + ("-" + j) + z
    ensures c + ("-" + "" + "") == c + "" + "-"
    ensures c + ("" + "" + "") == c + "" + ""
  {
  }

  lemma LetterFirst(name: string, inRun: bool)
    requires name != "" && IsLetterOrDigit(name[0])
    ensures Dashed(name, inRun) == [LowerCase(name[0])] + Dashed(name[1..], false)
  {
    assert Lower(name[0]) == LowerCase(name[0]) && IsWordChar(Lower(name[0]));
  }

  /** The word goes on. */
  lemma LetterOn(name: string)
    requires |name| > 1 && IsLetterOrDigit(name[0]) && IsLetterOrDigit(name[1])
    ensures var rest := name[1..];
            && Words(rest) != [] && Words(name) == [[LowerCase(name[0])] + Words(rest)[0]] + Words(rest)[1..]
            && DashIf(LeadsOut(name)) == DashIf(LeadsOut(rest)) && DashIf(LeadsIn(rest)) == ""
  {
  }

  /** The word is over, at the end of the name or in front of another character. */
  lemma LetterLast(name: string)
    requires name != "" && IsLetterOrDigit(name[0]) && (|name| == 1 || !IsLetterOrDigit(name[1]))
    requires Words(name[1..]) == [] ==> forall i :: 0 <= i < |name[1..]| ==> !IsLetterOrDigit(name[1..][i])
    ensures var rest := name[1..];
            && Words(name) == [[LowerCase(name[0])]] + Words(rest)
            && (Words(rest) != [] ==> DashIf(LeadsOut(name)) == DashIf(LeadsOut(rest)) && DashIf(LeadsIn(rest)) == "-")
            && (Words(rest) == [] ==> DashIf(LeadsOut(rest)) == "" && Joined(Words(rest)) == ""
                                      && DashIf(LeadsIn(rest)) == DashIf(LeadsOut(name)) && DashIf(LeadsOut(name)) in ["", "-"])
  {
  }

  lemma {:induction false} NoWordsNoLetters(name: string)
    ensures Words(name) == [] ==> forall i :: 0 <= i < |name| ==> !IsLetterOrDigit(name[i])
  {
    if name != "" && Words(name) == [] {
      NoWordsNoLetters(name[1..]);
      assert name == [name[0]] + name[1..];
    }
  }

  lemma JoinedHead(w: string, rest: seq<string>)
    ensures Joined([w] + rest) == w + (if rest == [] then "" else "-" + Joined(rest))
  {
    assert ([w] + rest)[1..] == rest;
  }

  lemma JoinsOn(c: char, later: seq<string>)
    requires later != []
    ensures Joined([[c] + later[0]] + later[1..]) == [c] + Joined(later)
  {
    hide Joined;
    assert later == [later[0]] + later[1..];
    JoinedHead([c] + later[0], later[1..]);
    JoinedHead(later[0], later[1..]);
  }

  lemma JoinsNew(c: char, later: seq<string>)
    ensures Joined([[c]] + later) == [c] + (if later == [] then "" else "-" + Joined(later))
  {
    JoinedHead([c], later);
  }

  /** A slug is the words of the name in lower case with single dashes between them, cut to 48
      characters, or "mission" for a name without letters and digits. */
  lemma SlugSays(name: string)
    ensures var words := Joined(Words(name));
            Slugify(name) == if words == "" then "mission" else if |words| > 48 then words[..48] else words
  {
    DashedIsJoined(name, false);
    WordsAreWords(name);
    JoinedEnds(Words(name));
    assert LeadsOut(name) ==> Words(name) != [];
    assert LeadsIn(name) ==> name != "";
    hide Dashed, Joined, Words, LeadsIn, LeadsOut, WithoutLead, WithoutTail;
    DashesGo(Joined(Words(name)), LeadsIn(name), LeadsOut(name));
  }

  lemma DashesGo(words: string, lead: bool, tail: bool)
    requires words != "" ==> words[0] != '-' && words[|words| - 1] != '-'
    requires words == "" ==> !tail
    ensures WithoutTail(WithoutLead(DashIf(lead) + words + DashIf(tail))) == words
  {
    var d := DashIf(lead) + words + DashIf(tail);
    if lead { assert d[1..] == words + DashIf(tail); } else { assert d == words + DashIf(tail); }
    assert WithoutLead(d) == words + DashIf(tail);
    assert tail ==> (words + DashIf(tail))[..|words|] == words;
  }

  lemma {:induction false} JoinedEnds(words: seq<string>)
    requires WordsOk(words)
    ensures words == [] <==> Joined(words) == ""
    ensures words != [] ==> Joined(words)[0] != '-' && Joined(words)[|Joined(words)| - 1] != '-'
  {
    if words != [] {
      assert words[0] in words && words[0][0] in words[0] && words[0][|words[0]| - 1] in words[0];
      forall w | w in words[1..] ensures w in words { }
      JoinedEnds(words[1..]);
    }
  }

  function Letters(n: nat): (s: string)
    ensures |s| == n && forall i :: 0 <= i < n ==> s[i] == 'a'
  {
    if n == 0 then "" else Letters(n - 1) + "a"
  }

  lemma {:induction false} LettersDashed(n: nat, rest: string)
    ensures Dashed(Letters(n) + rest, false) == Letters(n) + Dashed(rest, false)
  {
    if n == 0 {
      assert Letters(0) + rest == rest;
    } else {
      LettersShift(n);
      assert Letters(n) + rest == ['a'] + (Letters(n - 1) + rest);
      assert (Letters(n) + rest)[1..] == Letters(n - 1) + rest;
      LettersDashed(n - 1, rest);
      assert ['a'] + (Letters(n - 1) + Dashed(rest, false)) == Letters(n) + Dashed(rest, false);
    }
  }

  lemma LettersShift(n: nat)
    requires n > 0
    ensures Letters(n) == ['a'] + Letters(n - 1)
  {
  }

  /** The dash at the cut does happen: 47 letters, a space, one more letter. */
  lemma SlugMayEndInDash()
    ensures EndsInDash(Slugify(Letters(47) + " b"))
  {
    LettersDashed(47, " b");
    assert " b"[1..] == "b" && "b"[1..] == "";
    assert Dashed(" b", false) == "-" + "b";
    var d := Letters(47) + "-b";
    assert Dashed(Letters(47) + " b", false) == d;
    assert d[0] == Letters(47)[0];
    assert Cut(d)[47] == '-';
  }
}
