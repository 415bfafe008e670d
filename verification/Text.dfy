/** JavaScript string operations used by the text rewriters: trimming and substring search. */
module Text {

  predicate IsSpace(c: char) {
    || c == ' ' || '\t' <= c <= '\r'
    || c == '\U{A0}' || c == '\U{FEFF}' || c == '\U{1680}' || c == '\U{2028}' || c == '\U{2029}'
    || c == '\U{202F}' || c == '\U{205F}' || c == '\U{3000}'
    || '\U{2000}' <= c <= '\U{200A}'
  }

  predicate Blank(s: string) {
    forall i :: 0 <= i < |s| ==> IsSpace(s[i])
  }

  function TrimEnd(s: string): (r: string)
    ensures |r| <= |s|
  {
    if s != [] && IsSpace(s[|s| - 1]) then TrimEnd(s[..|s| - 1]) else s
  }

  function TrimStart(s: string): (r: string)
    ensures |r| <= |s|
  {
    if s != [] && IsSpace(s[0]) then TrimStart(s[1..]) else s
  }

  /** `TrimEnd` cuts a blank tail and ends in a visible character. */
  lemma {:induction false} TrimEndCuts(s: string)
    ensures var r := TrimEnd(s);
            r == s[..|r|] && Blank(s[|r|..]) && (r != "" ==> !IsSpace(r[|r| - 1]))
  {
    if s != [] && IsSpace(s[|s| - 1]) {
      var n := |s| - 1;
      TrimEndCuts(s[..n]);
      var r := TrimEnd(s[..n]);
      assert s[|r|..] == s[..n][|r|..] + [s[n]];
    }
  }

  /** `TrimStart` cuts a blank head and starts with a visible character. */
  lemma {:induction false} TrimStartCuts(s: string)
    ensures var r := TrimStart(s);
            r == s[|s| - |r|..] && Blank(s[..|s| - |r|]) && (r != "" ==> !IsSpace(r[0]))
  {
    if s != [] && IsSpace(s[0]) {
      TrimStartCuts(s[1..]);
      var r := TrimStart(s[1..]);
      assert s[..|s| - |r|] == [s[0]] + s[1..][..|s| - 1 - |r|];
    }
  }

  /** Trimming ignores trailing space and stops at the last visible character. */
  lemma {:induction false} TrimEndOf(s: string, k: nat)
    requires k <= |s|
    requires k == 0 || !IsSpace(s[k - 1])
    requires Blank(s[k..])
    ensures TrimEnd(s) == s[..k]
  {
    if k < |s| {
      var n := |s| - 1;
      assert IsSpace(s[k..][n - k]);
      assert s[..n][k..] == s[k..][..n - k] && s[..n][..k] == s[..k];
      TrimEndOf(s[..n], k);
    }
  }

  lemma {:induction false} TrimStartOfBlank(s: string)
    requires Blank(s)
    ensures TrimStart(s) == ""
  {
    if s != "" {
      TrimStartOfBlank(s[1..]);
    }
  }

  lemma TrimStartOfVisible(s: string)
    requires s == "" || !IsSpace(s[0])
    ensures TrimStart(s) == s
  {
  }

  // ----- substring search -----

  predicate MatchesFrom(s: string, m: string, i: nat, k: nat)
    requires k <= |m| && i + |m| <= |s|
    decreases |m| - k
  {
    k == |m| || (s[i + k] == m[k] && MatchesFrom(s, m, i, k + 1))
  }

  predicate OccursAt(s: string, m: string, i: int) {
    0 <= i && i + |m| <= |s| && MatchesFrom(s, m, i, 0)
  }

  lemma {:induction false} MatchesIff(s: string, m: string, i: nat, k: nat)
    requires k <= |m| && i + |m| <= |s|
    ensures MatchesFrom(s, m, i, k) <==> s[i + k..i + |m|] == m[k..]
    decreases |m| - k
  {
    if k < |m| {
      MatchesIff(s, m, i, k + 1);
      assert s[i + k..i + |m|] == [s[i + k]] + s[i + k + 1..i + |m|];
      assert m[k..] == [m[k]] + m[k + 1..];
    }
  }

  /** Occurring at `i` means that the slice of `s` at `i` is `m`. */
  lemma OccursIff(s: string, m: string, i: nat)
    ensures OccursAt(s, m, i) <==> i + |m| <= |s| && s[i..i + |m|] == m
  {
    if i + |m| <= |s| {
      MatchesIff(s, m, i, 0);
      assert m[0..] == m;
    }
  }

  /** JavaScript's `s.indexOf(m, from)`: the first occurrence at or after `from`, or -1. */
  function IndexOf(s: string, m: string, from: nat): (r: int)
    ensures r == -1 || (from <= r && r + |m| <= |s|)
    decreases |s| - from
  {
    if from + |m| > |s| then -1
    else if OccursAt(s, m, from) then from
    else IndexOf(s, m, from + 1)
  }

  lemma {:induction false} IndexOfFirst(s: string, m: string, from: nat)
    ensures var r := IndexOf(s, m, from);
            && (r >= 0 ==> OccursAt(s, m, r))
            && forall i :: from <= i && (r < 0 || i < r) ==> !OccursAt(s, m, i)
    decreases |s| - from
  {
    if from + |m| <= |s| && !OccursAt(s, m, from) {
      IndexOfFirst(s, m, from + 1);
    }
  }

  /** JavaScript's `s.includes(m)`. */
  predicate Contains(s: string, m: string) {
    IndexOf(s, m, 0) >= 0
  }

  lemma AbsentAt(s: string, m: string, i: int)
    requires !Contains(s, m)
    ensures !OccursAt(s, m, i)
  {
    IndexOfFirst(s, m, 0);
  }

  lemma AbsentIf(s: string, m: string)
    requires forall i :: !OccursAt(s, m, i)
    ensures !Contains(s, m)
  {
    IndexOfFirst(s, m, 0);
  }

  lemma IndexOfIs(s: string, m: string, from: nat, k: int)
    requires from <= k && OccursAt(s, m, k)
    requires forall i :: from <= i < k ==> !OccursAt(s, m, i)
    ensures IndexOf(s, m, from) == k
  {
    IndexOfFirst(s, m, from);
  }

  lemma IndexOfNone(s: string, m: string, from: nat)
    requires forall i :: from <= i ==> !OccursAt(s, m, i)
    ensures IndexOf(s, m, from) == -1
  {
    IndexOfFirst(s, m, from);
  }

  /** How often `m` occurs in `s` at or after `from`, overlapping occurrences included. */
  function CountFrom(s: string, m: string, from: nat): nat
    decreases |s| - from
  {
    if from + |m| > |s| then 0
    else (if OccursAt(s, m, from) then 1 else 0) + CountFrom(s, m, from + 1)
  }

  function Count(s: string, m: string): nat {
    CountFrom(s, m, 0)
  }

  lemma CountZero(s: string, m: string)
    requires m != ""
    ensures Count(s, m) == 0 <==> !Contains(s, m)
  {
    CountFromZero(s, m, 0);
    IndexOfFirst(s, m, 0);
  }

  lemma {:induction false} CountFromZero(s: string, m: string, from: nat)
    requires m != ""
    ensures CountFrom(s, m, from) == 0 <==> forall i :: from <= i ==> !OccursAt(s, m, i)
    decreases |s| - from
  {
    if from + |m| <= |s| {
      CountFromZero(s, m, from + 1);
    }
  }

  /** The count starts over at the first occurrence. */
  lemma {:induction false} CountFromSkips(s: string, m: string, from: nat, upto: nat)
    requires m != "" && from <= upto
    requires forall i :: from <= i < upto ==> !OccursAt(s, m, i)
    ensures CountFrom(s, m, from) == CountFrom(s, m, upto)
    decreases upto - from
  {
    if from < upto {
      CountFromSkips(s, m, from + 1, upto);
    }
  }

  lemma {:induction false} CountFromFalls(s: string, m: string, from: nat, upto: nat)
    requires m != "" && from <= upto
    ensures CountFrom(s, m, upto) <= CountFrom(s, m, from)
    decreases upto - from
  {
    if from < upto {
      CountFromFalls(s, m, from + 1, upto);
    }
  }

  lemma {:induction false} CountOfSuffix(s: string, m: string, k: nat, from: nat)
    requires m != "" && k <= |s|
    ensures CountFrom(s[k..], m, from) == CountFrom(s, m, k + from)
    decreases |s| - from
  {
    if k + from + |m| <= |s| {
      OccursInPart(s, k, |s|, m, from);
      assert s[k..|s|] == s[k..];
      CountOfSuffix(s, m, k, from + 1);
    }
  }

  lemma OccursChars(s: string, m: string, i: int, k: int)
    requires OccursAt(s, m, i) && 0 <= k < |m|
    ensures s[i + k] == m[k]
  {
    OccursIff(s, m, i);
    assert s[i..i + |m|][k] == s[i + k];
  }

  lemma OccursInPart(s: string, lo: nat, hi: nat, m: string, i: int)
    requires lo <= hi <= |s|
    ensures OccursAt(s[lo..hi], m, i) <==> 0 <= i && lo + i + |m| <= hi && OccursAt(s, m, lo + i)
  {
    if 0 <= i && lo + i + |m| <= hi {
      OccursIff(s, m, lo + i);
      OccursIff(s[lo..hi], m, i);
      var a, b := s[lo..hi][i..i + |m|], s[lo + i..lo + i + |m|];
      assert forall k :: 0 <= k < |m| ==> a[k] == b[k];
      assert a == b;
    }
  }
}
