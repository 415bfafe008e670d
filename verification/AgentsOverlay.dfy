/** The AGENTS.md runtime overlay of src/hooks/agents-overlay.ts: marker-bounded apply and strip,
    and the size cap of the generated body. */
module AgentsOverlay {
  import opened Text

  /** The delimiters of the runtime overlay and of the team worker overlay. */
  datatype Markers = Markers(start: string, end: string, workerStart: string, workerEnd: string)

  // ----- what makes a marker safe to join around -----

  /** No '<', newline or dot from position `k` on. */
  predicate PlainFrom(m: string, k: nat)
    decreases |m| - k
  {
    k >= |m| || (m[k] != '<' && m[k] != '\n' && m[k] != '.' && PlainFrom(m, k + 1))
  }

  lemma {:induction false} PlainAt(m: string, k: nat, i: nat)
    requires PlainFrom(m, k) && k <= i < |m|
    ensures m[i] != '<' && m[i] != '\n' && m[i] != '.'
    decreases i - k
  {
    if k < i {
      PlainAt(m, k + 1, i);
    }
  }

  lemma {:induction false} PlainIntro(m: string, k: nat)
    requires forall i :: k <= i < |m| ==> m[i] != '<' && m[i] != '\n' && m[i] != '.'
    ensures PlainFrom(m, k)
    decreases |m| - k
  {
    if k < |m| {
      PlainIntro(m, k + 1);
    }
  }

  /** A marker opens with the only '<' it holds and contains neither a newline nor a dot. */
  predicate MarkerShape(m: string) {
    |m| > 0 && m[0] == '<' && PlainFrom(m, 1)
  }

  predicate Shaped(mk: Markers) {
    && MarkerShape(mk.start) && MarkerShape(mk.end) && MarkerShape(mk.workerStart) && MarkerShape(mk.workerEnd)
    && |mk.end| <= |mk.start| && mk.start[..|mk.end|] != mk.end
  }

  /** A marker cannot straddle a seam whose right side opens with '<', a newline or a dot. */
  lemma NoStraddle(x: string, y: string, m: string, i: int)
    requires MarkerShape(m) && OccursAt(x + y, m, i) && 0 <= i < |x|
    requires SafeSeam(y)
    ensures i + |m| <= |x| && OccursAt(x, m, i)
  {
    if i + |m| > |x| {
      OccursChars(x + y, m, i, |x| - i);
      PlainAt(m, 1, |x| - i);
    }
    OccursInPart(x + y, 0, |x|, m, i);
    assert (x + y)[0..|x|] == x;
  }

  lemma MarkerOpens(s: string, m: string, i: int)
    requires MarkerShape(m) && OccursAt(s, m, i)
    ensures s[i] == '<'
  {
    OccursChars(s, m, i, 0);
  }

  lemma OccursInConcat(x: string, y: string, m: string, i: int)
    requires i >= |x|
    ensures OccursAt(x + y, m, i) <==> OccursAt(y, m, i - |x|)
  {
    OccursInPart(x + y, |x|, |x + y|, m, i - |x|);
    assert (x + y)[|x|..|x + y|] == y;
  }

  lemma OccursAtSeam(x: string, y: string, m: string)
    requires m <= y
    ensures OccursAt(x + y, m, |x|)
  {
    OccursIff(y, m, 0);
    OccursInConcat(x, y, m, |x|);
  }

  /** Opens with '<', a newline or a dot, or is empty: nothing a marker can straddle into. */
  predicate SafeSeam(y: string) {
    y == "" || y[0] == '<' || y[0] == '\n' || y[0] == '.'
  }

  lemma ConcatFree(x: string, y: string, m: string)
    requires MarkerShape(m) && SafeSeam(y) && !Contains(x, m) && !Contains(y, m)
    ensures !Contains(x + y, m)
  {
    forall i ensures !OccursAt(x + y, m, i) {
      if OccursAt(x + y, m, i) {
        if i < |x| {
          NoStraddle(x, y, m, i);
          AbsentAt(x, m, i);
        } else {
          OccursInConcat(x, y, m, i);
          AbsentAt(y, m, i - |x|);
        }
      }
    }
    AbsentIf(x + y, m);
  }

  lemma PartFree(x: string, y: string, m: string)
    requires !Contains(x + y, m)
    ensures !Contains(x, m) && !Contains(y, m)
  {
    forall i ensures !OccursAt(x, m, i) && !OccursAt(y, m, i) {
      OccursInPart(x + y, 0, |x|, m, i);
      assert (x + y)[0..|x|] == x;
      AbsentAt(x + y, m, i);
      if i >= 0 {
        OccursInConcat(x, y, m, |x| + i);
        AbsentAt(x + y, m, |x| + i);
      }
    }
    AbsentIf(x, m);
    AbsentIf(y, m);
  }

  /** Searching from the start of a part free of `m` finds the `m` that follows it. */
  lemma FirstAfterPart(u: string, x: string, y: string, m: string)
    requires MarkerShape(m) && !Contains(x, m) && m <= y
    ensures IndexOf(u + x + y, m, |u|) == |u| + |x|
  {
    var s := u + x + y;
    assert s == u + (x + y) == (u + x) + y;
    OccursAtSeam(u + x, y, m);
    forall i | |u| <= i < |u| + |x| ensures !OccursAt(s, m, i) {
      if OccursAt(s, m, i) {
        OccursInConcat(u, x + y, m, i);
        NoStraddle(x, y, m, i - |u|);
        AbsentAt(x, m, i - |u|);
      }
    }
    IndexOfIs(s, m, |u|, |u| + |x|);
  }

  lemma NoneAfterPart(u: string, x: string, m: string)
    requires !Contains(x, m)
    ensures IndexOf(u + x, m, |u|) == -1
  {
    forall i | |u| <= i ensures !OccursAt(u + x, m, i) {
      OccursInConcat(u, x, m, i);
      AbsentAt(x, m, i - |u|);
    }
    IndexOfNone(u + x, m, |u|);
  }

  // ----- one strip round -----

  datatype Round = Clean | Truncated(result: string) | Removed(result: string)

  function Rejoin(before: string, after: string): string {
    if after != "" then before + "\n" + after else before + "\n"
  }

  /** `s` without what lies between `from` and `upto`, the seam closed up to one newline. */
  function CutOut(s: string, from: nat, upto: nat): string
    requires from <= |s| && upto <= |s|
  {
    Rejoin(TrimEnd(s[..from]), TrimStart(s[upto..]))
  }

  function Earliest(a: int, b: int): int {
    if a < 0 then b else if b < 0 then a else if a <= b then a else b
  }

  predicate KnownMarkerAt(mk: Markers, s: string, i: int) {
    OccursAt(s, mk.start, i) || OccursAt(s, mk.workerStart, i) || OccursAt(s, mk.workerEnd, i)
  }

  /** The first place at or after `from` where a START or a worker delimiter stands, or -1. */
  function NextMarker(mk: Markers, s: string, from: nat): (r: int)
    ensures r == -1 || from <= r < |s|
    decreases |s| - from
  {
    if from >= |s| then -1
    else if KnownMarkerAt(mk, s, from) then from
    else NextMarker(mk, s, from + 1)
  }

  lemma {:induction false} NextMarkerFirst(mk: Markers, s: string, from: nat)
    ensures var r := NextMarker(mk, s, from);
            && (r >= 0 ==> KnownMarkerAt(mk, s, r))
            && forall i :: from <= i < |s| && (r < 0 || i < r) ==> !KnownMarkerAt(mk, s, i)
    decreases |s| - from
  {
    if from < |s| && !KnownMarkerAt(mk, s, from) {
      NextMarkerFirst(mk, s, from + 1);
    }
  }

  lemma NextMarkerIs(mk: Markers, s: string, from: nat, k: int)
    requires from <= k < |s| && KnownMarkerAt(mk, s, k)
    requires forall i :: from <= i < k ==> !KnownMarkerAt(mk, s, i)
    ensures NextMarker(mk, s, from) == k
  {
    NextMarkerFirst(mk, s, from);
  }

  /** `NextMarker` is the smallest of the three non-negative indices. */
  lemma NextMarkerIsEarliest(mk: Markers, s: string, from: nat)
    requires Shaped(mk)
    ensures Earliest(IndexOf(s, mk.start, from),
                     Earliest(IndexOf(s, mk.workerStart, from), IndexOf(s, mk.workerEnd, from)))
         == NextMarker(mk, s, from)
  {
    IndexOfFirst(s, mk.start, from);
    IndexOfFirst(s, mk.workerStart, from);
    IndexOfFirst(s, mk.workerEnd, from);
    NextMarkerFirst(mk, s, from);
    var a, b, c := IndexOf(s, mk.start, from), IndexOf(s, mk.workerStart, from), IndexOf(s, mk.workerEnd, from);
    assert a >= 0 ==> KnownMarkerAt(mk, s, a);
    assert b >= 0 ==> KnownMarkerAt(mk, s, b);
    assert c >= 0 ==> KnownMarkerAt(mk, s, c);
  }

  function StripRound(mk: Markers, s: string): Round {
    var startIdx := IndexOf(s, mk.start, 0);
    if startIdx < 0 then Clean
    else
      var endIdx := IndexOf(s, mk.end, startIdx);
      var next := NextMarker(mk, s, startIdx + |mk.start|);
      if endIdx >= 0 then
        Removed(CutOut(s, startIdx, endIdx + |mk.end|))
      else if next >= 0 then
        Removed(CutOut(s, startIdx, next))
      else Truncated(TrimEnd(s[..startIdx]) + "\n")
  }

  function Strip(mk: Markers, s: string, rounds: nat): string
    decreases rounds
  {
    if rounds == 0 then s
    else match StripRound(mk, s)
         case Clean => s
         case Truncated(result) => result
         case Removed(result) => Strip(mk, result, rounds - 1)
  }

  method StripOnce(mk: Markers, s: string) returns (round: Round)
    requires Shaped(mk)
    ensures round == StripRound(mk, s)
  {
    var startIdx := IndexOf(s, mk.start, 0);
    if startIdx < 0 { return Clean; }
    var endIdx := IndexOf(s, mk.end, startIdx);
    if endIdx < 0 {
      var from := startIdx + |mk.start|;
      NextMarkerIsEarliest(mk, s, from);
      var next := Earliest(IndexOf(s, mk.start, from),
                           Earliest(IndexOf(s, mk.workerStart, from), IndexOf(s, mk.workerEnd, from)));
      if next < 0 {
        return Truncated(TrimEnd(s[..startIdx]) + "\n");
      }
      return Removed(CutOut(s, startIdx, next));
    }
    return Removed(CutOut(s, startIdx, endIdx + |mk.end|));
  }

  /** The bounded loop of stripOverlayContent. */
  method StripMarkers(mk: Markers, content: string, maxIterations: nat) returns (result: string)
    requires Shaped(mk)
    ensures result == Strip(mk, content, maxIterations)
  {
    hide StripRound;
    result := content;
    var iterations := 0;
    while iterations < maxIterations
      invariant 0 <= iterations <= maxIterations
      invariant Strip(mk, result, maxIterations - iterations) == Strip(mk, content, maxIterations)
    {
      var round := StripOnce(mk, result);
      match round
      case Clean => break;
      case Truncated(rest) =>
        result := rest;
        break;
      case Removed(rest) =>
        result := rest;
        iterations := iterations + 1;
    }
  }

  // ----- every round lowers the number of START markers -----

  lemma RejoinCount(mk: Markers, before: string, after: string)
    requires Shaped(mk)
    requires !Contains(before, mk.start)
    ensures Count(Rejoin(before, after), mk.start) == Count(after, mk.start)
  {
    var s := Rejoin(before, after);
    var cut := |before| + 1;
    assert s == before + ("\n" + after);
    forall i | 0 <= i < cut
      ensures !OccursAt(s, mk.start, i)
    {
      if OccursAt(s, mk.start, i) {
        if i < |before| {
          NoStraddle(before, "\n" + after, mk.start, i);
          AbsentAt(before, mk.start, i);
        } else {
          MarkerOpens(s, mk.start, i);
        }
      }
    }
    CountFromSkips(s, mk.start, 0, cut);
    CountOfSuffix(s, mk.start, cut, 0);
    assert s[cut..] == after;
  }

  lemma TailCount(mk: Markers, s: string, first: nat, from: nat)
    requires Shaped(mk)
    requires OccursAt(s, mk.start, first) && first < from <= |s|
    requires forall i :: 0 <= i < first ==> !OccursAt(s, mk.start, i)
    ensures Count(TrimStart(s[from..]), mk.start) < Count(s, mk.start)
  {
    var after := TrimStart(s[from..]);
    var k := |s| - |after|;
    TrimStartCuts(s[from..]);
    assert after == s[k..];
    CountOfSuffix(s, mk.start, k, 0);
    CountFromFalls(s, mk.start, first + 1, k);
    CountFromSkips(s, mk.start, 0, first);
  }

  lemma HeadHasNoStart(mk: Markers, s: string, first: nat)
    requires first <= |s| && mk.start != "" && forall i :: 0 <= i < first ==> !OccursAt(s, mk.start, i)
    ensures !Contains(TrimEnd(s[..first]), mk.start)
  {
    var before := TrimEnd(s[..first]);
    TrimEndCuts(s[..first]);
    assert before == s[..|before|];
    assert s[0..|before|] == s[..|before|];
    forall i ensures !OccursAt(before, mk.start, i) {
      OccursInPart(s, 0, |before|, mk.start, i);
    }
    AbsentIf(before, mk.start);
  }

  lemma CutLowersCount(mk: Markers, s: string, first: nat, upto: nat)
    requires Shaped(mk)
    requires OccursAt(s, mk.start, first) && first < upto <= |s|
    requires forall i :: 0 <= i < first ==> !OccursAt(s, mk.start, i)
    ensures Count(CutOut(s, first, upto), mk.start) < Count(s, mk.start)
  {
    HeadHasNoStart(mk, s, first);
    RejoinCount(mk, TrimEnd(s[..first]), TrimStart(s[upto..]));
    TailCount(mk, s, first, upto);
  }

  lemma CleanRound(mk: Markers, s: string)
    requires Shaped(mk)
    ensures StripRound(mk, s).Clean? <==> Count(s, mk.start) == 0
  {
    CountZero(s, mk.start);
  }

  lemma TruncatedRound(mk: Markers, s: string)
    requires Shaped(mk) && StripRound(mk, s).Truncated?
    ensures Count(StripRound(mk, s).result, mk.start) == 0
  {
    var p := IndexOf(s, mk.start, 0);
    IndexOfFirst(s, mk.start, 0);
    HeadHasNoStart(mk, s, p);
    LineIsClean(mk, TrimEnd(s[..p]));
    CountZero(TrimEnd(s[..p]) + "\n", mk.start);
  }

  lemma RemovedRound(mk: Markers, s: string)
    requires Shaped(mk) && StripRound(mk, s).Removed?
    ensures Count(StripRound(mk, s).result, mk.start) < Count(s, mk.start)
  {
    hide CutOut, NextMarker, Shaped, Count, IndexOf, OccursAt;
    var p := IndexOf(s, mk.start, 0);
    IndexOfFirst(s, mk.start, 0);
    var e := IndexOf(s, mk.end, p);
    StartNotEmpty(mk);
    CutLowersCount(mk, s, p, if e >= 0 then e + |mk.end| else NextMarker(mk, s, p + |mk.start|));
  }

  lemma StartNotEmpty(mk: Markers)
    requires Shaped(mk)
    ensures |mk.start| > 0 && |mk.end| > 0
  {
  }

  /** A round that goes on leaves strictly fewer START markers; a round that stops leaves none. */
  lemma RoundLowersCount(mk: Markers, s: string)
    requires Shaped(mk)
    ensures StripRound(mk, s).Removed? ==> Count(StripRound(mk, s).result, mk.start) < Count(s, mk.start)
    ensures StripRound(mk, s).Truncated? ==> Count(StripRound(mk, s).result, mk.start) == 0
    ensures StripRound(mk, s).Clean? <==> Count(s, mk.start) == 0
  {
    hide StripRound, Count, Shaped;
    CleanRound(mk, s);
    match StripRound(mk, s)
    case Clean =>
    case Truncated(_) => TruncatedRound(mk, s);
    case Removed(_) => RemovedRound(mk, s);
  }

  /** How many rounds it takes until no START marker is left. */
  function RoundsNeeded(mk: Markers, s: string): nat
    requires Shaped(mk)
    decreases Count(s, mk.start)
  {
    RoundLowersCount(mk, s);
    match StripRound(mk, s)
    case Clean => 0
    case Truncated(_) => 1
    case Removed(result) => 1 + RoundsNeeded(mk, result)
  }

  lemma {:induction false} RoundsWithinCount(mk: Markers, s: string)
    requires Shaped(mk)
    ensures RoundsNeeded(mk, s) <= Count(s, mk.start)
    decreases Count(s, mk.start)
  {
    RoundLowersCount(mk, s);
    if StripRound(mk, s).Removed? {
      RoundsWithinCount(mk, StripRound(mk, s).result);
    }
  }

  /** Stripping leaves no START marker exactly when the content needs no more rounds than allowed. */
  lemma {:induction false} StripIsClean(mk: Markers, s: string, rounds: nat)
    requires Shaped(mk)
    ensures Count(Strip(mk, s, rounds), mk.start) == 0 <==> RoundsNeeded(mk, s) <= rounds
    decreases rounds
  {
    hide StripRound, Count, Shaped;
    RoundLowersCount(mk, s);
    if rounds > 0 && StripRound(mk, s).Removed? {
      StripIsClean(mk, StripRound(mk, s).result, rounds - 1);
    }
  }

  /** Content with no more overlays than rounds is always stripped clean. */
  lemma FewOverlaysAreStripped(mk: Markers, content: string, rounds: nat)
    requires Shaped(mk)
    requires Count(content, mk.start) <= rounds
    ensures Count(Strip(mk, content, rounds), mk.start) == 0
  {
    RoundsWithinCount(mk, content);
    StripIsClean(mk, content, rounds);
  }

  lemma StripOfClean(mk: Markers, s: string, rounds: nat)
    requires !Contains(s, mk.start)
    ensures Strip(mk, s, rounds) == s
  {
  }

  // ----- apply and strip -----

  function Overlay(mk: Markers, body: string): string {
    mk.start + body + mk.end
  }

  /** A body that holds neither of its own delimiters. */
  ghost predicate MarkerFree(mk: Markers, body: string) {
    !Contains(body, mk.start) && !Contains(body, mk.end)
  }

  function Apply(mk: Markers, content: string, overlay: string, rounds: nat): string {
    TrimEnd(Strip(mk, content, rounds)) + "\n\n" + overlay + "\n"
  }

  lemma TrimmedPrefixIsClean(mk: Markers, s: string)
    requires !Contains(s, mk.start)
    ensures !Contains(TrimEnd(s), mk.start)
  {
    var t := TrimEnd(s);
    TrimEndCuts(s);
    forall i ensures !OccursAt(t, mk.start, i) {
      OccursInPart(s, 0, |t|, mk.start, i);
      assert s[0..|t|] == t;
      AbsentAt(s, mk.start, i);
    }
    AbsentIf(t, mk.start);
  }

  lemma PrefixDiffers(x: string, y: string, m: string)
    requires |m| <= |x| && x[..|m|] != m
    ensures !OccursAt(x + y, m, 0)
  {
    OccursIff(x + y, m, 0);
    assert (x + y)[0..|m|] == x[..|m|];
  }

  lemma StartHoldsNoEnd(mk: Markers, body: string)
    requires Shaped(mk) && !Contains(body, mk.end)
    ensures !Contains(mk.start + body, mk.end)
  {
    forall i ensures !OccursAt(mk.start + body, mk.end, i) {
      if OccursAt(mk.start + body, mk.end, i) {
        if i == 0 {
          PrefixDiffers(mk.start, body, mk.end);
        } else if i < |mk.start| {
          MarkerOpens(mk.start + body, mk.end, i);
          PlainAt(mk.start, 1, i);
        } else {
          OccursInConcat(mk.start, body, mk.end, i);
          AbsentAt(body, mk.end, i - |mk.start|);
        }
      }
    }
    AbsentIf(mk.start + body, mk.end);
  }

  /** One round takes a closed overlay out and closes the seam. */
  lemma ClosedRound(mk: Markers, before: string, body: string, after: string)
    requires Shaped(mk) && !Contains(before, mk.start) && !Contains(body, mk.end)
    ensures StripRound(mk, before + Overlay(mk, body) + after) == Removed(Rejoin(TrimEnd(before), TrimStart(after)))
  {
    var s := before + Overlay(mk, body) + after;
    var p, e := |before|, |before| + |mk.start| + |body|;
    assert s == "" + before + (Overlay(mk, body) + after);
    FirstAfterPart("", before, Overlay(mk, body) + after, mk.start);
    StartHoldsNoEnd(mk, body);
    assert s == before + (mk.start + body) + (mk.end + after);
    FirstAfterPart(before, mk.start + body, mk.end + after, mk.end);
    assert s[..p] == before && s[e + |mk.end|..] == after;
  }

  /** No START, and no space at the end. */
  predicate CleanTrimmed(mk: Markers, text: string) {
    !Contains(text, mk.start) && (text == "" || !IsSpace(text[|text| - 1]))
  }

  /** A text with an overlay behind it, as an apply writes it. */
  function Appended(mk: Markers, text: string, body: string): string { text + "\n\n" + Overlay(mk, body) + "\n" }

  /** Stripping what was just applied leaves the trimmed text and one newline. */
  lemma StripOfAppended(mk: Markers, text: string, body: string, rounds: nat)
    requires Shaped(mk) && CleanTrimmed(mk, text) && MarkerFree(mk, body) && rounds >= 1
    ensures Strip(mk, Appended(mk, text, body), rounds) == text + "\n"
  {
    AppendedRound(mk, text, body);
    LineIsClean(mk, text);
    StripStep(mk, Appended(mk, text, body), rounds, text + "\n");
    StripOfClean(mk, text + "\n", rounds - 1);
  }

  lemma AppendedRound(mk: Markers, text: string, body: string)
    requires Shaped(mk) && !Contains(text, mk.start) && !Contains(body, mk.end)
    requires text == "" || !IsSpace(text[|text| - 1])
    ensures StripRound(mk, Appended(mk, text, body)) == Removed(text + "\n")
  {
    NewlinesHoldNoMarker(mk.start);
    ConcatFree(text, "\n\n", mk.start);
    ClosedRound(mk, text + "\n\n", body, "\n");
    TrimmedText(text);
    TrimStartOfBlank("\n");
  }

  lemma TrimmedText(text: string)
    requires text == "" || !IsSpace(text[|text| - 1])
    ensures TrimEnd(text + "\n\n") == text
  {
    assert (text + "\n\n")[..|text|] == text;
    TrimEndOf(text + "\n\n", |text|);
  }

  lemma LineIsClean(mk: Markers, text: string)
    requires Shaped(mk) && !Contains(text, mk.start)
    ensures !Contains(text + "\n", mk.start)
  {
    NewlinesHoldNoMarker(mk.start);
    ConcatFree(text, "\n", mk.start);
  }

  lemma StripStep(mk: Markers, s: string, rounds: nat, r: string)
    requires rounds >= 1 && StripRound(mk, s) == Removed(r)
    ensures Strip(mk, s, rounds) == Strip(mk, r, rounds - 1)
  {
  }

  lemma NewlinesHoldNoMarker(m: string)
    requires MarkerShape(m)
    ensures !Contains("\n", m) && !Contains("\n\n", m)
  {
    forall i ensures !OccursAt("\n", m, i) && !OccursAt("\n\n", m, i) {
      if OccursAt("\n", m, i) {
        MarkerOpens("\n", m, i);
      }
      if OccursAt("\n\n", m, i) {
        MarkerOpens("\n\n", m, i);
      }
    }
    AbsentIf("\n", m);
    AbsentIf("\n\n", m);
  }

  /** Taking an applied overlay out again gives the stripped original up to trailing space. */
  lemma StripUndoesApply(mk: Markers, content: string, body: string, rounds: nat)
    requires Shaped(mk)
    requires 1 <= rounds && RoundsNeeded(mk, content) <= rounds && MarkerFree(mk, body)
    ensures Strip(mk, Apply(mk, content, Overlay(mk, body), rounds), rounds)
         == TrimEnd(Strip(mk, content, rounds)) + "\n"
  {
    var clean := Strip(mk, content, rounds);
    StripIsClean(mk, content, rounds);
    CountZero(clean, mk.start);
    TrimmedPrefixIsClean(mk, clean);
    TrimEndCuts(clean);
    StripOfAppended(mk, TrimEnd(clean), body, rounds);
  }

  /** Applying replaces whatever overlay was applied before. */
  lemma ApplyReplaces(mk: Markers, content: string, body: string, overlay: string, rounds: nat)
    requires Shaped(mk)
    requires 1 <= rounds && RoundsNeeded(mk, content) <= rounds && MarkerFree(mk, body)
    ensures Apply(mk, Apply(mk, content, Overlay(mk, body), rounds), overlay, rounds) == Apply(mk, content, overlay, rounds)
  {
    StripUndoesApply(mk, content, body, rounds);
    TrimmedLineEnd(Strip(mk, content, rounds));
  }

  // ----- an unclosed overlay leaves the next marker's text alone -----

  lemma KnownMarkerOpens(mk: Markers, s: string, i: int)
    requires Shaped(mk) && KnownMarkerAt(mk, s, i)
    ensures s[i] == '<'
  {
    if OccursAt(s, mk.start, i) {
      MarkerOpens(s, mk.start, i);
    } else if OccursAt(s, mk.workerStart, i) {
      MarkerOpens(s, mk.workerStart, i);
    } else {
      MarkerOpens(s, mk.workerEnd, i);
    }
  }

  lemma MarkerStartsTail(mk: Markers, s: string, from: nat, next: int)
    requires Shaped(mk) && NextMarker(mk, s, from) == next && next >= 0
    ensures from <= next < |s| && s[next..] != "" && TrimStart(s[next..]) == s[next..]
  {
    NextMarkerFirst(mk, s, from);
    KnownMarkerOpens(mk, s, next);
    TrimStartOfVisible(s[next..]);
  }

  /** After an unclosed START everything from the next marker on survives to the letter. */
  lemma UnclosedRoundKeepsNext(mk: Markers, s: string, p: nat, next: int)
    requires Shaped(mk)
    requires IndexOf(s, mk.start, 0) == p && IndexOf(s, mk.end, p) < 0
    requires NextMarker(mk, s, p + |mk.start|) == next && next >= 0
    ensures p <= next <= |s| && StripRound(mk, s) == Removed(TrimEnd(s[..p]) + "\n" + s[next..])
  {
    hide Shaped, IndexOf, NextMarker;
    MarkerStartsTail(mk, s, p + |mk.start|, next);
  }

  /** One round takes an unclosed overlay out up to the next known marker. */
  lemma UnclosedRound(mk: Markers, before: string, gap: string, rest: string)
    requires Shaped(mk) && !Contains(before, mk.start) && !Contains(mk.start + gap + rest, mk.end)
    requires !Contains(gap, mk.start) && !Contains(gap, mk.workerStart) && !Contains(gap, mk.workerEnd)
    requires mk.start <= rest || mk.workerStart <= rest
    ensures StripRound(mk, before + mk.start + gap + rest) == Removed(TrimEnd(before) + "\n" + rest)
  {
    hide Shaped, Contains, IndexOf, NextMarker, StripRound, TrimEnd;
    var s := before + mk.start + gap + rest;
    UnclosedPositions(mk, before, gap, rest);
    UnclosedRoundKeepsNext(mk, s, |before|, |before| + |mk.start| + |gap|);
    SlicesOf(before, mk.start, gap, rest);
  }

  lemma SlicesOf(before: string, m: string, gap: string, rest: string)
    ensures var s := before + m + gap + rest;
            s[..|before|] == before && s[|before| + |m| + |gap|..] == rest
  {
  }

  lemma UnclosedPositions(mk: Markers, before: string, gap: string, rest: string)
    requires Shaped(mk) && !Contains(before, mk.start) && !Contains(mk.start + gap + rest, mk.end)
    requires !Contains(gap, mk.start) && !Contains(gap, mk.workerStart) && !Contains(gap, mk.workerEnd)
    requires mk.start <= rest || mk.workerStart <= rest
    ensures var s := before + mk.start + gap + rest;
            && IndexOf(s, mk.start, 0) == |before|
            && IndexOf(s, mk.end, |before|) == -1
            && NextMarker(mk, s, |before| + |mk.start|) == |before| + |mk.start| + |gap|
  {
    hide Contains, IndexOf, NextMarker, MarkerShape;
    BrokenParts(before, mk.start, gap, rest);
    assert mk.start <= mk.start + gap + rest;
    FirstAfterPart("", before, mk.start + gap + rest, mk.start);
    NoneAfterPart(before, mk.start + gap + rest, mk.end);
    GapEndsAtMarker(mk, before + mk.start, gap, rest);
  }

  lemma BrokenParts(before: string, m: string, gap: string, rest: string)
    ensures var s := before + m + gap + rest;
            s == before + (m + gap + rest) == "" + before + (m + gap + rest) == (before + m) + (gap + rest)
  {
  }

  lemma GapEndsAtMarker(mk: Markers, u: string, gap: string, rest: string)
    requires Shaped(mk)
    requires !Contains(gap, mk.start) && !Contains(gap, mk.workerStart) && !Contains(gap, mk.workerEnd)
    requires mk.start <= rest || mk.workerStart <= rest
    ensures NextMarker(mk, u + (gap + rest), |u|) == |u| + |gap|
  {
    var s := u + (gap + rest);
    assert s == (u + gap) + rest;
    if mk.start <= rest {
      OccursAtSeam(u + gap, rest, mk.start);
    } else {
      OccursAtSeam(u + gap, rest, mk.workerStart);
    }
    forall i | |u| <= i < |u| + |gap| ensures !KnownMarkerAt(mk, s, i) {
      GapHoldsNoMarker(u, gap, rest, mk.start, i);
      GapHoldsNoMarker(u, gap, rest, mk.workerStart, i);
      GapHoldsNoMarker(u, gap, rest, mk.workerEnd, i);
    }
    NextMarkerIs(mk, s, |u|, |u| + |gap|);
  }

  lemma GapHoldsNoMarker(u: string, gap: string, rest: string, m: string, i: int)
    requires MarkerShape(m) && !Contains(gap, m) && SafeSeam(rest) && |u| <= i < |u| + |gap|
    ensures !OccursAt(u + (gap + rest), m, i)
  {
    if OccursAt(u + (gap + rest), m, i) {
      OccursInConcat(u, gap + rest, m, i);
      NoStraddle(gap, rest, m, i - |u|);
      AbsentAt(gap, m, i - |u|);
    }
  }

  /** A file with an unclosed START: `text`, the marker, `gap`, and a worker overlay. */
  function Broken(mk: Markers, text: string, gap: string, worker: string): string { text + mk.start + gap + worker }

  /** No END closes the START, and no worker marker comes before the worker overlay. */
  predicate IsGap(mk: Markers, gap: string, worker: string) {
    !Contains(mk.start + gap + worker, mk.end) && !Contains(gap, mk.workerStart) && !Contains(gap, mk.workerEnd)
  }

  predicate IsWorker(mk: Markers, worker: string) { mk.workerStart <= worker && !Contains(worker, mk.start) }

  function TrimmedLine(text: string): string { TrimEnd(text) + "\n" }

  /** Without an END behind the START only the broken overlay and the space before it go. `gap` may
      itself hold further unclosed STARTs. */
  lemma {:induction false} WorkerKept(mk: Markers, text: string, gap: string, worker: string, rounds: nat)
    requires Shaped(mk) && !Contains(text, mk.start)
    requires IsGap(mk, gap, worker) && IsWorker(mk, worker) && Count(gap, mk.start) < rounds
    ensures Strip(mk, Broken(mk, text, gap, worker), rounds) == TrimmedLine(text) + worker
    decreases rounds
  {
    hide Strip, Contains, Shaped, Count, TrimEnd, IsGap, IsWorker, Broken;
    TrimmedPrefixIsClean(mk, text);
    LineIsClean(mk, TrimEnd(text));
    if !Contains(gap, mk.start) {
      LastGap(mk, text, gap, worker, rounds);
    } else {
      var gap' := CutFirstBroken(mk, text, gap, worker, rounds);
      WorkerKept(mk, TrimmedLine(text), gap', worker, rounds - 1);
      TrimmedLineEnd(text);
    }
  }

  /** One round takes out the first of several unclosed overlays. */
  lemma CutFirstBroken(mk: Markers, text: string, gap: string, worker: string, rounds: nat) returns (gap': string)
    requires Shaped(mk) && !Contains(text, mk.start) && Contains(gap, mk.start) && rounds >= 1
    requires IsGap(mk, gap, worker)
    ensures IsGap(mk, gap', worker) && Count(gap', mk.start) < Count(gap, mk.start)
    ensures Strip(mk, Broken(mk, text, gap, worker), rounds) == Strip(mk, Broken(mk, TrimmedLine(text), gap', worker), rounds - 1)
  {
    var head: string;
    head, gap' := FirstStart(mk, gap);
    SplitGap(mk, head, gap', worker);
    FirstGap(mk, text, head, gap', worker, rounds);
    Regroup(text, mk.start, head, gap', worker);
    assert Broken(mk, TrimmedLine(text), gap', worker) == TrimmedLine(text) + (mk.start + gap' + worker);
  }

  lemma FirstStart(mk: Markers, gap: string) returns (head: string, rest: string)
    requires Shaped(mk) && Contains(gap, mk.start)
    ensures gap == head + mk.start + rest && !Contains(head, mk.start)
    ensures Count(rest, mk.start) < Count(gap, mk.start)
  {
    var k := IndexOf(gap, mk.start, 0);
    IndexOfFirst(gap, mk.start, 0);
    head, rest := gap[..k], gap[k + |mk.start|..];
    SplitAtOccurrence(gap, mk.start, k);
    HeadOfGapIsFree(mk, gap, k);
    SuffixCount(gap, mk.start, k);
  }

  lemma LastGap(mk: Markers, text: string, gap: string, worker: string, rounds: nat)
    requires Shaped(mk) && !Contains(text, mk.start) && rounds >= 1
    requires IsGap(mk, gap, worker) && !Contains(gap, mk.start) && IsWorker(mk, worker)
    requires !Contains(TrimmedLine(text), mk.start)
    ensures Strip(mk, Broken(mk, text, gap, worker), rounds) == TrimmedLine(text) + worker
  {
    UnclosedRound(mk, text, gap, worker);
    StripStep(mk, Broken(mk, text, gap, worker), rounds, TrimmedLine(text) + worker);
    ConcatFree(TrimmedLine(text), worker, mk.start);
    StripOfClean(mk, TrimmedLine(text) + worker, rounds - 1);
  }

  lemma FirstGap(mk: Markers, text: string, head: string, gap: string, worker: string, rounds: nat)
    requires Shaped(mk) && !Contains(text, mk.start) && !Contains(head, mk.start) && rounds >= 1
    requires IsGap(mk, head, mk.start + gap + worker)
    ensures Strip(mk, Broken(mk, text, head, mk.start + gap + worker), rounds)
         == Strip(mk, TrimmedLine(text) + (mk.start + gap + worker), rounds - 1)
  {
    var rest := mk.start + gap + worker;
    UnclosedRound(mk, text, head, rest);
    StripStep(mk, Broken(mk, text, head, rest), rounds, TrimmedLine(text) + rest);
  }

  lemma Regroup(text: string, m: string, head: string, gap: string, worker: string)
    ensures text + m + head + (m + gap + worker) == text + m + (head + m + gap) + worker
  {
  }

  /** Between the START and the worker overlay there is no END and no worker marker. */
  predicate Unclosed(mk: Markers, gap: string) {
    !Contains(gap, mk.end) && !Contains(gap, mk.workerStart) && !Contains(gap, mk.workerEnd)
  }

  /** What is left of the worker overlay: all of it, or what follows the first END in it. */
  function Surviving(mk: Markers, worker: string): string {
    var k := IndexOf(worker, mk.end, 0);
    if k < 0 then worker else TrimStart(worker[k + |mk.end|..])
  }

  lemma SurvivingShrinks(mk: Markers, worker: string)
    requires mk.end != ""
    ensures Contains(worker, mk.end) ==> |Surviving(mk, worker)| < |worker|
  {
  }

  /** The END in the worker overlay is taken for the one that was missing. */
  lemma WorkerCut(mk: Markers, text: string, gap: string, worker: string, rounds: nat)
    requires Shaped(mk) && !Contains(text, mk.start) && Unclosed(mk, gap) && IsWorker(mk, worker)
    requires Contains(worker, mk.end) && rounds >= 1
    ensures Strip(mk, Broken(mk, text, gap, worker), rounds) == TrimmedLine(text) + Surviving(mk, worker)
  {
    hide Strip, Contains, OccursAt, TrimEnd, TrimStart, IndexOf, Count;
    var k := IndexOf(worker, mk.end, 0);
    FirstEnd(mk, worker);
    var head, rest := worker[..k], worker[k + |mk.end|..];
    WorkerOpens(mk, worker);
    ConcatFree(gap, head, mk.end);
    CutParts(mk, text, gap, worker, head, rest);
    ClosedRound(mk, text, gap + head, rest);
    var after := TrimStart(rest);
    StripStep(mk, Broken(mk, text, gap, worker), rounds, Rejoin(TrimEnd(text), after));
    TailIsClean(mk, worker, k);
    TrimmedPrefixIsClean(mk, text);
    RejoinCount(mk, TrimEnd(text), after);
    CountZero(after, mk.start);
    CountZero(Rejoin(TrimEnd(text), after), mk.start);
    StripOfClean(mk, Rejoin(TrimEnd(text), after), rounds - 1);
  }

  lemma FirstEnd(mk: Markers, worker: string)
    requires Shaped(mk) && Contains(worker, mk.end)
    ensures var k := IndexOf(worker, mk.end, 0);
            && 0 <= k && k + |mk.end| <= |worker| && !Contains(worker[..k], mk.end)
            && worker == worker[..k] + mk.end + worker[k + |mk.end|..]
  {
    var k := IndexOf(worker, mk.end, 0);
    IndexOfFirst(worker, mk.end, 0);
    SplitAtOccurrence(worker, mk.end, k);
    assert worker[0..k] == worker[..k];
    forall i ensures !OccursAt(worker[..k], mk.end, i) {
      OccursInPart(worker, 0, k, mk.end, i);
    }
    AbsentIf(worker[..k], mk.end);
  }

  lemma WorkerOpens(mk: Markers, worker: string)
    requires Shaped(mk) && IsWorker(mk, worker)
    ensures forall k :: 0 <= k <= |worker| ==> SafeSeam(worker[..k])
    ensures SafeSeam(worker)
  {
  }

  lemma CutParts(mk: Markers, text: string, gap: string, worker: string, head: string, rest: string)
    requires worker == head + mk.end + rest
    ensures Broken(mk, text, gap, worker) == text + Overlay(mk, gap + head) + rest
  {
    assert mk.start + gap + (head + mk.end + rest) == (mk.start + (gap + head) + mk.end) + rest;
    assert text + mk.start + gap + worker == text + (mk.start + gap + worker);
  }

  lemma TailIsClean(mk: Markers, worker: string, k: int)
    requires 0 <= k && k + |mk.end| <= |worker| && !Contains(worker, mk.start)
    ensures !Contains(TrimStart(worker[k + |mk.end|..]), mk.start)
  {
    hide Contains, TrimStart;
    var rest := worker[k + |mk.end|..];
    assert worker == worker[..k + |mk.end|] + rest;
    PartFree(worker[..k + |mk.end|], rest, mk.start);
    TrimStartCuts(rest);
    var n := |rest| - |TrimStart(rest)|;
    assert rest == rest[..n] + rest[n..];
    PartFree(rest[..n], rest[n..], mk.start);
  }

  /** A worker overlay behind an unclosed runtime overlay is kept whole exactly when it holds no END
      itself; otherwise everything up to that END goes with the broken overlay. */
  lemma WorkerOverlaySurvives(mk: Markers, text: string, gap: string, worker: string, rounds: nat)
    requires Shaped(mk) && !Contains(text, mk.start)
    requires Unclosed(mk, gap) && IsWorker(mk, worker) && Count(gap, mk.start) < rounds
    ensures Strip(mk, Broken(mk, text, gap, worker), rounds) == TrimmedLine(text) + Surviving(mk, worker)
    ensures Strip(mk, Broken(mk, text, gap, worker), rounds) == TrimmedLine(text) + worker <==> !Contains(worker, mk.end)
  {
    hide Strip, OccursAt, Count, TrimEnd, TrimStart, Broken;
    SurvivingShrinks(mk, worker);
    if Contains(worker, mk.end) {
      WorkerCut(mk, text, gap, worker, rounds);
    } else {
      StartHoldsNoEnd(mk, gap);
      WorkerOpens(mk, worker);
      ConcatFree(mk.start + gap, worker, mk.end);
      WorkerKept(mk, text, gap, worker, rounds);
    }
  }

  lemma TrimmedLineEnd(text: string)
    ensures TrimEnd(TrimEnd(text) + "\n") == TrimEnd(text)
  {
    TrimEndCuts(text);
    var t := TrimEnd(text);
    assert (t + "\n")[..|t|] == t;
    TrimEndOf(t + "\n", |t|);
  }

  lemma SplitAtOccurrence(s: string, m: string, k: nat)
    requires OccursAt(s, m, k)
    ensures s == s[..k] + m + s[k + |m|..]
  {
    OccursIff(s, m, k);
  }

  lemma HeadOfGapIsFree(mk: Markers, gap: string, k: nat)
    requires k <= |gap| && forall i :: 0 <= i < k ==> !OccursAt(gap, mk.start, i)
    requires Shaped(mk)
    ensures !Contains(gap[..k], mk.start)
  {
    assert gap[0..k] == gap[..k];
    forall i ensures !OccursAt(gap[..k], mk.start, i) {
      OccursInPart(gap, 0, k, mk.start, i);
    }
    AbsentIf(gap[..k], mk.start);
  }

  /** What the whole gap does not hold, its pieces do not hold either. */
  lemma SplitGap(mk: Markers, head: string, gap': string, worker: string)
    requires var gap := head + mk.start + gap';
             && !Contains(gap, mk.workerStart) && !Contains(gap, mk.workerEnd)
             && !Contains(mk.start + gap + worker, mk.end)
    ensures !Contains(head, mk.workerStart) && !Contains(head, mk.workerEnd)
    ensures !Contains(gap', mk.workerStart) && !Contains(gap', mk.workerEnd)
    ensures !Contains(mk.start + gap' + worker, mk.end)
    ensures !Contains(mk.start + head + (mk.start + gap' + worker), mk.end)
  {
    assert head + mk.start + gap' == head + (mk.start + gap');
    PartFree(head, mk.start + gap', mk.workerStart);
    PartFree(head, mk.start + gap', mk.workerEnd);
    PartFree(mk.start, gap', mk.workerStart);
    PartFree(mk.start, gap', mk.workerEnd);
    assert mk.start + (head + mk.start + gap') + worker == (mk.start + head) + (mk.start + gap' + worker);
    PartFree(mk.start + head, mk.start + gap' + worker, mk.end);
  }

  lemma SuffixCount(s: string, m: string, k: nat)
    requires m != "" && OccursAt(s, m, k)
    ensures Count(s[k + |m|..], m) < Count(s, m)
  {
    CountOfSuffix(s, m, k + |m|, 0);
    CountFromFalls(s, m, 0, k);
    CountFromFalls(s, m, k + 1, k + |m|);
  }
}

/** The size cap of the generated overlay body: optional sections go first, last ones first. */
module OverlayBody {
  import opened Text

  datatype Section = Section(key: string, text: string, optional: bool)

  function Join(sections: seq<Section>): string {
    if sections == [] then ""
    else if |sections| == 1 then sections[0].text
    else sections[0].text + "\n\n" + Join(sections[1..])
  }

  /** The sections left when the last `k` optional ones are dropped. */
  function Kept(sections: seq<Section>, k: nat): (r: seq<Section>)
    ensures |r| <= |sections|
  {
    if sections == [] then []
    else
      var n := |sections| - 1;
      if sections[n].optional && k > 0 then Kept(sections[..n], k - 1)
      else Kept(sections[..n], k) + [sections[n]]
  }

  function OptionalCount(sections: seq<Section>): nat {
    if sections == [] then 0
    else OptionalCount(sections[..|sections| - 1]) + (if sections[|sections| - 1].optional then 1 else 0)
  }

  function RequiredOnly(sections: seq<Section>): seq<Section> {
    if sections == [] then []
    else RequiredOnly(sections[..|sections| - 1])
         + (if sections[|sections| - 1].optional then [] else [sections[|sections| - 1]])
  }

  /** Dropping keeps every required section, in order; dropping all optional ones keeps exactly those. */
  lemma {:induction false} KeptKeepsRequired(sections: seq<Section>, k: nat)
    ensures RequiredOnly(Kept(sections, k)) == RequiredOnly(sections)
    ensures k >= OptionalCount(sections) ==> Kept(sections, k) == RequiredOnly(sections)
    ensures k <= OptionalCount(sections) ==> OptionalCount(Kept(sections, k)) == OptionalCount(sections) - k
  {
    if sections != [] {
      var n := |sections| - 1;
      if sections[n].optional && k > 0 {
        KeptKeepsRequired(sections[..n], k - 1);
      } else {
        KeptKeepsRequired(sections[..n], k);
        var r := Kept(sections, k);
        assert r[..|r| - 1] == Kept(sections[..n], k);
      }
    }
  }

  lemma {:induction false} KeptNone(sections: seq<Section>)
    ensures Kept(sections, 0) == sections
  {
    if sections != [] {
      KeptNone(sections[..|sections| - 1]);
    }
  }

  /** What was dropped are the last `k` optional sections, and nothing else is gone. */
  lemma {:induction false} KeptDropsLast(sections: seq<Section>, k: nat) returns (m: nat)
    requires k <= OptionalCount(sections)
    ensures m <= |sections| && OptionalCount(sections[m..]) == k
    ensures Kept(sections, k) == sections[..m] + RequiredOnly(sections[m..])
  {
    if k == 0 {
      m := |sections|;
      KeptNone(sections);
      assert sections[..m] == sections && sections[m..] == [];
    } else {
      var n := |sections| - 1;
      m := KeptDropsLast(sections[..n], if sections[n].optional then k - 1 else k);
      var rest := sections[m..];
      assert rest == sections[..n][m..] + [sections[n]] && rest[..|rest| - 1] == sections[..n][m..];
      assert sections[..n][..m] == sections[..m];
      assert sections[..m] + (RequiredOnly(sections[..n][m..]) + [sections[n]])
          == sections[..m] + RequiredOnly(sections[..n][m..]) + [sections[n]];
      assert RequiredOnly(sections[..n][m..]) + [] == RequiredOnly(sections[..n][m..]);
    }
  }

  /** The required sections, in order: all of them and no other. */
  lemma {:induction false} RequiredOnlyIs(sections: seq<Section>, x: Section)
    ensures x in RequiredOnly(sections) <==> x in sections && !x.optional
    ensures |RequiredOnly(sections)| + OptionalCount(sections) == |sections|
  {
    if sections != [] {
      var n := |sections| - 1;
      RequiredOnlyIs(sections[..n], x);
      assert sections == sections[..n] + [sections[n]];
    }
  }

  lemma {:induction false} RequiredOnlyConcat(a: seq<Section>, b: seq<Section>)
    ensures RequiredOnly(a + b) == RequiredOnly(a) + RequiredOnly(b)
    ensures |b| == 1 ==> RequiredOnly(b) == if b[0].optional then [] else b
  {
    if b == [] {
      assert a + b == a;
    } else {
      var n := |b| - 1;
      assert (a + b)[..|a + b| - 1] == a + b[..n] && (a + b)[|a + b| - 1] == b[n];
      RequiredOnlyConcat(a, b[..n]);
    }
  }

  /** The texts of the sections with one empty line between any two. */
  lemma {:induction false} JoinConcat(a: seq<Section>, b: seq<Section>)
    requires a != [] && b != []
    ensures Join(a + b) == Join(a) + "\n\n" + Join(b)
    ensures |a| == 1 ==> Join(a) == a[0].text
  {
    assert (a + b)[0] == a[0] && (a + b)[1..] == a[1..] + b;
    if |a| > 1 {
      JoinConcat(a[1..], b);
      assert Join(a + b) == a[0].text + "\n\n" + (Join(a[1..]) + "\n\n" + Join(b));
    } else {
      assert a[1..] + b == b;
    }
  }

  /** The text stands in the body whole. */
  ghost predicate Holds(body: string, text: string) {
    exists i :: OccursAt(body, text, i)
  }

  lemma HoldsAt(body: string, before: string, text: string, after: string)
    requires body == before + text + after
    ensures Holds(body, text)
  {
    assert body[|before|..|before| + |text|] == text;
    OccursIff(body, text, |before|);
  }

  lemma JoinHolds(sections: seq<Section>, x: Section)
    requires x in sections
    ensures Holds(Join(sections), x.text)
  {
    var i :| 0 <= i < |sections| && sections[i] == x;
    var a, b := sections[..i], sections[i + 1..];
    assert sections == a + ([x] + b);
    hide Join;
    if b != [] { JoinConcat([x], b); }
    OnlyOne(x);
    assert b == [] ==> [x] + b == [x];
    var tail := if b == [] then "" else "\n\n" + Join(b);
    assert Join([x] + b) == x.text + tail;
    if a == [] {
      assert a + ([x] + b) == [x] + b;
      HoldsAt(Join(sections), "", x.text, tail);
    } else {
      JoinConcat(a, [x] + b);
      assert Join(a) + "\n\n" + (x.text + tail) == (Join(a) + "\n\n") + x.text + tail;
      HoldsAt(Join(sections), Join(a) + "\n\n", x.text, tail);
    }
  }

  lemma OnlyOne(x: Section)
    ensures Join([x]) == x.text
  {
  }

  /** The positions of the optional sections, last one first. */
  function OptionalIndices(sections: seq<Section>): seq<nat> {
    if sections == [] then []
    else
      var n := |sections| - 1;
      (if sections[n].optional then [n] else []) + OptionalIndices(sections[..n])
  }

  lemma {:induction false} OptionalIndicesCount(sections: seq<Section>)
    ensures |OptionalIndices(sections)| == OptionalCount(sections)
  {
    if sections != [] {
      OptionalIndicesCount(sections[..|sections| - 1]);
    }
  }

  lemma {:induction false} KeptStep(sections: seq<Section>, t: nat)
    requires t < |OptionalIndices(sections)|
    ensures var idx, now := OptionalIndices(sections)[t], Kept(sections, t);
            idx < |now| && Kept(sections, t + 1) == now[..idx] + now[idx + 1..]
  {
    var n := |sections| - 1;
    var init := sections[..n];
    if sections[n].optional {
      if t == 0 {
        KeptNone(sections);
        KeptNone(init);
      } else {
        KeptStep(init, t - 1);
      }
    } else {
      KeptStep(init, t);
      var idx, now := OptionalIndices(sections)[t], Kept(init, t);
      assert (now + [sections[n]])[idx + 1..] == now[idx + 1..] + [sections[n]];
      assert (now + [sections[n]])[..idx] == now[..idx];
    }
  }

  function Dots(n: int): string {
    if n <= 0 then "" else "." + Dots(n - 1)
  }

  /** `body` is `text` cut to exactly the limit: its beginning and three dots, or dots alone. */
  ghost predicate CutTo(text: string, maxBody: int, body: string) {
    && |body| == (if maxBody <= 0 then 0 else maxBody)
    && (maxBody > 3 ==> maxBody - 3 <= |text| && body == text[..maxBody - 3] + "...")
    && (maxBody <= 3 ==> forall i :: 0 <= i < |body| ==> body[i] == '.')
  }

  lemma {:induction false} DotsLength(n: int)
    ensures |Dots(n)| == if n <= 0 then 0 else n
    ensures forall i :: 0 <= i < |Dots(n)| ==> Dots(n)[i] == '.'
  {
    if n > 0 {
      DotsLength(n - 1);
    }
  }

  /** Dropping `k` optional sections is enough, and dropping fewer is not. */
  ghost predicate FewestDropped(sections: seq<Section>, maxBody: int, k: nat) {
    && k <= OptionalCount(sections)
    && |Join(Kept(sections, k))| <= maxBody
    && forall j: nat :: j < k ==> |Join(Kept(sections, j))| > maxBody
  }

  method CollectOptional(sections: seq<Section>) returns (indices: seq<nat>)
    ensures indices == OptionalIndices(sections)
  {
    indices := [];
    var i := |sections| - 1;
    assert sections[..i + 1] == sections;
    while i >= 0
      invariant -1 <= i < |sections|
      invariant indices + OptionalIndices(sections[..i + 1]) == OptionalIndices(sections)
      decreases i
    {
      assert sections[..i + 1][..i] == sections[..i];
      if sections[i].optional {
        indices := indices + [i];
      }
      i := i - 1;
    }
  }

  /** The fewest optional sections that make the body fit are dropped, from the end; only when the
      required sections alone do not fit is their text cut. */
  ghost predicate Capped(sections: seq<Section>, maxBody: int, body: string) {
    && |body| <= (if maxBody <= 0 then 0 else maxBody)
    && ((exists k: nat :: FewestDropped(sections, maxBody, k) && body == Join(Kept(sections, k)))
        || (&& (forall k: nat :: k <= OptionalCount(sections) ==> |Join(Kept(sections, k))| > maxBody)
            && |Join(RequiredOnly(sections))| > maxBody
            && CutTo(Join(RequiredOnly(sections)), maxBody, body)))
  }

  /** What that means for the sections: with room for all of them all are there; with room for the
      required ones each of these stands in the body whole. */
  lemma CappedHolds(sections: seq<Section>, maxBody: int, body: string)
    requires maxBody >= 0 && Capped(sections, maxBody, body)
    ensures |Join(sections)| <= maxBody ==> body == Join(sections)
    ensures |Join(RequiredOnly(sections))| <= maxBody ==> forall x :: x in sections && !x.optional ==> Holds(body, x.text)
  {
    hide Join, Kept;
    KeptNone(sections);
    if |Join(RequiredOnly(sections))| <= maxBody {
      var k: nat :| FewestDropped(sections, maxBody, k) && body == Join(Kept(sections, k));
      KeptKeepsRequired(sections, k);
      forall x | x in sections && !x.optional ensures Holds(body, x.text) {
        RequiredOnlyIs(sections, x);
        RequiredOnlyIs(Kept(sections, k), x);
        JoinHolds(Kept(sections, k), x);
      }
    }
  }

  lemma CappedKept(sections: seq<Section>, maxBody: int, k: nat)
    requires FewestDropped(sections, maxBody, k)
    ensures Capped(sections, maxBody, Join(Kept(sections, k)))
  {
  }

  lemma CappedCut(sections: seq<Section>, maxBody: int)
    requires forall k: nat :: k <= OptionalCount(sections) ==> |Join(Kept(sections, k))| > maxBody
    ensures var text := Join(RequiredOnly(sections));
            |text| > maxBody && Capped(sections, maxBody, if maxBody <= 3 then Dots(maxBody) else text[..maxBody - 3] + "...")
  {
    hide Join;
    KeptKeepsRequired(sections, OptionalCount(sections));
    DotsLength(maxBody);
  }

  /** The body never exceeds its limit. */
  method CapBodyToMax(sections: seq<Section>, maxBody: int) returns (body: string)
    ensures Capped(sections, maxBody, body)
  {
    hide Join, Capped, CutTo, RequiredOnly;
    body := Join(sections);
    KeptNone(sections);
    if |body| <= maxBody {
      CappedKept(sections, maxBody, 0);
      return;
    }
    var optionalIndices := CollectOptional(sections);
    OptionalIndicesCount(sections);
    var current := sections;
    for t := 0 to |optionalIndices|
      invariant current == Kept(sections, t) && body == Join(current)
      invariant forall j: nat :: j <= t ==> |Join(Kept(sections, j))| > maxBody
    {
      var idx := optionalIndices[t];
      KeptStep(sections, t);
      current := current[..idx] + current[idx + 1..];
      body := Join(current);
      if |body| <= maxBody {
        CappedKept(sections, maxBody, t + 1);
        return;
      }
    }
    KeptKeepsRequired(sections, |optionalIndices|);
    CappedCut(sections, maxBody);
    body := if maxBody <= 3 then Dots(maxBody) else body[..maxBody - 3] + "...";
  }

  lemma FewestDroppedIsUnique(sections: seq<Section>, maxBody: int, j: nat, k: nat)
    requires FewestDropped(sections, maxBody, j) && FewestDropped(sections, maxBody, k)
    ensures j == k
  {
  }
}

/** The overlay functions with the delimiters and the bound they are used with. */
module RuntimeOverlay {
  import opened Text
  import opened AgentsOverlay
  import opened OverlayBody

  const MARKERS := Markers(
    "<!-- OMCP:RUNTIME:START -->",
    "<!-- OMCP:RUNTIME:END -->",
    "<!-- OMCP:TEAM:WORKER:START -->",
    "<!-- OMCP:TEAM:WORKER:END -->")
  const MAX_STRIP_ITERATIONS: nat := 50

  const MAX_OVERLAY_SIZE := 3500
  const CONTEXT_OPEN := "\n<session_context>\n"
  const CONTEXT_CLOSE := "\n</session_context>\n"

  lemma FixedLengths()
    ensures |MARKERS.start| + |CONTEXT_OPEN| == 46 && |CONTEXT_CLOSE| + |MARKERS.end| == 45
  {
  }

  lemma FixedTexts()
    ensures MARKERS.start == "<!-- OMCP:RUNTIME:START -->" && MARKERS.end == "<!-- OMCP:RUNTIME:END -->"
    ensures CONTEXT_OPEN == "\n<session_context>\n" && CONTEXT_CLOSE == "\n</session_context>\n"
  {
  }

  lemma Delimited(start: string, open: string, body: string, close: string, end: string)
    ensures (start + open) + body + (close + end) == start + open + body + close + end
  {
  }

  /** generateOverlay, from the sections on: at most 3500 characters, and between the delimiters the
      sections capped to the 3409 that leaves. */
  method GenerateOverlay(sections: seq<Section>) returns (overlay: string, ghost body: string)
    ensures |overlay| <= 3500
    ensures overlay == "<!-- OMCP:RUNTIME:START -->" + "\n<session_context>\n" + body
                       + "\n</session_context>\n" + "<!-- OMCP:RUNTIME:END -->"
    ensures overlay == Overlay(MARKERS, CONTEXT_OPEN + body + CONTEXT_CLOSE)
    ensures Capped(sections, 3409, body)
    ensures |Join(sections)| <= 3409 ==> body == Join(sections)
    ensures |Join(RequiredOnly(sections))| <= 3409 ==> forall x :: x in sections && !x.optional ==> Holds(body, x.text)
  {
    var prefix := MARKERS.start + CONTEXT_OPEN;
    var suffix := CONTEXT_CLOSE + MARKERS.end;
    FixedLengths();
    FixedTexts();
    hide MARKERS, CONTEXT_OPEN, CONTEXT_CLOSE, Capped, Join, RequiredOnly, Holds;
    var maxBody := MAX_OVERLAY_SIZE - |prefix| - |suffix|;
    var text := CapBodyToMax(sections, if maxBody >= 0 then maxBody else 0);
    CappedHolds(sections, maxBody, text);
    CappedLength(sections, maxBody, text);
    body := text;
    overlay := prefix + text + suffix;
    Delimited(MARKERS.start, CONTEXT_OPEN, text, CONTEXT_CLOSE, MARKERS.end);
  }

  lemma CappedLength(sections: seq<Section>, maxBody: int, body: string)
    requires maxBody >= 0 && Capped(sections, maxBody, body)
    ensures |body| <= maxBody
  {
  }

  lemma MarkersAreShaped()
    ensures Shaped(MARKERS)
  {
    RuntimeMarkersAreShaped();
    WorkerMarkersAreShaped();
  }

  lemma RuntimeMarkersAreShaped()
    ensures MarkerShape(MARKERS.start) && MarkerShape(MARKERS.end)
    ensures |MARKERS.end| <= |MARKERS.start| && MARKERS.start[..|MARKERS.end|] != MARKERS.end
  {
    PlainIntro(MARKERS.start, 1);
    PlainIntro(MARKERS.end, 1);
    assert MARKERS.start[18] != MARKERS.end[18];
  }

  lemma WorkerMarkersAreShaped()
    ensures MarkerShape(MARKERS.workerStart) && MarkerShape(MARKERS.workerEnd)
  {
    PlainIntro(MARKERS.workerStart, 1);
    PlainIntro(MARKERS.workerEnd, 1);
  }

  /** The user's text, trimmed at the end, an empty line, and the overlay: what an apply writes over a
      file without overlays. */
  lemma ApplyWrites(user: string, overlay: string)
    requires !Contains(user, "<!-- OMCP:RUNTIME:START -->")
    ensures Apply(MARKERS, user, overlay, MAX_STRIP_ITERATIONS) == TrimEnd(user) + "\n\n" + overlay + "\n"
  {
    hide Strip, TrimEnd, Contains;
    StripOfClean(MARKERS, user, MAX_STRIP_ITERATIONS);
  }

  /** One overlay between texts of the user: it goes with its delimiters, and of the spaces around it
      one newline is left. */
  lemma StripTakesOverlay(before: string, body: string, after: string)
    requires !Contains(before, "<!-- OMCP:RUNTIME:START -->") && !Contains(after, "<!-- OMCP:RUNTIME:START -->")
    requires !Contains(body, "<!-- OMCP:RUNTIME:END -->")
    ensures Strip(MARKERS, before + ("<!-- OMCP:RUNTIME:START -->" + body + "<!-- OMCP:RUNTIME:END -->") + after, MAX_STRIP_ITERATIONS)
         == TrimEnd(before) + "\n" + TrimStart(after)
  {
    hide Strip, TrimEnd, TrimStart, Contains, Shaped, Count;
    MarkersAreShaped();
    FixedTexts();
    hide MARKERS;
    ClosedRound(MARKERS, before, body, after);
    var left := Rejoin(TrimEnd(before), TrimStart(after));
    RejoinIs(TrimEnd(before), TrimStart(after));
    StripStep(MARKERS, before + Overlay(MARKERS, body) + after, MAX_STRIP_ITERATIONS, left);
    TrimmedPrefixIsClean(MARKERS, before);
    TrimmedSuffixIsClean(MARKERS, after);
    RejoinCount(MARKERS, TrimEnd(before), TrimStart(after));
    CountZero(TrimEnd(before), MARKERS.start);
    CountZero(TrimStart(after), MARKERS.start);
    CountZero(left, MARKERS.start);
    StripOfClean(MARKERS, left, MAX_STRIP_ITERATIONS - 1);
  }

  /** The loop of a strip ends clean exactly on files that need no more than fifty rounds. */
  lemma FiftyRounds(content: string)
    ensures !Contains(Strip(MARKERS, content, MAX_STRIP_ITERATIONS), "<!-- OMCP:RUNTIME:START -->")
            <==> (MarkersAreShaped(); RoundsNeeded(MARKERS, content) <= 50)
  {
    hide Strip, RoundsNeeded, Contains, Shaped, Count;
    MarkersAreShaped();
    FixedTexts();
    hide MARKERS;
    StripIsClean(MARKERS, content, MAX_STRIP_ITERATIONS);
    CountZero(Strip(MARKERS, content, MAX_STRIP_ITERATIONS), MARKERS.start);
  }

  /** A START whose END is missing costs the text up to the worker overlay, and not the worker overlay. */
  lemma BrokenKeepsWorker(before: string, gap: string, rest: string)
    requires !Contains(before, "<!-- OMCP:RUNTIME:START -->") && !Contains(gap, "<!-- OMCP:RUNTIME:START -->")
    requires Unclosed(MARKERS, gap) && !Contains(rest, "<!-- OMCP:RUNTIME:START -->") && !Contains(rest, "<!-- OMCP:RUNTIME:END -->")
    ensures Strip(MARKERS, before + "<!-- OMCP:RUNTIME:START -->" + gap + ("<!-- OMCP:TEAM:WORKER:START -->" + rest), MAX_STRIP_ITERATIONS)
         == TrimEnd(before) + "\n" + ("<!-- OMCP:TEAM:WORKER:START -->" + rest)
  {
    hide Strip, TrimEnd, Contains, Shaped, Count, Unclosed, MarkerShape;
    MarkersAreShaped();
    FixedTexts();
    WorkerText();
    var worker := MARKERS.workerStart + rest;
    WorkerIsPlain(rest);
    CountZero(gap, MARKERS.start);
    hide MARKERS;
    WorkerOverlaySurvives(MARKERS, before, gap, worker, MAX_STRIP_ITERATIONS);
  }

  /** A START with no marker behind it costs the rest of the text. */
  lemma BrokenAtEnd(before: string, rest: string)
    requires !Contains(before, "<!-- OMCP:RUNTIME:START -->") && !Contains(rest, "<!-- OMCP:RUNTIME:START -->")
    requires !Contains(rest, "<!-- OMCP:RUNTIME:END -->")
    requires !Contains(rest, "<!-- OMCP:TEAM:WORKER:START -->") && !Contains(rest, "<!-- OMCP:TEAM:WORKER:END -->")
    ensures Strip(MARKERS, before + "<!-- OMCP:RUNTIME:START -->" + rest, MAX_STRIP_ITERATIONS) == TrimEnd(before) + "\n"
  {
    MarkersAreShaped();
    FixedTexts();
    WorkerText();
    hide MARKERS, Strip, Contains, TrimEnd, Shaped, StripRound;
    LastStartRound(MARKERS, before, rest);
    StripEnds(MARKERS, before + MARKERS.start + rest, MAX_STRIP_ITERATIONS, TrimEnd(before) + "\n");
  }

  lemma StripEnds(mk: Markers, s: string, rounds: nat, result: string)
    requires rounds >= 1 && StripRound(mk, s) == Truncated(result)
    ensures Strip(mk, s, rounds) == result
  {
  }

  lemma LastStartRound(mk: Markers, before: string, rest: string)
    requires Shaped(mk) && !Contains(before, mk.start) && !Contains(rest, mk.start) && !Contains(rest, mk.end)
    requires !Contains(rest, mk.workerStart) && !Contains(rest, mk.workerEnd)
    ensures StripRound(mk, before + mk.start + rest) == Truncated(TrimEnd(before) + "\n")
  {
    hide Contains, IndexOf, MarkerShape, OccursAt;
    var s := before + mk.start + rest;
    ShapedParts(mk);
    PiecesOf(before, mk.start, rest);
    FirstAfterPart("", before, mk.start + rest, mk.start);
    StartHoldsNoEnd(mk, rest);
    NoneAfterPart(before, mk.start + rest, mk.end);
    NextMarkerFirst(mk, s, |before + mk.start|);
    NoneKnown(mk, before + mk.start, rest);
    assert s[..|before|] == before;
  }

  lemma PiecesOf(a: string, m: string, b: string)
    ensures a + m + b == "" + a + (m + b) && a + m + b == a + (m + b) && m <= m + b
  {
  }

  lemma ShapedParts(mk: Markers)
    requires Shaped(mk)
    ensures MarkerShape(mk.start)
  {
  }

  lemma NoneKnown(mk: Markers, front: string, rest: string)
    requires !Contains(rest, mk.start) && !Contains(rest, mk.workerStart) && !Contains(rest, mk.workerEnd)
    ensures NextMarker(mk, front + rest, |front|) == -1
  {
    hide Contains, OccursAt;
    NextMarkerFirst(mk, front + rest, |front|);
    var k := NextMarker(mk, front + rest, |front|);
    if k >= 0 {
      NotAt(front, rest, mk.start, k);
      NotAt(front, rest, mk.workerStart, k);
      NotAt(front, rest, mk.workerEnd, k);
    }
  }

  lemma NotAt(front: string, rest: string, m: string, k: int)
    requires !Contains(rest, m) && k >= |front|
    ensures !OccursAt(front + rest, m, k)
  {
    OccursInConcat(front, rest, m, k);
    AbsentAt(rest, m, k - |front|);
  }

  lemma WorkerText()
    ensures MARKERS.workerStart == "<!-- OMCP:TEAM:WORKER:START -->" && MARKERS.workerEnd == "<!-- OMCP:TEAM:WORKER:END -->"
  {
  }

  /** The worker's marker holds neither delimiter of the runtime overlay. */
  lemma WorkerIsPlain(rest: string)
    requires !Contains(rest, MARKERS.start) && !Contains(rest, MARKERS.end)
    ensures IsWorker(MARKERS, MARKERS.workerStart + rest)
    ensures !Contains(MARKERS.workerStart + rest, MARKERS.end)
  {
    MarkersAreShaped();
    MarkersPart();
    hide MARKERS, Contains;
    MarkerThen(MARKERS.workerStart, rest, MARKERS.start, 10);
    MarkerThen(MARKERS.workerStart, rest, MARKERS.end, 10);
  }

  lemma MarkersPart()
    ensures |MARKERS.workerStart| > 10 && |MARKERS.start| > 10 && |MARKERS.end| > 10
    ensures MARKERS.workerStart[10] != MARKERS.start[10] && MARKERS.workerStart[10] != MARKERS.end[10]
  {
  }

  /** A marker in front of a text brings in no other marker. */
  lemma MarkerThen(first: string, rest: string, m: string, k: nat)
    requires MarkerShape(first) && MarkerShape(m) && !Contains(rest, m)
    requires k < |first| && k < |m| && first[k] != m[k]
    ensures !Contains(first + rest, m)
  {
    forall i ensures !OccursAt(first + rest, m, i) {
      if OccursAt(first + rest, m, i) {
        if i == 0 {
          OccursChars(first + rest, m, 0, k);
        } else if i < |first| {
          MarkerOpens(first + rest, m, i);
          PlainAt(first, 1, i);
        } else {
          OccursInConcat(first, rest, m, i);
          AbsentAt(rest, m, i - |first|);
        }
      }
    }
    AbsentIf(first + rest, m);
  }

  lemma RejoinIs(before: string, after: string)
    ensures Rejoin(before, after) == before + "\n" + after
  {
  }

  lemma TrimmedSuffixIsClean(mk: Markers, s: string)
    requires !Contains(s, mk.start)
    ensures !Contains(TrimStart(s), mk.start)
  {
    TrimStartCuts(s);
    var n := |s| - |TrimStart(s)|;
    assert s == s[..n] + s[n..];
    hide Contains;
    PartFree(s[..n], s[n..], mk.start);
  }

  /** AGENTS.md as the overlay functions see it: a file that may not exist. */
  class AgentsMd {
    var present: bool
    var content: string

    constructor (onDisk: bool, text: string)
      ensures present == onDisk && content == text
    {
      present, content := onDisk, text;
    }

    method ApplyOverlay(overlay: string)
      modifies this
      ensures present
      ensures content == Apply(MARKERS, if old(present) then old(content) else "", overlay, MAX_STRIP_ITERATIONS)
    {
      MarkersAreShaped();
      var text := if present then content else "";
      text := StripMarkers(MARKERS, text, MAX_STRIP_ITERATIONS);
      content := TrimEnd(text) + "\n\n" + overlay + "\n";
      present := true;
    }

    method StripOverlay()
      modifies this
      ensures present == old(present)
      ensures content == if old(present) then Strip(MARKERS, old(content), MAX_STRIP_ITERATIONS) else old(content)
    {
      if !present { return; }
      MarkersAreShaped();
      var stripped := StripMarkers(MARKERS, content, MAX_STRIP_ITERATIONS);
      if stripped != content {
        content := stripped;
      }
    }
  }

  /** Installing an overlay and taking it out again, on one file with at most fifty overlays in it:
      what is left is the stripped text, trimmed, and a second apply replaces the first. */
  lemma FiftyOverlays(content: string, body: string, overlay: string)
    requires Count(content, MARKERS.start) <= 50 && MarkerFree(MARKERS, body)
    ensures Strip(MARKERS, Apply(MARKERS, content, Overlay(MARKERS, body), MAX_STRIP_ITERATIONS), MAX_STRIP_ITERATIONS)
         == TrimEnd(Strip(MARKERS, content, MAX_STRIP_ITERATIONS)) + "\n"
    ensures Apply(MARKERS, Apply(MARKERS, content, Overlay(MARKERS, body), MAX_STRIP_ITERATIONS), overlay, MAX_STRIP_ITERATIONS)
         == Apply(MARKERS, content, overlay, MAX_STRIP_ITERATIONS)
  {
    hide Strip, Apply, Overlay, Shaped, MarkerFree, Count, TrimEnd;
    MarkersAreShaped();
    RoundsWithinCount(MARKERS, content);
    StripUndoesApply(MARKERS, content, body, MAX_STRIP_ITERATIONS);
    ApplyReplaces(MARKERS, content, body, overlay, MAX_STRIP_ITERATIONS);
  }
}
