/** The sorts of playground/adaptive_sort_demo/sort_benchmark.py with their operation counters.
    Every method states the list it returns and the exact or worst-case number of
    comparisons and moves it charges. */
module SortBenchmark {
  import opened SortSpec

  datatype Option<+T> = None | Some(value: T) {
    function GetOr(default: T): T {
      match this
      case Some(v) => v
      case None => default
    }
  }

  class Metrics {
    var comparisons: nat
    var moves: nat

    constructor ()
      ensures comparisons == 0 && moves == 0
    {
      comparisons, moves := 0, 0;
    }
  }

  class Ops {
    const metrics: Metrics

    constructor ()
      ensures fresh(metrics) && metrics.comparisons == 0 && metrics.moves == 0
    {
      metrics := new Metrics();
    }

    method Compare(a: int, b: int) returns (order: int)
      modifies metrics
      ensures metrics.comparisons == old(metrics.comparisons) + 1 && metrics.moves == old(metrics.moves)
      ensures order == (if a > b then 1 else if a < b then -1 else 0)
    {
      metrics.comparisons := metrics.comparisons + 1;
      order := (if a > b then 1 else 0) - (if a < b then 1 else 0);
    }

    method Move(count: nat := 1)
      modifies metrics
      ensures metrics.moves == old(metrics.moves) + count && metrics.comparisons == old(metrics.comparisons)
    {
      metrics.moves := metrics.moves + count;
    }
  }

  // ----- insertion sort -----

  /** Comparisons that placing `x` after a sorted prefix costs: one per shift, and one more
      that stops the scan unless everything was shifted. */
  function InsertComparisons(s: seq<int>, x: int): nat {
    Shifts(s, x) + (if Shifts(s, x) < |s| then 1 else 0)
  }

  function InsertionComparisons(values: seq<int>): nat {
    if |values| <= 1 then 0
    else
      var n := |values| - 1;
      InsertionComparisons(values[..n]) + InsertComparisons(SortedOf(values[..n]), values[n])
  }

  function InsertionMoves(values: seq<int>): nat {
    if |values| <= 1 then 0
    else
      var n := |values| - 1;
      InsertionMoves(values[..n]) + Shifts(SortedOf(values[..n]), values[n]) + 2
  }

  /** Exact cost of insertion sort in terms of the input's disorder. */
  lemma {:induction false} InsertionCost(values: seq<int>)
    requires values != []
    ensures InsertionMoves(values) == 2 * (|values| - 1) + |InversionPairs(values)|
    ensures InsertionComparisons(values) == |InversionPairs(values)| + (|values| - 1) - |NewMinima(values)|
  {
    InversionsCountPairs(values);
    if |values| == 1 {
      assert NewMinima(values) == {};
      assert values[..0] == [];
    } else {
      var n := |values| - 1;
      InversionsCountPairs(values[..n]);
      InsertionCost(values[..n]);
      NewMinimaStep(values, n);
      ShiftsAreInversions(values[..n], values[n]);
    }
  }

  lemma ShiftsAreInversions(front: seq<int>, x: int)
    ensures Shifts(SortedOf(front), x) == CountGreater(front, x)
  {
    SortedOfIsSort(front);
    ShiftsCountGreater(SortedOf(front), x);
    CountGreaterOfPermutation(SortedOf(front), front, x);
  }

  lemma NewMinimaStep(values: seq<int>, n: nat)
    requires 1 <= n == |values| - 1
    ensures |NewMinima(values)|
         == |NewMinima(values[..n])| + (if CountGreater(values[..n], values[n]) == n then 1 else 0)
  {
    NewMinimaOfPrefix(values, n);
    assert values[..n + 1] == values;
    CountGreaterIsAll(values[..n], values[n]);
    assert forall j :: 0 <= j < n ==> values[..n][j] == values[j];
  }

  /** The list while `key` is being placed: everything from `k` on has moved up by one and the
      slot at `k` is free. */
  ghost predicate Shifted(now: seq<int>, was: seq<int>, i: nat, k: nat) {
    && k <= i < |was| == |now|
    && (forall x :: 0 <= x < k || i < x < |was| ==> now[x] == was[x])
    && (forall x :: k < x <= i ==> now[x] == was[x - 1])
  }

  lemma ShiftedNone(was: seq<int>, i: nat)
    requires i < |was|
    ensures Shifted(was, was, i, i)
  {
  }

  lemma ShiftedMore(now: seq<int>, was: seq<int>, i: nat, k: nat)
    requires Shifted(now, was, i, k) && k > 0
    ensures now[k - 1] == was[k - 1] && Shifted(now[k := now[k - 1]], was, i, k - 1)
  {
  }

  lemma ShiftedFilled(now: seq<int>, was: seq<int>, i: nat, k: nat, key: int)
    requires Shifted(now, was, i, k)
    requires InsertAfter(was[..i], key) == was[..k] + [key] + was[k..i]
    ensures now[k := key] == InsertAfter(was[..i], key) + was[i + 1..]
  {
  }

  lemma {:induction false} InsertAfterAt(s: seq<int>, k: nat, key: int)
    requires k <= |s|
    requires k == 0 || s[k - 1] <= key
    requires forall x :: k <= x < |s| ==> s[x] > key
    ensures InsertAfter(s, key) == s[..k] + [key] + s[k..] && Shifts(s, key) == |s| - k
  {
    if k < |s| {
      var n := |s| - 1;
      InsertAfterAt(s[..n], k, key);
      assert s[..n][k..] + [s[n]] == s[k..] && s[..n][..k] == s[..k];
    } else {
      assert s[..k] == s && s[k..] == [];
    }
  }

  /** Places `key` after the first `i` elements of `a`, shifting the larger ones up. */
  method InsertKey(a: array<int>, i: nat, key: int, ops: Ops)
    requires 0 < i < a.Length
    modifies a, ops.metrics
    ensures a[..] == InsertAfter(old(a[..i]), key) + old(a[i + 1..])
    ensures ops.metrics.comparisons == old(ops.metrics.comparisons) + InsertComparisons(old(a[..i]), key)
    ensures ops.metrics.moves == old(ops.metrics.moves) + Shifts(old(a[..i]), key) + 1
  {
    hide InsertAfter, Shifts, Shifted;
    ghost var was := a[..];
    ShiftedNone(was, i);
    var j := i - 1;
    var shifting := true;
    while shifting && j >= 0
      invariant -1 <= j <= i - 1
      invariant Shifted(a[..], was, i, j + 1)
      invariant forall x :: j < x < i ==> was[x] > key
      invariant !shifting ==> j >= 0 && was[j] <= key
      invariant ops.metrics.moves == old(ops.metrics.moves) + (i - 1 - j)
      invariant ops.metrics.comparisons == old(ops.metrics.comparisons) + (i - 1 - j) + (if shifting then 0 else 1)
      decreases shifting, j
    {
      ghost var now := a[..];
      ShiftedMore(now, was, i, j + 1);
      var order := ops.Compare(a[j], key);
      if order > 0 {
        a[j + 1] := a[j];
        assert a[..] == now[j + 1 := now[j]];
        ops.Move();
        j := j - 1;
      } else {
        shifting := false;
      }
    }
    InsertAfterAt(was[..i], j + 1, key);
    assert was[..i][..j + 1] == was[..j + 1] && was[..i][j + 1..] == was[j + 1..i];
    ShiftedFilled(a[..], was, i, j + 1, key);
    a[j + 1] := key;
    ops.Move();
  }

  /** One round of insertion sort, as the specification functions see it. */
  lemma InsertionStep(values: seq<int>, i: nat)
    requires 1 <= i < |values|
    ensures SortedOf(values[..i + 1]) == InsertAfter(SortedOf(values[..i]), values[i])
    ensures InsertionMoves(values[..i + 1]) == InsertionMoves(values[..i]) + Shifts(SortedOf(values[..i]), values[i]) + 2
    ensures InsertionComparisons(values[..i + 1])
         == InsertionComparisons(values[..i]) + InsertComparisons(SortedOf(values[..i]), values[i])
  {
    assert values[..i + 1][..i] == values[..i];
  }

  lemma ShortIsSorted(values: seq<int>)
    requires |values| <= 1
    ensures SortedOf(values) == values
  {
    if values != [] {
      assert values[..0] == [] && SortedOf([]) == [];
      assert InsertAfter([], values[0]) == [values[0]];
    }
  }

  lemma InsertionBase(values: seq<int>)
    requires |values| <= 1
    ensures SortedOf(values) == values && InsertionMoves(values) == 0 && InsertionComparisons(values) == 0
  {
    hide SortedOf;
    ShortIsSorted(values);
  }

  lemma SplitAt(s: seq<int>, front: seq<int>, back: seq<int>, i: nat)
    requires s == front + back && |front| == i && i < |s|
    ensures s[i] == back[0] && s[..i] == front && s[i + 1..] == back[1..]
  {
  }

  method InsertionSort(values: seq<int>, ops: Ops) returns (out: seq<int>)
    modifies ops.metrics
    ensures out == SortedOf(values)
    ensures ops.metrics.moves == old(ops.metrics.moves) + InsertionMoves(values)
    ensures ops.metrics.comparisons == old(ops.metrics.comparisons) + InsertionComparisons(values)
  {
    hide *;
    var arr := new int[|values|](k requires 0 <= k < |values| => values[k]);
    assert arr[..] == values;
    ghost var done := if |values| <= 1 then |values| else 1;
    InsertionBase(values[..done]);
    var i := 1;
    while i < |values|
      invariant 0 <= done <= |values| && (|values| <= 1 ==> done == |values|) && (|values| > 1 ==> done == i >= 1)
      invariant arr[..] == SortedOf(values[..done]) + values[done..]
      invariant ops.metrics.moves == old(ops.metrics.moves) + InsertionMoves(values[..done])
      invariant ops.metrics.comparisons == old(ops.metrics.comparisons) + InsertionComparisons(values[..done])
    {
      SplitAt(arr[..], SortedOf(values[..i]), values[i..], i);
      var key := arr[i];
      ops.Move();
      InsertKey(arr, i, key, ops);
      InsertionStep(values, i);
      i := i + 1;
      done := i;
    }
    out := arr[..];
    assert values[..done] == values && values[done..] == [];
  }

  // ----- merge sort -----

  function MergeSortComparisons(values: seq<int>): nat
    decreases |values|
  {
    if |values| <= 1 then 0
    else
      var front, back := values[..|values| / 2], values[|values| / 2..];
      MergeSortComparisons(front) + MergeSortComparisons(back) + MergeComparisons(SortedOf(front), SortedOf(back))
  }

  /** Merge sort never compares more than n * ceil(log2 n) - 2^ceil(log2 n) + 1 times. */
  lemma MergeSortComparisonsBound(values: seq<int>)
    requires values != []
    ensures var n := |values|;
            MergeSortComparisons(values) <= n * CeilLog2(n) - Pow2(CeilLog2(n)) + 1
  {
    MergeSortWithinRecurrence(values);
    MergeWorstClosedForm(|values|);
  }

  lemma {:induction false} MergeSortWithinRecurrence(values: seq<int>)
    ensures MergeSortComparisons(values) <= MergeWorstComparisons(|values|)
    decreases |values|
  {
    hide *;
    if |values| <= 1 {
      MergeSortBase(values);
    } else {
      var mid := |values| / 2;
      MergeSortStep(values, mid);
      var front, back := values[..mid], values[mid..];
      MergeSortWithinRecurrence(front);
      MergeSortWithinRecurrence(back);
      MergeComparisonsBound(SortedOf(front), SortedOf(back));
    }
  }

  method MergeSort(values: seq<int>, ops: Ops) returns (out: seq<int>)
    modifies ops.metrics
    ensures out == SortedOf(values)
    ensures ops.metrics.moves == old(ops.metrics.moves) + MergeMoves(|values|)
    ensures ops.metrics.comparisons == old(ops.metrics.comparisons) + MergeSortComparisons(values)
    decreases |values|
  {
    hide *;
    if |values| <= 1 {
      MergeSortBase(values);
      return values;
    }
    var mid := |values| / 2;
    MergeSortStep(values, mid);
    var left := MergeSort(values[..mid], ops);
    var right := MergeSort(values[mid..], ops);
    out := Merge(left, right, ops);
  }

  lemma MergeSortBase(values: seq<int>)
    requires |values| <= 1
    ensures SortedOf(values) == values && MergeMoves(|values|) == 0 && MergeSortComparisons(values) == 0
  {
    hide SortedOf;
    ShortIsSorted(values);
  }

  lemma MergeSortStep(values: seq<int>, mid: nat)
    requires |values| > 1 && mid == |values| / 2
    ensures MergeOf(SortedOf(values[..mid]), SortedOf(values[mid..])) == SortedOf(values)
    ensures MergeMoves(|values|) == |values| + MergeMoves(mid) + MergeMoves(|values| - mid)
    ensures MergeWorstComparisons(|values|)
         == |values| - 1 + MergeWorstComparisons(mid) + MergeWorstComparisons(|values| - mid)
    ensures MergeSortComparisons(values)
         == MergeSortComparisons(values[..mid]) + MergeSortComparisons(values[mid..])
            + MergeComparisons(SortedOf(values[..mid]), SortedOf(values[mid..]))
  {
    hide *;
    MergeOfHalves(values[..mid], values[mid..]);
    assert values == values[..mid] + values[mid..];
    RecurrenceStep(|values|, mid);
    ComparisonsStep(values, mid);
  }

  lemma RecurrenceStep(n: nat, mid: nat)
    requires n > 1 && mid == n / 2
    ensures MergeMoves(n) == n + MergeMoves(mid) + MergeMoves(n - mid)
    ensures MergeWorstComparisons(n) == n - 1 + MergeWorstComparisons(mid) + MergeWorstComparisons(n - mid)
  {
  }

  lemma ComparisonsStep(values: seq<int>, mid: nat)
    requires |values| > 1 && mid == |values| / 2
    ensures MergeSortComparisons(values)
         == MergeSortComparisons(values[..mid]) + MergeSortComparisons(values[mid..])
            + MergeComparisons(SortedOf(values[..mid]), SortedOf(values[mid..]))
  {
    hide SortedOf, MergeComparisons;
  }

  /** What is left to merge once the smaller head has been written. */
  lemma MergeAdvances(left: seq<int>, right: seq<int>, i: nat, j: nat)
    requires i < |left| && j < |right|
    ensures left[i] <= right[j] ==>
              && MergeOf(left[i..], right[j..]) == [left[i]] + MergeOf(left[i + 1..], right[j..])
              && MergeComparisons(left[i..], right[j..]) == 1 + MergeComparisons(left[i + 1..], right[j..])
    ensures left[i] > right[j] ==>
              && MergeOf(left[i..], right[j..]) == [right[j]] + MergeOf(left[i..], right[j + 1..])
              && MergeComparisons(left[i..], right[j..]) == 1 + MergeComparisons(left[i..], right[j + 1..])
  {
    assert left[i..][1..] == left[i + 1..] && right[j..][1..] == right[j + 1..];
  }

  lemma MergeOneEmpty(left: seq<int>, right: seq<int>)
    requires left == [] || right == []
    ensures MergeOf(left, right) == left + right && MergeComparisons(left, right) == 0
  {
  }

  method Merge(left: seq<int>, right: seq<int>, ops: Ops) returns (out: seq<int>)
    modifies ops.metrics
    ensures out == MergeOf(left, right)
    ensures ops.metrics.moves == old(ops.metrics.moves) + |left| + |right|
    ensures ops.metrics.comparisons == old(ops.metrics.comparisons) + MergeComparisons(left, right)
  {
    hide *;
    out := [];
    var i, j := 0, 0;
    assert left[0..] == left && right[0..] == right;
    while i < |left| && j < |right|
      invariant 0 <= i <= |left| && 0 <= j <= |right|
      invariant out + MergeOf(left[i..], right[j..]) == MergeOf(left, right)
      invariant ops.metrics.moves == old(ops.metrics.moves) + i + j
      invariant ops.metrics.comparisons + MergeComparisons(left[i..], right[j..])
             == old(ops.metrics.comparisons) + MergeComparisons(left, right)
    {
      MergeAdvances(left, right, i, j);
      var order := ops.Compare(left[i], right[j]);
      if order <= 0 {
        out := out + [left[i]];
        ops.Move();
        i := i + 1;
      } else {
        out := out + [right[j]];
        ops.Move();
        j := j + 1;
      }
    }
    MergeOneEmpty(left[i..], right[j..]);
    ghost var merged := out;
    if i < |left| {
      out := out + left[i..];
      ops.Move(|left| - i);
    }
    if j < |right| {
      out := out + right[j..];
      ops.Move(|right| - j);
    }
    assert out == merged + (left[i..] + right[j..]);
  }

  // ----- counting sort -----

  /** How often `x` occurs among the first values. */
  function Occurrences(s: seq<int>, x: int): nat {
    multiset(s)[x]
  }

  lemma OccurrencesSnoc(s: seq<int>, k: nat)
    requires k < |s|
    ensures forall x :: Occurrences(s[..k + 1], x) == Occurrences(s[..k], x) + (if x == s[k] then 1 else 0)
  {
    assert s[..k + 1] == s[..k] + [s[k]];
  }

  lemma OccurrencesEnds(s: seq<int>)
    ensures s[..|s|] == s && forall x :: Occurrences(s[..0], x) == 0
  {
    assert s[..|s|] == s;
  }

  method CountingSort(values: seq<int>, minValue: int, maxValue: int, ops: Ops) returns (out: seq<int>)
    requires minValue <= maxValue
    requires forall i :: 0 <= i < |values| ==> minValue <= values[i] <= maxValue
    modifies ops.metrics
    ensures out == SortedOf(values)
    ensures ops.metrics.moves == old(ops.metrics.moves) + (maxValue - minValue + 1) + 2 * |values|
    ensures ops.metrics.comparisons == old(ops.metrics.comparisons)
  {
    var offset := minValue;
    var counts := new nat[maxValue - minValue + 1](_ => 0);
    ops.Move(counts.Length);
    hide Sorted, SortedOf, Occurrences;
    OccurrencesEnds(values);
    for k := 0 to |values|
      invariant forall c :: 0 <= c < counts.Length ==> counts[c] == Occurrences(values[..k], c + offset)
      invariant ops.metrics.moves == old(ops.metrics.moves) + counts.Length + k
      invariant ops.metrics.comparisons == old(ops.metrics.comparisons)
    {
      OccurrencesSnoc(values, k);
      counts[values[k] - offset] := counts[values[k] - offset] + 1;
      ops.Move();
    }
    out := [];
    NothingSorted();
    for index := 0 to counts.Length
      invariant forall c :: 0 <= c < counts.Length ==> counts[c] == Occurrences(values, c + offset)
      invariant Sorted(out) && forall x :: 0 <= x < |out| ==> out[x] < index + offset
      invariant forall v :: multiset(out)[v] == if v < index + offset then Occurrences(values, v) else 0
      invariant ops.metrics.moves == old(ops.metrics.moves) + counts.Length + |values| + |out|
      invariant ops.metrics.comparisons == old(ops.metrics.comparisons)
    {
      if counts[index] != 0 {
        var value := index + offset;
        var copies := seq(counts[index], _ => value);
        CopiesBehind(out, copies, value);
        out := out + copies;
        ops.Move(counts[index]);
      }
    }
    SameOccurrences(out, values);
    SortedOfIsTheSort(out, values);
  }

  lemma NothingSorted()
    ensures Sorted([])
  {
  }

  lemma SameOccurrences(a: seq<int>, b: seq<int>)
    requires forall x :: multiset(a)[x] == Occurrences(b, x)
    ensures multiset(a) == multiset(b)
  {
    forall x ensures multiset(a)[x] == multiset(b)[x] { assert multiset(a)[x] == Occurrences(b, x); }
  }

  /** Copies of a value that is larger than all before it. */
  lemma CopiesBehind(out: seq<int>, copies: seq<int>, value: int)
    requires Sorted(out) && (forall x :: 0 <= x < |out| ==> out[x] < value)
    requires forall i :: 0 <= i < |copies| ==> copies[i] == value
    ensures Sorted(out + copies) && forall x :: 0 <= x < |out + copies| ==> (out + copies)[x] < value + 1
    ensures forall v :: multiset(out + copies)[v] == multiset(out)[v] + (if v == value then |copies| else 0)
  {
    RepeatedIsMultiset(copies, value);
    assert multiset(out + copies) == multiset(out) + multiset(copies);
  }

  lemma {:induction false} RepeatedIsMultiset(s: seq<int>, x: int)
    requires forall i :: 0 <= i < |s| ==> s[i] == x
    ensures multiset(s) == multiset{}[x := |s|]
  {
    if s != [] {
      var n := |s| - 1;
      RepeatedIsMultiset(s[..n], x);
      assert s == s[..n] + [x];
    }
  }

  // ----- run detection and the hybrid -----

  method LongestNonDecreasingRun(values: seq<int>) returns (longest: nat)
    ensures IsLongestRun(values, longest)
  {
    if values == [] {
      assert NonDecreasingWindow(values, 0, 0);
      return 0;
    }
    var best, current := 1, 1;
    assert NonDecreasingWindow(values, 0, 1);
    for idx := 1 to |values|
      invariant 1 <= current <= idx && 1 <= best
      invariant NonDecreasingWindow(values, idx - current, current)
      invariant exists start :: NonDecreasingWindow(values, start, best)
      invariant idx == current || values[idx - current - 1] > values[idx - current]
      invariant forall start, len :: NonDecreasingWindow(values, start, len) && start + len <= idx
                                     ==> len <= best || len <= current
    {
      ghost var before := current;
      if values[idx - 1] <= values[idx] {
        current := current + 1;
      } else {
        best := if best >= current then best else current;
        current := 1;
      }
      forall start, len | NonDecreasingWindow(values, start, len) && start + len <= idx + 1
        ensures len <= best || len <= current
      {
        if start + len == idx + 1 && len > 1 {
          assert values[idx - 1] <= values[idx];
          assert NonDecreasingWindow(values, start, len - 1);
        }
      }
    }
    longest := if best >= current then best else current;
  }

  datatype Params = Params(
    insertionThreshold: Option<int>,
    runDetectionMin: Option<int>,
    countingSpanLimit: Option<int>)

  function MinOf(s: seq<int>): (m: int)
    requires s != []
    ensures m in s && forall i :: 0 <= i < |s| ==> m <= s[i]
  {
    if |s| == 1 then s[0]
    else
      var m := MinOf(s[1..]);
      assert s == [s[0]] + s[1..];
      if s[0] <= m then s[0] else m
  }

  function MaxOf(s: seq<int>): (m: int)
    requires s != []
    ensures m in s && forall i :: 0 <= i < |s| ==> s[i] <= m
  {
    if |s| == 1 then s[0]
    else
      var m := MaxOf(s[1..]);
      assert s == [s[0]] + s[1..];
      if s[0] >= m then s[0] else m
  }

  /** The branch `hybrid_sort` takes for these values and thresholds. */
  datatype Path = SmallInput | Counting | Presorted | Merging

  ghost function ChosenPath(values: seq<int>, params: Params, longest: int): Path {
    if |values| <= params.insertionThreshold.GetOr(12) then SmallInput
    else if values != [] && MaxOf(values) - MinOf(values) <= params.countingSpanLimit.GetOr(128) then Counting
    else if longest >= params.runDetectionMin.GetOr(10) then Presorted
    else Merging
  }

  /** No two values are further apart. */
  predicate Within(values: seq<int>, limit: int) {
    forall i, j :: 0 <= i < |values| && 0 <= j < |values| ==> values[i] - values[j] <= limit
  }

  /** Some non-decreasing window has that length or more. */
  ghost predicate HasRun(values: seq<int>, length: int) {
    exists start, len :: NonDecreasingWindow(values, start, len) && len >= length
  }

  ghost predicate InsertionCharge(values: seq<int>, comparisons: int, moves: int) {
    values != [] ==> moves == 2 * (|values| - 1) + |InversionPairs(values)|
                     && comparisons == |InversionPairs(values)| + (|values| - 1) - |NewMinima(values)|
  }

  ghost predicate CountingCharge(values: seq<int>, comparisons: int, moves: int) {
    comparisons == 0
    && forall i, j :: 0 <= i < |values| && 0 <= j < |values| && (forall k :: 0 <= k < |values| ==> values[i] <= values[k] <= values[j])
                      ==> moves == (values[j] - values[i] + 1) + 2 * |values|
  }

  ghost predicate MergingCharge(values: seq<int>, comparisons: int, moves: int) {
    |values| >= 1 ==>
      var n, k := |values|, CeilLog2(|values|);
      moves == n * k - Pow2(k) + n && comparisons <= n * k - Pow2(k) + 1
  }

  /** What the branches charge, told from the list and the thresholds, which default to 12, 128 and 10:
      short lists and long ones with a long run are inserted, narrow ones counted, all others merged; and
      a sorted list costs one comparison and two moves for each value but the first. */
  ghost predicate Charges(values: seq<int>, threshold: int, span: int, runMin: int, comparisons: int, moves: int) {
    && (|values| <= threshold ==> InsertionCharge(values, comparisons, moves))
    && (|values| > threshold && values != [] && Within(values, span) ==> CountingCharge(values, comparisons, moves))
    && (|values| > threshold && !Within(values, span) && HasRun(values, runMin) ==> InsertionCharge(values, comparisons, moves))
    && (|values| > threshold && !Within(values, span) && !HasRun(values, runMin) ==> MergingCharge(values, comparisons, moves))
    && (|values| > threshold && !Within(values, span) && Sorted(values) && |values| >= runMin ==>
          comparisons == |values| - 1 && moves == 2 * (|values| - 1))
  }

  lemma InsertionCharged(values: seq<int>)
    ensures InsertionCharge(values, InsertionComparisons(values), InsertionMoves(values))
  {
    if values != [] { InsertionCost(values); }
  }

  lemma MergingCharged(values: seq<int>)
    ensures MergingCharge(values, MergeSortComparisons(values), MergeMoves(|values|))
  {
    if |values| >= 1 {
      MergeSortComparisonsBound(values);
      MergeMovesClosedForm(|values|);
    }
  }

  lemma CountingCharged(values: seq<int>, moves: int)
    requires values != [] && moves == (MaxOf(values) - MinOf(values) + 1) + 2 * |values|
    ensures CountingCharge(values, 0, moves)
  {
    hide MinOf, MaxOf;
    assert MinOf(values) in values && MaxOf(values) in values;
  }

  lemma SpanIs(values: seq<int>, limit: int)
    requires values != []
    ensures Within(values, limit) <==> MaxOf(values) - MinOf(values) <= limit
  {
    hide MinOf, MaxOf;
    assert MinOf(values) in values && MaxOf(values) in values;
    if Within(values, limit) {
      var i :| 0 <= i < |values| && values[i] == MaxOf(values);
      var j :| 0 <= j < |values| && values[j] == MinOf(values);
      assert values[i] - values[j] <= limit;
    }
  }

  lemma RunIs(values: seq<int>, longest: nat, length: int)
    requires IsLongestRun(values, longest)
    ensures HasRun(values, length) <==> longest >= length
  {
    if longest >= length {
      var start :| NonDecreasingWindow(values, start, longest);
      assert NonDecreasingWindow(values, start, longest) && longest >= length;
    }
  }

  /** A sorted list has no inversion and no new minimum. */
  lemma SortedCharge(values: seq<int>, comparisons: int, moves: int)
    requires Sorted(values) && values != [] && InsertionCharge(values, comparisons, moves)
    ensures comparisons == |values| - 1 && moves == 2 * (|values| - 1)
  {
    assert InversionPairs(values) == {};
    forall i: nat | i < |values| ensures !IsNewMinimum(values, i) {
      if i > 0 { assert values[0] <= values[i]; }
    }
    assert NewMinima(values) == {};
  }

  lemma SortedHasRun(values: seq<int>, runMin: int)
    requires Sorted(values) && |values| >= runMin
    ensures HasRun(values, runMin)
  {
    assert NonDecreasingWindow(values, 0, |values|);
  }

  /** For every setting of the thresholds the hybrid returns the sorted permutation, as
      `BaselineSort` does, and the branch it takes fixes what it may charge. */
  method HybridSort(values: seq<int>, params: Params, ops: Ops) returns (out: seq<int>)
    modifies ops.metrics
    ensures out == SortedOf(values)
    ensures Charges(values, params.insertionThreshold.GetOr(12), params.countingSpanLimit.GetOr(128), params.runDetectionMin.GetOr(10),
                    ops.metrics.comparisons - old(ops.metrics.comparisons), ops.metrics.moves - old(ops.metrics.moves))
    ensures forall longest: nat :: IsLongestRun(values, longest) ==>
              var comparisons := ops.metrics.comparisons - old(ops.metrics.comparisons);
              var moves := ops.metrics.moves - old(ops.metrics.moves);
              HybridCharge(values, ChosenPath(values, params, longest), longest, comparisons, moves)
  {
    hide InsertionCharge, CountingCharge, MergingCharge, Within, HasRun, Sorted, SortedOf, IsLongestRun, MinOf, MaxOf;
    if |values| <= params.insertionThreshold.GetOr(12) {
      out := InsertionSort(values, ops);
      InsertionCharged(values);
      return;
    }
    if values != [] {
      var minValue := MinOf(values);
      var maxValue := MaxOf(values);
      SpanIs(values, params.countingSpanLimit.GetOr(128));
      if maxValue - minValue <= params.countingSpanLimit.GetOr(128) {
        out := CountingSort(values, minValue, maxValue, ops);
        CountingCharged(values, maxValue - minValue + 1 + 2 * |values|);
        return;
      }
    }
    var run := LongestNonDecreasingRun(values);
    forall longest: nat | IsLongestRun(values, longest)
      ensures longest == run
    {
      LongestRunIsUnique(values, longest, run);
    }
    RunIs(values, run, params.runDetectionMin.GetOr(10));
    WithinNone(values, params.countingSpanLimit.GetOr(128));
    if run >= params.runDetectionMin.GetOr(10) {
      out := InsertionSort(values, ops);
      PresortedCharge(values, run);
      InsertionCharged(values);
      if Sorted(values) && values != [] { SortedCharge(values, InsertionComparisons(values), InsertionMoves(values)); }
      return;
    }
    if Sorted(values) && |values| >= params.runDetectionMin.GetOr(10) { SortedHasRun(values, params.runDetectionMin.GetOr(10)); }
    out := MergeSort(values, ops);
    MergingCharged(values);
  }

  lemma WithinNone(values: seq<int>, limit: int)
    ensures values == [] ==> Within(values, limit)
  {
  }

  method BaselineSort(values: seq<int>, ops: Ops) returns (out: seq<int>)
    modifies ops.metrics
    ensures out == SortedOf(values)
    ensures ops.metrics.moves == old(ops.metrics.moves) + MergeMoves(|values|)
    ensures ops.metrics.comparisons == old(ops.metrics.comparisons) + MergeSortComparisons(values)
  {
    out := MergeSort(values, ops);
  }

  ghost predicate HybridCharge(values: seq<int>, path: Path, longest: nat, comparisons: int, moves: int) {
    var n := |values|;
    match path
    case SmallInput => comparisons == InsertionComparisons(values) && moves == InsertionMoves(values)
    case Counting => comparisons == 0 && values != [] && moves == (MaxOf(values) - MinOf(values) + 1) + 2 * n
    case Presorted =>
      && comparisons == InsertionComparisons(values) && moves == InsertionMoves(values)
      && (n >= 1 ==> comparisons <= Triangle(n) - Triangle(longest) + n - 1)
    case Merging => comparisons == MergeSortComparisons(values) && moves == MergeMoves(n)
  }

  lemma LongestRunIsUnique(values: seq<int>, a: int, b: int)
    requires IsLongestRun(values, a) && IsLongestRun(values, b)
    ensures a == b
  {
    var s :| NonDecreasingWindow(values, s, a);
    var t :| NonDecreasingWindow(values, t, b);
  }

  /** A run of length `run` caps what the insertion branch compares. */
  lemma PresortedCharge(values: seq<int>, run: nat)
    requires IsLongestRun(values, run)
    ensures |values| >= 1 ==>
              InsertionComparisons(values) <= Triangle(|values|) - Triangle(run) + |values| - 1
  {
    if values != [] {
      InsertionCost(values);
      InversionsCountPairs(values);
      RunBoundsInversions(values, run);
    }
  }
}
