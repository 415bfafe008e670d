/** What the instrumented sorts are measured against: sorted permutations, inversions,
    new minima, non-decreasing windows and the cost recurrence of a two-way merge. */
module SortSpec {

  ghost predicate Sorted(s: seq<int>) {
    forall i, j :: 0 <= i < j < |s| ==> s[i] <= s[j]
  }

  ghost predicate IsSortOf(out: seq<int>, values: seq<int>) {
    Sorted(out) && multiset(out) == multiset(values)
  }

  /** A list has only one sorted permutation, so two sorts that meet `IsSortOf` agree. */
  lemma {:induction false} SortIsUnique(a: seq<int>, b: seq<int>)
    requires Sorted(a) && Sorted(b) && multiset(a) == multiset(b)
    ensures a == b
  {
    assert |multiset(a)| == |a| && |multiset(b)| == |b|;
    if a != [] {
      SameHead(a, b);
      SameHead(b, a);
      assert a == [a[0]] + a[1..] && b == [b[0]] + b[1..];
      assert multiset(a[1..]) == multiset(a) - multiset{a[0]};
      assert multiset(b[1..]) == multiset(b) - multiset{b[0]};
      SortIsUnique(a[1..], b[1..]);
    }
  }

  lemma SameHead(a: seq<int>, b: seq<int>)
    requires Sorted(b) && multiset(a) == multiset(b) && a != [] && b != []
    ensures b[0] <= a[0]
  {
    assert a[0] in multiset(b);
    var i :| 0 <= i < |b| && b[i] == a[0];
  }

  // ----- insertion, as a function of lists -----

  /** `x` placed after the last element that is not above it. */
  function InsertAfter(s: seq<int>, x: int): (r: seq<int>)
    ensures |r| == |s| + 1
  {
    if s == [] || s[|s| - 1] <= x then s + [x]
    else InsertAfter(s[..|s| - 1], x) + [s[|s| - 1]]
  }

  /** How many trailing elements lie above `x`: what placing it has to shift. */
  function Shifts(s: seq<int>, x: int): (c: nat)
    ensures c <= |s|
  {
    if s == [] || s[|s| - 1] <= x then 0 else 1 + Shifts(s[..|s| - 1], x)
  }

  lemma {:induction false} InsertAfterMembers(s: seq<int>, x: int)
    ensures multiset(InsertAfter(s, x)) == multiset(s + [x])
  {
    if s != [] && s[|s| - 1] > x {
      var n := |s| - 1;
      InsertAfterMembers(s[..n], x);
      assert s == s[..n] + [s[n]];
    }
  }

  lemma {:induction false} InsertAfterSorted(s: seq<int>, x: int)
    requires Sorted(s)
    ensures Sorted(InsertAfter(s, x))
  {
    if s != [] && s[|s| - 1] > x {
      var n := |s| - 1;
      InsertAfterSorted(s[..n], x);
      InsertAfterMembers(s[..n], x);
      var front := InsertAfter(s[..n], x);
      forall i | 0 <= i < |front| ensures front[i] <= s[n] {
        assert front[i] in multiset(s[..n] + [x]);
      }
      hide InsertAfter;
      SortedSnoc(front, s[n]);
    }
  }

  lemma SortedSnoc(s: seq<int>, x: int)
    requires Sorted(s) && forall i :: 0 <= i < |s| ==> s[i] <= x
    ensures Sorted(s + [x])
  {
  }

  /** The list sorted by successive insertions. */
  function SortedOf(values: seq<int>): (r: seq<int>)
    ensures |r| == |values|
  {
    if values == [] then []
    else InsertAfter(SortedOf(values[..|values| - 1]), values[|values| - 1])
  }

  /** `SortedOf` is the sorted permutation of its argument. */
  lemma {:induction false} SortedOfIsSort(values: seq<int>)
    ensures IsSortOf(SortedOf(values), values)
  {
    if values != [] {
      var n := |values| - 1;
      SortedOfIsSort(values[..n]);
      InsertAfterSorted(SortedOf(values[..n]), values[n]);
      InsertAfterMembers(SortedOf(values[..n]), values[n]);
      assert values == values[..n] + [values[n]];
    }
  }

  /** Any sorted permutation of `values` is `SortedOf(values)`. */
  lemma SortedOfIsTheSort(out: seq<int>, values: seq<int>)
    requires IsSortOf(out, values)
    ensures out == SortedOf(values)
  {
    SortedOfIsSort(values);
    SortIsUnique(out, SortedOf(values));
  }

  // ----- merging, as a function of lists -----

  /** Two lists merged from the front, the left one first on ties. */
  function MergeOf(left: seq<int>, right: seq<int>): (r: seq<int>)
    ensures |r| == |left| + |right|
  {
    if left == [] then right
    else if right == [] then left
    else if left[0] <= right[0] then [left[0]] + MergeOf(left[1..], right)
    else [right[0]] + MergeOf(left, right[1..])
  }

  function MergeComparisons(left: seq<int>, right: seq<int>): nat {
    if left == [] || right == [] then 0
    else if left[0] <= right[0] then 1 + MergeComparisons(left[1..], right)
    else 1 + MergeComparisons(left, right[1..])
  }

  lemma {:induction false} MergeComparisonsBound(left: seq<int>, right: seq<int>)
    requires left != [] || right != []
    ensures MergeComparisons(left, right) <= |left| + |right| - 1
  {
    if left != [] && right != [] {
      if left[0] <= right[0] {
        MergeComparisonsBound(left[1..], right);
      } else {
        MergeComparisonsBound(left, right[1..]);
      }
    }
  }

  lemma {:induction false} MergeOfMembers(left: seq<int>, right: seq<int>)
    ensures multiset(MergeOf(left, right)) == multiset(left) + multiset(right)
  {
    if left != [] && right != [] {
      assert left == [left[0]] + left[1..] && right == [right[0]] + right[1..];
      if left[0] <= right[0] {
        MergeOfMembers(left[1..], right);
      } else {
        MergeOfMembers(left, right[1..]);
      }
    }
  }

  lemma PrependSmallest(x: int, rest: seq<int>, a: seq<int>, b: seq<int>)
    requires Sorted(rest) && multiset(rest) == multiset(a) + multiset(b)
    requires forall i :: 0 <= i < |a| ==> x <= a[i]
    requires forall i :: 0 <= i < |b| ==> x <= b[i]
    ensures Sorted([x] + rest)
  {
    forall i | 0 <= i < |rest| ensures x <= rest[i] {
      assert rest[i] in multiset(rest);
      assert rest[i] in multiset(a) || rest[i] in multiset(b);
    }
  }

  lemma {:induction false} MergeOfSorted(left: seq<int>, right: seq<int>)
    requires Sorted(left) && Sorted(right)
    ensures Sorted(MergeOf(left, right))
  {
    if left != [] && right != [] {
      if left[0] <= right[0] {
        MergeOfSorted(left[1..], right);
        MergeOfMembers(left[1..], right);
        PrependSmallest(left[0], MergeOf(left[1..], right), left[1..], right);
      } else {
        MergeOfSorted(left, right[1..]);
        MergeOfMembers(left, right[1..]);
        PrependSmallest(right[0], MergeOf(left, right[1..]), left, right[1..]);
      }
    }
  }

  /** Merging the sorted halves sorts the whole. */
  lemma MergeOfHalves(front: seq<int>, back: seq<int>)
    ensures MergeOf(SortedOf(front), SortedOf(back)) == SortedOf(front + back)
  {
    SortedOfIsSort(front);
    SortedOfIsSort(back);
    MergeOfSorted(SortedOf(front), SortedOf(back));
    MergeOfMembers(SortedOf(front), SortedOf(back));
    SortedOfIsTheSort(MergeOf(SortedOf(front), SortedOf(back)), front + back);
  }

  // ----- counting -----

  function CountGreater(s: seq<int>, x: int): (c: nat)
    ensures c <= |s|
  {
    if s == [] then 0
    else CountGreater(s[..|s| - 1], x) + (if s[|s| - 1] > x then 1 else 0)
  }

  lemma {:induction false} CountGreaterWithout(s: seq<int>, k: nat, x: int)
    requires k < |s|
    ensures CountGreater(s, x) == CountGreater(s[..k] + s[k + 1..], x) + (if s[k] > x then 1 else 0)
  {
    var n := |s| - 1;
    if k == n {
      assert s[..k] + s[k + 1..] == s[..n];
    } else {
      CountGreaterWithout(s[..n], k, x);
      var t := s[..k] + s[k + 1..];
      assert t[..|t| - 1] == s[..n][..k] + s[..n][k + 1..];
      assert t[|t| - 1] == s[n];
    }
  }

  lemma MultisetWithout(s: seq<int>, k: nat)
    requires k < |s|
    ensures multiset(s[..k] + s[k + 1..]) == multiset(s) - multiset{s[k]}
  {
    assert s == s[..k] + [s[k]] + s[k + 1..];
  }

  lemma {:induction false} CountGreaterOfPermutation(a: seq<int>, b: seq<int>, x: int)
    requires multiset(a) == multiset(b)
    ensures CountGreater(a, x) == CountGreater(b, x)
    decreases |a|
  {
    assert |multiset(a)| == |a| && |multiset(b)| == |b|;
    if a != [] {
      var n := |a| - 1;
      assert a[n] in multiset(b);
      var k :| 0 <= k < |b| && b[k] == a[n];
      var fewer, rest := a[..n] + a[n + 1..], b[..k] + b[k + 1..];
      MultisetWithout(a, n);
      MultisetWithout(b, k);
      CountGreaterOfPermutation(fewer, rest, x);
      CountGreaterWithout(a, n, x);
      CountGreaterWithout(b, k, x);
    }
  }

  lemma {:induction false} CountGreaterOfSmaller(s: seq<int>, x: int)
    requires forall i :: 0 <= i < |s| ==> s[i] <= x
    ensures CountGreater(s, x) == 0
  {
    if s != [] {
      CountGreaterOfSmaller(s[..|s| - 1], x);
    }
  }

  /** In a sorted list the elements above `x` are exactly the ones an insertion shifts. */
  lemma {:induction false} ShiftsCountGreater(s: seq<int>, x: int)
    requires Sorted(s)
    ensures Shifts(s, x) == CountGreater(s, x)
  {
    if s != [] {
      if s[|s| - 1] <= x {
        CountGreaterOfSmaller(s, x);
      } else {
        ShiftsCountGreater(s[..|s| - 1], x);
      }
    }
  }

  lemma {:induction false} CountGreaterIsAll(s: seq<int>, x: int)
    ensures CountGreater(s, x) == |s| <==> forall i :: 0 <= i < |s| ==> s[i] > x
  {
    if s != [] {
      var n := |s| - 1;
      CountGreaterIsAll(s[..n], x);
      assert s == s[..n] + [s[n]];
    }
  }

  function Inversions(s: seq<int>): nat {
    if s == [] then 0
    else Inversions(s[..|s| - 1]) + CountGreater(s[..|s| - 1], s[|s| - 1])
  }

  /** The out-of-order pairs, the textbook meaning of an inversion. */
  ghost function InversionPairs(s: seq<int>): set<(int, int)> {
    set i, j | 0 <= i < j < |s| && s[i] > s[j] :: (i, j)
  }

  ghost function GreaterBefore(s: seq<int>, n: nat, x: int, tag: int): set<(int, int)>
    requires n <= |s|
  {
    set i | 0 <= i < n && s[i] > x :: (i, tag)
  }

  lemma {:induction false} GreaterBeforeSize(s: seq<int>, n: nat, x: int, tag: int)
    requires n <= |s|
    ensures |GreaterBefore(s, n, x, tag)| == CountGreater(s[..n], x)
  {
    if n == 0 {
      assert GreaterBefore(s, n, x, tag) == {};
    } else {
      GreaterBeforeSize(s, n - 1, x, tag);
      assert s[..n][..n - 1] == s[..n - 1];
      var smaller := GreaterBefore(s, n - 1, x, tag);
      if s[n - 1] > x {
        assert GreaterBefore(s, n, x, tag) == smaller + {(n - 1, tag)};
      } else {
        assert GreaterBefore(s, n, x, tag) == smaller;
      }
    }
  }

  /** `Inversions` counts the out-of-order pairs. */
  lemma {:induction false} InversionsCountPairs(s: seq<int>)
    ensures |InversionPairs(s)| == Inversions(s)
  {
    if s == [] {
      assert InversionPairs(s) == {};
    } else {
      var n := |s| - 1;
      InversionsCountPairs(s[..n]);
      GreaterBeforeSize(s, n, s[n], n);
      var old', new' := InversionPairs(s[..n]), GreaterBefore(s, n, s[n], n);
      assert InversionPairs(s) == old' + new';
      assert old' !! new';
    }
  }

  ghost predicate IsNewMinimum(s: seq<int>, i: nat)
    requires i < |s|
  {
    i > 0 && forall j :: 0 <= j < i ==> s[i] < s[j]
  }

  /** The positions after the first that lie strictly below everything before them. */
  ghost function NewMinima(s: seq<int>): set<nat> {
    set i: nat | i < |s| && IsNewMinimum(s, i)
  }

  lemma NewMinimaOfPrefix(s: seq<int>, n: nat)
    requires n < |s|
    ensures |NewMinima(s[..n + 1])| == |NewMinima(s[..n])| + (if IsNewMinimum(s, n) then 1 else 0)
  {
    var a, b := s[..n], s[..n + 1];
    forall i: nat | i < n
      ensures IsNewMinimum(a, i) == IsNewMinimum(b, i)
    {
    }
    assert IsNewMinimum(b, n) == IsNewMinimum(s, n);
    if IsNewMinimum(s, n) {
      assert NewMinima(b) == NewMinima(a) + {n};
    } else {
      assert NewMinima(b) == NewMinima(a);
    }
  }

  // ----- non-decreasing windows -----

  ghost predicate NonDecreasingWindow(s: seq<int>, start: int, len: int) {
    0 <= start && 0 <= len && start + len <= |s|
    && forall i :: start < i < start + len ==> s[i - 1] <= s[i]
  }

  ghost predicate IsLongestRun(s: seq<int>, best: int) {
    (exists start :: NonDecreasingWindow(s, start, best))
    && forall start, len :: NonDecreasingWindow(s, start, len) ==> len <= best
  }

  lemma {:induction false} WindowIsSorted(s: seq<int>, start: int, len: int, i: int, j: int)
    requires NonDecreasingWindow(s, start, len)
    requires start <= i <= j < start + len
    ensures s[i] <= s[j]
    decreases j - i
  {
    if i < j {
      WindowIsSorted(s, start, len, i, j - 1);
    }
  }

  function Triangle(n: nat): nat {
    n * (n - 1) / 2
  }

  lemma TriangleStep(n: nat)
    ensures Triangle(n + 1) == Triangle(n) + n
  {
    assert (n + 1) * n == n * (n - 1) + 2 * n;
  }

  lemma {:induction false} CountGreaterSkipsWindow(s: seq<int>, start: nat, n: nat, x: int)
    requires start <= n <= |s|
    requires forall i :: start <= i < n ==> s[i] <= x
    ensures CountGreater(s[..n], x) <= start
  {
    if n > start {
      assert s[..n][..n - 1] == s[..n - 1];
      CountGreaterSkipsWindow(s, start, n - 1, x);
    }
  }

  function WindowPart(start: nat, len: nat, n: nat): nat {
    if n <= start then 0 else if n <= start + len then n - start else len
  }

  lemma {:induction false} WindowPrefixBound(s: seq<int>, start: nat, len: nat, n: nat)
    requires NonDecreasingWindow(s, start, len) && n <= |s|
    ensures Inversions(s[..n]) + Triangle(WindowPart(start, len, n)) <= Triangle(n)
  {
    if n > 0 {
      WindowPrefixBound(s, start, len, n - 1);
      TriangleStep(n - 1);
      assert s[..n][..n - 1] == s[..n - 1];
      if start < n <= start + len {
        TriangleStep(n - 1 - start);
        forall i | start <= i < n - 1 ensures s[i] <= s[n - 1] {
          WindowIsSorted(s, start, len, i, n - 1);
        }
        CountGreaterSkipsWindow(s, start, n - 1, s[n - 1]);
      }
    }
  }

  /** A list with a non-decreasing window of length `len` has no inversion inside that window. */
  lemma RunBoundsInversions(s: seq<int>, len: nat)
    requires IsLongestRun(s, len)
    ensures Inversions(s) <= Triangle(|s|) - Triangle(len)
  {
    var start :| NonDecreasingWindow(s, start, len);
    WindowPrefixBound(s, start, len, |s|);
    assert s[..|s|] == s;
  }

  // ----- cost of merging halves -----

  function Pow2(k: nat): (p: nat)
    ensures p >= 1
  {
    if k == 0 then 1 else 2 * Pow2(k - 1)
  }

  function CeilLog2(n: nat): nat
    requires n >= 1
  {
    if n == 1 then 0 else 1 + CeilLog2((n + 1) / 2)
  }

  /** `CeilLog2(n)` is the least `k` with `n <= 2^k`. */
  lemma {:induction false} CeilLog2IsLeast(n: nat)
    requires n >= 1
    ensures n <= Pow2(CeilLog2(n))
    ensures forall k: nat :: n <= Pow2(k) ==> CeilLog2(n) <= k
  {
    if n > 1 {
      CeilLog2IsLeast((n + 1) / 2);
      forall k: nat | n <= Pow2(k) ensures CeilLog2(n) <= k {
        assert k > 0;
        assert (n + 1) / 2 <= Pow2(k - 1);
      }
    }
  }

  function MergeMoves(n: nat): nat {
    if n <= 1 then 0 else n + MergeMoves(n / 2) + MergeMoves(n - n / 2)
  }

  function MergeWorstComparisons(n: nat): nat {
    if n <= 1 then 0 else n - 1 + MergeWorstComparisons(n / 2) + MergeWorstComparisons(n - n / 2)
  }

  /** Either ceiling-log of the floor half is one less than that of the whole, or that half is an exact power. */
  lemma FloorHalfLog(n: nat)
    requires n >= 2
    ensures var k, f := CeilLog2(n), n / 2;
            k >= 1 && (CeilLog2(f) == k - 1 || (k >= 2 && CeilLog2(f) == k - 2 && f == Pow2(k - 2)))
  {
    var k, f, h := CeilLog2(n), n / 2, n - n / 2;
    assert h == (n + 1) / 2;
    assert CeilLog2(h) == k - 1;
    hide CeilLog2;
    NextLog(f, h, k - 1);
  }

  /** One step up, the logarithm stays or grows by one, the latter only from an exact power. */
  lemma NextLog(f: nat, h: nat, k: nat)
    requires 1 <= f <= h <= f + 1 && CeilLog2(h) == k
    ensures CeilLog2(f) == k || (k >= 1 && CeilLog2(f) == k - 1 && f == Pow2(k - 1))
  {
    hide CeilLog2;
    var j := CeilLog2(f);
    PowerCovers(f);
    PowerCovers(h);
    LeastPower(f, k);
    if j != k {
      if h <= Pow2(j) {
        LeastPower(h, j);
        assert false;
      }
      assert f == Pow2(j) && Pow2(j + 1) == 2 * Pow2(j);
      LeastPower(h, j + 1);
    }
  }

  lemma PowerCovers(n: nat)
    requires n >= 1
    ensures n <= Pow2(CeilLog2(n))
  {
    CeilLog2IsLeast(n);
  }

  lemma LeastPower(n: nat, k: nat)
    requires n >= 1 && n <= Pow2(k)
    ensures CeilLog2(n) <= k
  {
    CeilLog2IsLeast(n);
  }

  /** The floor half costs the same measured one level up, even when it is an exact power. */
  lemma FloorHalfCost(n: nat, f: nat, k: nat)
    requires n >= 2 && f == n / 2 && k + 1 == CeilLog2(n)
    ensures f * CeilLog2(f) - Pow2(CeilLog2(f)) == f * k - Pow2(k)
  {
    FloorHalfLog(n);
    LevelCost(f, CeilLog2(f), k);
  }

  lemma LevelCost(f: nat, j: nat, k: nat)
    requires j == k || (j + 1 == k && f == Pow2(j))
    ensures f * j - Pow2(j) == f * k - Pow2(k)
  {
    if j != k {
      assert Pow2(k) == 2 * Pow2(j);
      RaiseLevel(f, j);
    }
  }

  lemma RaiseLevel(f: int, k: int)
    ensures f * (k + 1) == f * k + f
  {
  }

  lemma SplitProduct(n: int, f: int, h: int, k: int)
    requires n == f + h
    ensures n * k == f * (k - 1) + h * (k - 1) + n
  {
  }

  /** The worst-case comparison recurrence of merge sort in closed form. */
  lemma {:induction false} MergeWorstClosedForm(n: nat)
    requires n >= 1
    ensures MergeWorstComparisons(n) == n * CeilLog2(n) - Pow2(CeilLog2(n)) + 1
    decreases n
  {
    if n > 1 {
      hide CeilLog2, Pow2, MergeWorstComparisons;
      HalvesOf(n);
      var f, h, k := n / 2, n - n / 2, CeilLog2(n);
      MergeWorstClosedForm(f);
      MergeWorstClosedForm(h);
      FloorHalfCost(n, f, k - 1);
      SplitProduct(n, f, h, k);
      LevelSum(n, f * (k - 1), h * (k - 1), n * k, Pow2(k - 1), Pow2(k));
    }
  }

  lemma HalvesOf(n: nat)
    requires n > 1
    ensures var f, h, k := n / 2, n - n / 2, CeilLog2(n);
            && 1 <= f < n && 1 <= h < n && k >= 1 && CeilLog2(h) == k - 1 && Pow2(k) == 2 * Pow2(k - 1)
            && MergeWorstComparisons(n) == n - 1 + MergeWorstComparisons(f) + MergeWorstComparisons(h)
  {
    assert n - n / 2 == (n + 1) / 2;
  }

  lemma LevelSum(n: int, a: int, b: int, whole: int, p: int, twice: int)
    requires whole == a + b + n && twice == 2 * p
    ensures n - 1 + (a - p + 1) + (b - p + 1) == whole - twice + 1
  {
  }

  /** Every merge level moves each element once: the exact move count in closed form. */
  lemma {:induction false} MergeMovesClosedForm(n: nat)
    requires n >= 1
    ensures MergeMoves(n) == n * CeilLog2(n) - Pow2(CeilLog2(n)) + n
    ensures MergeMoves(n) <= n * CeilLog2(n)
  {
    MergeMovesFromComparisons(n);
    MergeWorstClosedForm(n);
    CeilLog2IsLeast(n);
  }

  lemma {:induction false} MergeMovesFromComparisons(n: nat)
    requires n >= 1
    ensures MergeMoves(n) == MergeWorstComparisons(n) + n - 1
    decreases n
  {
    if n > 1 {
      MergeMovesFromComparisons(n / 2);
      MergeMovesFromComparisons(n - n / 2);
    }
  }
}
