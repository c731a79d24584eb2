/** The interpolated percentile of the metrics, over the reals. */
module Percentiles {
  import opened Common

  // ---------------------------------------------------------------- sorting

  predicate Ascending(s: seq<int>) {
    forall i, j :: 0 <= i < j < |s| ==> s[i] <= s[j]
  }

  function Insert(x: int, s: seq<int>): (r: seq<int>)
    requires Ascending(s)
    ensures Ascending(r) && |r| == |s| + 1 && (forall y :: y in r <==> y == x || y in s)
  {
    if s == [] || x <= s[0] then [x] + s
    else
      var rest := Insert(x, s[1..]);
      assert forall y | y in rest :: y == x || y in s[1..];
      assert forall i :: 0 <= i < |rest| ==> rest[i] in rest;
      [s[0]] + rest
  }

  function SortAscending(values: seq<int>): (r: seq<int>)
    ensures Ascending(r) && |r| == |values| && (forall y :: y in r <==> y in values)
  {
    if values == [] then [] else Insert(values[0], SortAscending(values[1..]))
  }

  predicate Permutation(a: seq<int>, b: seq<int>) {
    multiset(a) == multiset(b)
  }

  lemma {:induction false} InsertAdds(x: int, s: seq<int>)
    requires Ascending(s)
    ensures multiset(Insert(x, s)) == multiset(s) + multiset{x}
  {
    if s != [] && x > s[0] {
      InsertAdds(x, s[1..]);
      assert s == [s[0]] + s[1..];
    }
  }

  lemma {:induction false} SortingPermutes(values: seq<int>)
    ensures Permutation(SortAscending(values), values)
  {
    if values == [] {
    } else {
      SortingPermutes(values[1..]);
      InsertAdds(values[0], SortAscending(values[1..]));
      assert values == [values[0]] + values[1..];
    }
  }

  lemma SameElements(a: seq<int>, b: seq<int>, x: int)
    requires Permutation(a, b)
    ensures x in a <==> x in b
  {
    assert x in multiset(a) <==> x in multiset(b);
  }

  lemma DropFirst(a: seq<int>, b: seq<int>)
    requires Permutation(a, b) && a != [] && b != [] && a[0] == b[0]
    ensures Permutation(a[1..], b[1..])
  {
    assert a == [a[0]] + a[1..] && b == [b[0]] + b[1..];
    assert multiset(a[1..]) == multiset(a) - multiset{a[0]};
    assert multiset(b[1..]) == multiset(b) - multiset{b[0]};
  }

  lemma {:induction false} AscendingIsUnique(a: seq<int>, b: seq<int>)
    requires Ascending(a) && Ascending(b) && Permutation(a, b)
    ensures a == b
  {
    hide Permutation;
    if a != [] {
      SameElements(a, b, a[0]);
      SameElements(a, b, b[0]);
      DropFirst(a, b);
      AscendingIsUnique(a[1..], b[1..]);
    } else if b != [] {
      SameElements(a, b, b[0]);
    }
  }

  // ---------------------------------------------------------------- the percentile

  /** The value at a fractional position of a sorted list, interpolated between its neighbours. */
  function ValueAt(s: seq<int>, position: real): real
    requires s != [] && 0.0 <= position <= (|s| - 1) as real
  {
    var lower := position.Floor;
    var upper := if lower + 1 <= |s| - 1 then lower + 1 else |s| - 1;
    s[lower] as real + (s[upper] - s[lower]) as real * (position - lower as real)
  }

  lemma Scales(n: real, p: real)
    requires 0.0 <= n && 0.0 <= p <= 1.0
    ensures 0.0 <= n * p <= n
  {
    assert 0.0 <= n * (1.0 - p);
  }

  /** The position of a percentile in a sorted list of n values. */
  function Position(n: nat, p: real): (position: real)
    requires n >= 1 && 0.0 <= p <= 1.0
    ensures 0.0 <= position <= (n - 1) as real
  {
    Scales((n - 1) as real, p);
    (n - 1) as real * p
  }

  function Percentile(values: seq<int>, p: real): Option<real>
    requires 0.0 <= p <= 1.0
  {
    if values == [] then None
    else
      var s := SortAscending(values);
      Some(ValueAt(s, Position(|s|, p)))
  }

  // ---------------------------------------------------------------- its laws

  lemma Interpolates(low: int, high: int, part: real)
    requires low <= high && 0.0 <= part <= 1.0
    ensures low as real <= low as real + (high - low) as real * part <= high as real
  {
    var step := (high - low) as real;
    assert 0.0 <= step * part;
    assert 0.0 <= step * (1.0 - part);
  }

  lemma BetweenNeighbours(s: seq<int>, position: real)
    requires s != [] && Ascending(s) && 0.0 <= position <= (|s| - 1) as real
    ensures var lower := position.Floor;
      && s[lower] as real <= ValueAt(s, position)
      && (lower + 1 < |s| ==> ValueAt(s, position) <= s[lower + 1] as real)
      && (lower + 1 >= |s| ==> ValueAt(s, position) == s[lower] as real)
      && (position == lower as real ==> ValueAt(s, position) == s[lower] as real)
  {
    var lower := position.Floor;
    if lower + 1 < |s| {
      Interpolates(s[lower], s[lower + 1], position - lower as real);
    }
  }

  /** The percentile lies between the least and the greatest value. */
  lemma BetweenMinimumAndMaximum(values: seq<int>, p: real)
    requires values != [] && 0.0 <= p <= 1.0
    ensures var s := SortAscending(values);
      && (forall v | v in values :: s[0] <= v <= s[|s| - 1])
      && s[0] in values && s[|s| - 1] in values
      && s[0] as real <= Percentile(values, p).value <= s[|s| - 1] as real
  {
    hide ValueAt, SortAscending, Position;
    var s := SortAscending(values);
    BetweenNeighbours(s, Position(|s|, p));
    assert s[0] in s && s[|s| - 1] in s;
  }

  lemma Rises(s: seq<int>, a: real, b: real)
    requires s != [] && Ascending(s) && 0.0 <= a <= b <= (|s| - 1) as real
    ensures ValueAt(s, a) <= ValueAt(s, b)
  {
    BetweenNeighbours(s, a);
    BetweenNeighbours(s, b);
    if a.Floor == b.Floor {
      var lower := a.Floor;
      if lower + 1 < |s| {
        assert 0.0 <= (s[lower + 1] - s[lower]) as real * (b - a);
      }
    } else {
      assert s[a.Floor + 1] <= s[b.Floor];
    }
  }

  /** A higher percentile is never a smaller value, also across the positions of the list. */
  lemma NondecreasingInThePercentile(values: seq<int>, p: real, q: real)
    requires values != [] && 0.0 <= p <= q <= 1.0
    ensures Percentile(values, p).value <= Percentile(values, q).value
  {
    hide ValueAt, SortAscending, Position;
    LaterPosition(|values|, p, q);
    Rises(SortAscending(values), Position(|values|, p), Position(|values|, q));
  }

  lemma LaterPosition(n: nat, p: real, q: real)
    requires n >= 1 && 0.0 <= p <= q <= 1.0
    ensures Position(n, p) <= Position(n, q)
  {
    Scales((n - 1) as real, q - p);
  }

  /** At k / (n - 1) the percentile is the k-th order statistic. */
  lemma OrderStatistic(values: seq<int>, k: nat)
    requires k < |values| && |values| >= 2
    ensures 0.0 <= Fraction(k, |values|) <= 1.0
    ensures Percentile(values, Fraction(k, |values|)) == Some(SortAscending(values)[k] as real)
  {
    hide ValueAt, SortAscending, Position, Fraction;
    PositionOfFraction(k, |values|);
    BetweenNeighbours(SortAscending(values), k as real);
  }

  /** k / (n - 1) */
  function Fraction(k: nat, n: nat): real
    requires n >= 2
  {
    k as real / (n - 1) as real
  }

  lemma PositionOfFraction(k: nat, n: nat)
    requires k < n && n >= 2
    ensures 0.0 <= Fraction(k, n) <= 1.0 && Position(n, Fraction(k, n)) == k as real
  {
    var m := (n - 1) as real;
    var p := Fraction(k, n);
    assert m * p == k as real;
    assert m >= k as real;
  }

  lemma DivideAndMultiply(n: real, x: real)
    requires n > 0.0
    ensures n * (x / n) == x && (n * x) / n == x
  {
  }

  lemma PositionIs(n: nat, p: real, position: real)
    requires n >= 2 && 0.0 <= p <= 1.0 && p == position / (n - 1) as real
    ensures Position(n, p) == position
  {
    DivideAndMultiply((n - 1) as real, position);
  }

  lemma HalfPosition(n: nat)
    requires n >= 1
    ensures Position(n, 0.5) == (n - 1) as real / 2.0
  {
  }

  /** The weighted mean of two values. */
  function Blend(low: int, high: int, f: real): real {
    (1.0 - f) * low as real + f * high as real
  }

  lemma Weighs(low: int, high: int, f: real)
    ensures low as real + (high - low) as real * f == Blend(low, high, f)
  {
  }

  lemma ValueBetween(s: seq<int>, k: nat, f: real)
    requires k + 1 < |s| && 0.0 <= f <= 1.0
    ensures ValueAt(s, k as real + f) == Blend(s[k], s[k + 1], f)
  {
    var position := k as real + f;
    Weighs(s[k], s[k + 1], f);
    if f == 1.0 {
      assert position.Floor == k + 1;
      assert ValueAt(s, position) == s[k + 1] as real;
    } else {
      assert position.Floor == k;
    }
  }

  /**
   Between two order statistics the percentile interpolates: at (k + f) / (n - 1) it is (1 - f) times the k-th
   entry of the sorted values plus f times the next.
   */
  lemma Interpolation(values: seq<int>, p: real, k: nat, f: real)
    requires k + 1 < |values| && 0.0 <= f <= 1.0 && 0.0 <= p <= 1.0
    requires p == (k as real + f) / (|values| - 1) as real
    ensures
      var s := SortAscending(values);
      Percentile(values, p) == Some(Blend(s[k], s[k + 1], f))
  {
    hide ValueAt, SortAscending, Position, Blend;
    PositionIs(|values|, p, k as real + f);
    ValueBetween(SortAscending(values), k, f);
  }

  /** Every percentile of at least two values is of that form. */
  lemma EveryPercentileInterpolates(values: seq<int>, p: real) returns (k: nat, f: real)
    requires |values| >= 2 && 0.0 <= p <= 1.0
    ensures k + 1 < |values| && 0.0 <= f <= 1.0 && p == (k as real + f) / (|values| - 1) as real
  {
    hide Position;
    var position := Position(|values|, p);
    k := if position == (|values| - 1) as real then |values| - 2 else position.Floor;
    f := position - k as real;
    PositionScales(|values|, p);
  }

  lemma PositionScales(n: nat, p: real)
    requires n >= 2 && 0.0 <= p <= 1.0
    ensures p == Position(n, p) / (n - 1) as real
  {
    DivideAndMultiply((n - 1) as real, p);
  }

  /** The median: the mean of the two middle values of an even number, the middle one of an odd number. */
  lemma Median(values: seq<int>, m: nat)
    ensures |values| == 2 * m && m >= 1 ==>
      var s := SortAscending(values);
      Percentile(values, 0.5) == Some((s[m - 1] as real + s[m] as real) / 2.0)
    ensures |values| == 2 * m + 1 ==> Percentile(values, 0.5) == Some(SortAscending(values)[m] as real)
  {
    hide ValueAt, SortAscending, Position;
    var s := SortAscending(values);
    if |values| == 2 * m && m >= 1 {
      HalfPosition(2 * m);
      assert (2 * m - 1) as real / 2.0 == (m - 1) as real + 0.5;
      ValueBetween(s, m - 1, 0.5);
    } else if |values| == 2 * m + 1 {
      HalfPosition(2 * m + 1);
      assert (2 * m) as real / 2.0 == m as real;
      BetweenNeighbours(s, m as real);
    }
  }

  /** The k-th order statistic: at most k values are smaller and more than k are not greater. */
  function Below(values: seq<int>, x: int): nat {
    if values == [] then 0 else Below(values[1..], x) + (if values[0] < x then 1 else 0)
  }

  lemma {:induction false} BelowInSorted(s: seq<int>, x: int, k: nat)
    requires Ascending(s) && k <= |s|
    requires (forall i :: 0 <= i < k ==> s[i] < x) && (forall i :: k <= i < |s| ==> s[i] >= x)
    ensures Below(s, x) == k
  {
    if s == [] {
    } else {
      BelowInSorted(s[1..], x, if k > 0 then k - 1 else 0);
    }
  }

  lemma {:induction false} BelowInsert(v: int, s: seq<int>, x: int)
    requires Ascending(s)
    ensures Below(Insert(v, s), x) == Below(s, x) + (if v < x then 1 else 0)
  {
    if s == [] || v <= s[0] {
      assert ([v] + s)[1..] == s;
    } else {
      BelowInsert(v, s[1..], x);
      assert ([s[0]] + Insert(v, s[1..]))[1..] == Insert(v, s[1..]);
    }
  }

  lemma {:induction false} BelowSorted(values: seq<int>, x: int)
    ensures Below(SortAscending(values), x) == Below(values, x)
  {
    if values == [] {
    } else {
      BelowSorted(values[1..], x);
      BelowInsert(values[0], SortAscending(values[1..]), x);
    }
  }

  lemma {:induction false} FewBelow(s: seq<int>, k: nat)
    requires Ascending(s) && k < |s|
    ensures Below(s, s[k]) <= k < Below(s, s[k] + 1)
  {
    var i := First(s, s[k], k);
    BelowInSorted(s, s[k], i);
    var j := First(s, s[k] + 1, |s|);
    BelowInSorted(s, s[k] + 1, j);
  }

  /** The number of leading values below x, given that none from position n on is. */
  lemma {:induction false} First(s: seq<int>, x: int, n: nat) returns (k: nat)
    requires Ascending(s) && n <= |s| && forall i :: n <= i < |s| ==> s[i] >= x
    ensures k <= n && (forall i :: 0 <= i < k ==> s[i] < x) && (forall i :: k <= i < |s| ==> s[i] >= x)
  {
    if n == 0 || s[n - 1] < x {
      k := n;
    } else {
      k := First(s, x, n - 1);
    }
  }

  /** What the sorted list's k-th entry means for the unsorted values. */
  lemma KthValue(values: seq<int>, k: nat)
    requires k < |values|
    ensures var x := SortAscending(values)[k];
      && x in values && Below(values, x) <= k < Below(values, x + 1)
  {
    hide SortAscending, Below;
    var s := SortAscending(values);
    FewBelow(s, k);
    BelowSorted(values, s[k]);
    BelowSorted(values, s[k] + 1);
    assert s[k] in s;
  }

  /** The order of the input does not matter. */
  lemma OrderDoesNotMatter(a: seq<int>, b: seq<int>, p: real)
    requires Permutation(a, b) && 0.0 <= p <= 1.0
    ensures Percentile(a, p) == Percentile(b, p)
  {
    hide SortAscending, ValueAt, Position, Permutation;
    SortedAlike(a, b);
    NoneSorted(a);
    NoneSorted(b);
  }

  lemma NoneSorted(values: seq<int>)
    ensures SortAscending(values) == [] <==> values == []
  {
  }

  lemma SortedAlike(a: seq<int>, b: seq<int>)
    requires Permutation(a, b)
    ensures SortAscending(a) == SortAscending(b)
  {
    SortingPermutes(a);
    SortingPermutes(b);
    AscendingIsUnique(SortAscending(a), SortAscending(b));
  }
}
