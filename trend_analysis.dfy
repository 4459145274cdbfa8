/**
 * The "top trends" cards of project/src/components/Dashboard/TrendAnalysis.tsx:
 * `trends.sort((a, b) => b.growth - a.growth).slice(0, 3)`. The sort reorders
 * the caller's array in place; `Array.prototype.sort` is stable (section
 * 23.1.3.30 of ECMA-262, ECMAScript 2023), so the order it produces is fully
 * determined and is given here by a stable insertion sort on sequences.
 */
module TrendAnalysis {
  import opened Types
  import opened Collections

  /** Non-increasing growth, the order the comparator `b.growth - a.growth` asks for. */
  ghost predicate SortedByGrowth(s: seq<MarketTrend>)
  {
    forall i, j :: 0 <= i < j < |s| ==> s[j].growth <= s[i].growth
  }

  /**
   * Inserts `x` into `s` just after the last element whose growth is at least
   * `x.growth`: `x` passes only strictly smaller elements, never equal ones.
   */
  function Insert(s: seq<MarketTrend>, x: MarketTrend): (r: seq<MarketTrend>)
    ensures |r| == |s| + 1
  {
    if s == [] || s[|s| - 1].growth >= x.growth then s + [x]
    else Insert(s[..|s| - 1], x) + [s[|s| - 1]]
  }

  /**
   * How many trailing elements of `s` the inserted `x` moves past: exactly
   * the run at the end that grows strictly slower than `x`.
   */
  function Passed(s: seq<MarketTrend>, x: MarketTrend): (n: nat)
    ensures n <= |s|
    ensures forall i :: |s| - n <= i < |s| ==> s[i].growth < x.growth
    ensures n < |s| ==> s[|s| - n - 1].growth >= x.growth
  {
    if s == [] || s[|s| - 1].growth >= x.growth then 0 else 1 + Passed(s[..|s| - 1], x)
  }

  /**
   * `x` lands right after the last element of `s` that grows at least as
   * fast, and the elements on either side keep their order.
   */
  lemma {:induction false} InsertPlacement(s: seq<MarketTrend>, x: MarketTrend)
    ensures var k := |s| - Passed(s, x); Insert(s, x) == s[..k] + [x] + s[k..]
  {
    if !(s == [] || s[|s| - 1].growth >= x.growth) {
      var init, last := s[..|s| - 1], s[|s| - 1];
      InsertPlacement(init, x);
      var k := |init| - Passed(init, x);
      assert |s| - Passed(s, x) == k;
      assert init[..k] == s[..k];
      assert init[k..] + [last] == s[k..];
    }
  }

  lemma {:induction false} InsertPermutation(s: seq<MarketTrend>, x: MarketTrend)
    ensures multiset(Insert(s, x)) == multiset(s) + multiset{x}
  {
    if !(s == [] || s[|s| - 1].growth >= x.growth) {
      InsertPermutation(s[..|s| - 1], x);
      assert s == s[..|s| - 1] + [s[|s| - 1]];
    }
  }

  /** The order `trends.sort((a, b) => b.growth - a.growth)` leaves the array in. */
  function SortByGrowth(s: seq<MarketTrend>): (r: seq<MarketTrend>)
    ensures |r| == |s|
  {
    if s == [] then [] else Insert(SortByGrowth(s[..|s| - 1]), s[|s| - 1])
  }

  /** The sort only rearranges: the result is a permutation of the input. */
  lemma {:induction false} SortByGrowthPermutation(s: seq<MarketTrend>)
    ensures multiset(SortByGrowth(s)) == multiset(s)
  {
    if s != [] {
      SortByGrowthPermutation(s[..|s| - 1]);
      InsertPermutation(SortByGrowth(s[..|s| - 1]), s[|s| - 1]);
      assert s == s[..|s| - 1] + [s[|s| - 1]];
    }
  }

  lemma {:induction false} InsertSorted(s: seq<MarketTrend>, x: MarketTrend)
    requires SortedByGrowth(s)
    ensures SortedByGrowth(Insert(s, x))
    ensures Insert(s, x) != [] && forall i :: 0 <= i < |Insert(s, x)| ==> Insert(s, x)[i] == x || Insert(s, x)[i] in s
  {
    if !(s == [] || s[|s| - 1].growth >= x.growth) {
      var init, last := s[..|s| - 1], s[|s| - 1];
      InsertSorted(init, x);
      InsertPermutation(init, x);
      var r := Insert(init, x);
      forall i | 0 <= i < |r| ensures last.growth <= r[i].growth {
        if r[i] != x {
          assert r[i] in multiset(r);
          assert r[i] in init;
          var k :| 0 <= k < |init| && init[k] == r[i];
          assert s[k] == r[i];
        }
      }
    }
  }

  /** The sort's result is ordered by non-increasing growth. */
  lemma {:induction false} SortByGrowthSorted(s: seq<MarketTrend>)
    ensures SortedByGrowth(SortByGrowth(s))
  {
    if s != [] {
      SortByGrowthSorted(s[..|s| - 1]);
      InsertSorted(SortByGrowth(s[..|s| - 1]), s[|s| - 1]);
    }
  }

  function HasGrowth(g: real): MarketTrend -> bool
  {
    (t: MarketTrend) => t.growth == g
  }

  lemma {:induction false} InsertStable(s: seq<MarketTrend>, x: MarketTrend, g: real)
    ensures Filter(Insert(s, x), HasGrowth(g)) == Filter(s, HasGrowth(g)) + (if x.growth == g then [x] else [])
  {
    var p := HasGrowth(g);
    if s == [] || s[|s| - 1].growth >= x.growth {
      FilterAppend(s, [x], p);
      FilterSingleton(x, p);
    } else {
      var init, last := s[..|s| - 1], s[|s| - 1];
      var added: seq<MarketTrend> := if x.growth == g then [x] else [];
      // `last` grows strictly slower than `x`, so at most one of them has growth `g`
      assert Filter([last], p) == [] || added == [] by {
        FilterSingleton(last, p);
      }
      calc {
        Filter(Insert(s, x), p);
        { assert Insert(s, x) == Insert(init, x) + [last]; }
        Filter(Insert(init, x) + [last], p);
        { FilterAppend(Insert(init, x), [last], p); }
        Filter(Insert(init, x), p) + Filter([last], p);
        { InsertStable(init, x, g); }
        Filter(init, p) + added + Filter([last], p);
        Filter(init, p) + Filter([last], p) + added;
        { FilterAppend(init, [last], p); assert init + [last] == s; }
        Filter(s, p) + added;
      }
    }
  }

  /**
   * Stability: for every growth value, the trends having it appear in the
   * sorted array in the same relative order as in the input.
   */
  lemma {:induction false} SortByGrowthStable(s: seq<MarketTrend>, g: real)
    ensures Filter(SortByGrowth(s), HasGrowth(g)) == Filter(s, HasGrowth(g))
  {
    if s != [] {
      var init, last := s[..|s| - 1], s[|s| - 1];
      assert s == init + [last];
      SortByGrowthStable(init, g);
      InsertStable(SortByGrowth(init), last, g);
      FilterAppend(init, [last], HasGrowth(g));
    }
  }

  /** `.slice(0, 3)`. */
  function TopThree(sorted: seq<MarketTrend>): (top: seq<MarketTrend>)
    ensures |top| == if |sorted| < 3 then |sorted| else 3
    ensures top == sorted[..|top|]
  {
    if |sorted| <= 3 then sorted else sorted[..3]
  }

  /**
   * The cards shown: min(3, n) trends in non-increasing growth order, together
   * with the unselected ones a rearrangement of the input, and no unselected
   * trend growing faster than any selected one.
   */
  lemma TopTrendsSpec(s: seq<MarketTrend>)
    ensures var sorted := SortByGrowth(s);
      var top := TopThree(sorted);
      && |top| == (if |s| < 3 then |s| else 3)
      && SortedByGrowth(top)
      && multiset(top) + multiset(sorted[|top|..]) == multiset(s)
      && forall i, j :: 0 <= i < |top| <= j < |sorted| ==> sorted[j].growth <= top[i].growth
  {
    var sorted := SortByGrowth(s);
    SortByGrowthSorted(s);
    SortByGrowthPermutation(s);
    var top := TopThree(sorted);
    assert sorted == top + sorted[|top|..];
  }

  /** One step of the shifting loop: `x` moves past a strictly smaller last element. */
  lemma InsertPast(sorted: seq<MarketTrend>, x: MarketTrend, j: nat)
    requires 0 < j <= |sorted| && sorted[j - 1].growth < x.growth
    ensures Insert(sorted[..j], x) == Insert(sorted[..j - 1], x) + [sorted[j - 1]]
  {
    assert sorted[..j][..j - 1] == sorted[..j - 1];
  }

  /** Where the shifting loop stops, `x` goes right after the prefix. */
  lemma InsertStop(sorted: seq<MarketTrend>, x: MarketTrend, j: nat)
    requires j <= |sorted| && (j == 0 || sorted[j - 1].growth >= x.growth)
    ensures Insert(sorted[..j], x) == sorted[..j] + [x]
  {
  }

  /** Inserting `x = a[i]` into the sorted prefix `a[..i]`, in place. */
  method InsertInPlace(a: array<MarketTrend>, i: nat)
    requires i < a.Length
    modifies a
    ensures a[..i + 1] == Insert(old(a[..i]), old(a[i]))
    ensures a[i + 1..] == old(a[i + 1..])
  {
    ghost var sorted := a[..i];
    ghost var rest := a[i + 1..];
    var x := a[i];
    ghost var target := Insert(sorted, x);
    var j := i;
    assert sorted[..i] == sorted && sorted[i..i] == [];
    assert a[..] == sorted[..j] + [a[j]] + sorted[j..i] + rest;
    while j > 0 && a[j - 1].growth < x.growth
      invariant 0 <= j <= i
      invariant a[..] == sorted[..j] + [a[j]] + sorted[j..i] + rest
      invariant target == Insert(sorted[..j], x) + sorted[j..i]
    {
      ShiftStep(sorted, x, j, i);
      Shifted(sorted, rest, j, i, a[j]);
      a[j] := a[j - 1];
      j := j - 1;
    }
    InsertStop(sorted, x, j);
    Placed(sorted, rest, j, i, a[j], x);
    a[j] := x;
  }

  /** The array before and after one shift of the loop in `InsertInPlace`. */
  lemma Shifted(sorted: seq<MarketTrend>, rest: seq<MarketTrend>, j: nat, i: nat, y: MarketTrend)
    requires 0 < j <= i == |sorted|
    ensures var arr := sorted[..j] + [y] + sorted[j..i] + rest;
      && arr[j - 1] == sorted[j - 1]
      && arr[j := arr[j - 1]] == sorted[..j - 1] + [sorted[j - 1]] + sorted[j - 1..i] + rest
  {
  }

  /** The array once `x` is written at the stopping index of the loop in `InsertInPlace`. */
  lemma Placed(sorted: seq<MarketTrend>, rest: seq<MarketTrend>, j: nat, i: nat, y: MarketTrend, x: MarketTrend)
    requires j <= i == |sorted|
    ensures var arr := (sorted[..j] + [y] + sorted[j..i] + rest)[j := x];
      && arr[..i + 1] == sorted[..j] + [x] + sorted[j..i]
      && arr[i + 1..] == rest
  {
  }

  lemma ShiftStep(sorted: seq<MarketTrend>, x: MarketTrend, j: nat, i: nat)
    requires 0 < j <= i == |sorted| && sorted[j - 1].growth < x.growth
    ensures Insert(sorted[..j], x) + sorted[j..i] == Insert(sorted[..j - 1], x) + sorted[j - 1..i]
  {
    InsertPast(sorted, x, j);
    assert sorted[j - 1..i] == [sorted[j - 1]] + sorted[j..i];
  }

  /** `trends.sort((a, b) => b.growth - a.growth)`: reorders the caller's array in place. */
  method SortTrends(a: array<MarketTrend>)
    modifies a
    ensures a[..] == SortByGrowth(old(a[..]))
  {
    ghost var input := a[..];
    var i := 0;
    while i < a.Length
      invariant 0 <= i <= a.Length
      invariant a[..i] == SortByGrowth(input[..i])
      invariant a[i..] == input[i..]
    {
      ghost var before := a[..];
      assert before[..i] == SortByGrowth(input[..i]);
      assert before[i] == input[i];
      InsertInPlace(a, i);
      SortStep(input, i);
      assert a[i + 1..] == before[i + 1..];
      i := i + 1;
    }
    assert a[..] == a[..a.Length];
    assert input == input[..a.Length];
  }

  lemma SortStep(input: seq<MarketTrend>, i: nat)
    requires i < |input|
    ensures SortByGrowth(input[..i + 1]) == Insert(SortByGrowth(input[..i]), input[i])
  {
    assert input[..i + 1][..i] == input[..i];
  }

  /** `topTrends`: sorts the caller's array, then takes the first three. */
  method TopTrends(trends: array<MarketTrend>) returns (top: seq<MarketTrend>)
    modifies trends
    ensures trends[..] == SortByGrowth(old(trends[..]))
    ensures top == TopThree(trends[..])
  {
    SortTrends(trends);
    top := if trends.Length <= 3 then trends[..] else trends[..3];
  }
}
