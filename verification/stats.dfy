/**
 The point statistics of one bucket of readings (store.go, type Stats and the
 body of GetDateStatsForSensor): minimum, maximum, total, count, and the
 average computed with Go's integer division.
 */
module Stats {
  import opened Seqs

  /** The figures the store reports for a run of readings (store.go:11-17). */
  datatype Stats = Stats(min: int, max: int, avg: int, count: int, total: int)

  function Abs(x: int): int
  {
    if x < 0 then -x else x
  }

  /**
   Go's `/` on `int`: the quotient truncated toward zero, so the remainder
   takes the sign of the dividend (Dafny's own `/` is Euclidean).
   */
  function Quotient(a: int, b: int): (q: int)
    requires b != 0
    ensures a >= 0 ==> 0 <= a - q * b < Abs(b)
    ensures a < 0 ==> -Abs(b) < a - q * b <= 0
  {
    if a >= 0 && b > 0 then a / b
    else if a >= 0 then -(a / -b)
    else if b > 0 then -((-a) / b)
    else (-a) / (-b)
  }

  lemma MulMonotone(x: int, y: int, c: int)
    requires x <= y && c > 0
    ensures x * c <= y * c
  {
  }

  /** A quotient of a total that lies between `lo * count` and `hi * count` lies between `lo` and `hi`. */
  lemma QuotientBetween(total: int, count: int, lo: int, hi: int)
    requires count > 0
    requires lo * count <= total <= hi * count
    ensures lo <= Quotient(total, count) <= hi
  {
    var q := Quotient(total, count);
    if q < lo {
      MulMonotone(q, lo - 1, count);
    }
    if q > hi {
      MulMonotone(hi + 1, q, count);
    }
  }

  function Sum(s: seq<int>): int
  {
    if s == [] then 0 else Sum(s[..|s| - 1]) + s[|s| - 1]
  }

  /** The smallest reading, scanning from the first (store.go:192,206-208). */
  function SeqMin(s: seq<int>): (m: int)
    requires s != []
    ensures m in s
    ensures forall x :: x in s ==> m <= x
  {
    if |s| == 1 then s[0]
    else
      var prefix, last := s[..|s| - 1], s[|s| - 1];
      var m := SeqMin(prefix);
      assert forall x :: x in s ==> x in prefix || x == last by { assert s == prefix + [last]; }
      if m > last then last else m
  }

  /** The largest reading, scanning from the first (store.go:193,203-205). */
  function SeqMax(s: seq<int>): (m: int)
    requires s != []
    ensures m in s
    ensures forall x :: x in s ==> x <= m
  {
    if |s| == 1 then s[0]
    else
      var prefix, last := s[..|s| - 1], s[|s| - 1];
      var m := SeqMax(prefix);
      assert forall x :: x in s ==> x in prefix || x == last by { assert s == prefix + [last]; }
      if m < last then last else m
  }

  lemma {:induction false} SumBounds(s: seq<int>, lo: int, hi: int)
    requires forall x :: x in s ==> lo <= x <= hi
    ensures lo * |s| <= Sum(s) <= hi * |s|
    decreases |s|
  {
    if s != [] {
      var s' := s[..|s| - 1];
      assert forall x :: x in s' ==> x in s;
      SumBounds(s', lo, hi);
      assert s[|s| - 1] in s;
      assert lo * |s| == lo * |s'| + lo;
      assert hi * |s| == hi * |s'| + hi;
    }
  }

  /**
   The statistics of a non-empty bucket (store.go:190-213): its length, its sum,
   a smallest and a largest reading that bound all the others, and the
   truncated average, which therefore lies between the two.
   */
  function PointStats(temperatures: seq<int>): (st: Stats)
    requires temperatures != []
    ensures st.count == |temperatures| && st.total == Sum(temperatures)
    ensures st.min in temperatures && st.max in temperatures
    ensures forall x :: x in temperatures ==> st.min <= x <= st.max
    ensures st.min <= st.avg <= st.max
    ensures st.avg == Quotient(st.total, st.count)
  {
    var min, max, total := SeqMin(temperatures), SeqMax(temperatures), Sum(temperatures);
    SumBounds(temperatures, min, max);
    QuotientBetween(total, |temperatures|, min, max);
    Stats(min, max, Quotient(total, |temperatures|), |temperatures|, total)
  }

  /** Worked cases of the truncating average: [1, 2] averages to 1, [-1, -2] to -1 (Euclidean division would give -2). */
  lemma TruncatedAverages()
    ensures PointStats([1, 2]).avg == 1
    ensures PointStats([-1, -2]).avg == -1
  {
    assert [1, 2][..1] == [1] && [1][..0] == [];
    assert Sum([1, 2]) == 3;
    assert [-1, -2][..1] == [-1] && [-1][..0] == [];
    assert Sum([-1, -2]) == -3;
  }

  lemma {:induction false} SumAppend(a: seq<int>, b: seq<int>)
    ensures Sum(a + b) == Sum(a) + Sum(b)
    decreases |b|
  {
    if b == [] {
      assert a + b == a;
    } else {
      var b' := b[..|b| - 1];
      assert (a + b)[..|a + b| - 1] == a + b';
      SumAppend(a, b');
    }
  }

  /** The extremes of two runs put together are the extremes of the runs' extremes. */
  lemma ExtremesAppend(a: seq<int>, b: seq<int>)
    requires a != [] && b != []
    ensures SeqMin(a + b) == if SeqMin(b) < SeqMin(a) then SeqMin(b) else SeqMin(a)
    ensures SeqMax(a + b) == if SeqMax(b) > SeqMax(a) then SeqMax(b) else SeqMax(a)
  {
    var lo, hi := SeqMin(a + b), SeqMax(a + b);
    assert lo in a || lo in b;
    assert hi in a || hi in b;
    assert SeqMin(a) in a + b && SeqMin(b) in a + b;
    assert SeqMax(a) in a + b && SeqMax(b) in a + b;
  }

  /** The sum without the reading at `j`, plus that reading, is the whole sum. */
  lemma SumRemoveAt(b: seq<int>, j: nat)
    requires j < |b|
    ensures Sum(b) == Sum(b[..j] + b[j + 1..]) + b[j]
  {
    var pre, x, post := b[..j], b[j], b[j + 1..];
    SplitAt(b, j);
    SumAppend(pre + [x], post);
    assert (pre + [x])[..|pre|] == pre;
    SumAppend(pre, post);
  }

  lemma {:induction false} SumPerm(a: seq<int>, b: seq<int>)
    requires multiset(a) == multiset(b)
    ensures Sum(a) == Sum(b)
    decreases |a|
  {
    if a == [] {
      assert |b| == |multiset(b)| == 0;
    } else {
      var a', x := a[..|a| - 1], a[|a| - 1];
      assert a == a' + [x];
      assert x in multiset(b);
      var j :| 0 <= j < |b| && b[j] == x;
      RemoveAt(b, j);
      assert multiset(a) == multiset(a') + multiset{x};
      assert multiset(b[..j] + b[j + 1..]) == multiset(b) - multiset{x} == multiset(a');
      SumPerm(a', b[..j] + b[j + 1..]);
      SumRemoveAt(b, j);
    }
  }

  lemma ExtremesPerm(a: seq<int>, b: seq<int>)
    requires a != [] && b != [] && multiset(a) == multiset(b)
    ensures SeqMin(a) == SeqMin(b) && SeqMax(a) == SeqMax(b)
  {
    assert forall x :: x in a <==> x in multiset(a);
    assert forall x :: x in b <==> x in multiset(b);
    assert SeqMin(a) in b && SeqMin(b) in a;
    assert SeqMax(a) in b && SeqMax(b) in a;
  }

  /** The statistics of a run depend only on which readings it holds, not on their order. */
  lemma PointStatsPerm(a: seq<int>, b: seq<int>)
    requires a != [] && multiset(a) == multiset(b)
    ensures b != [] && PointStats(a) == PointStats(b)
  {
    assert |a| == |multiset(a)| == |multiset(b)| == |b|;
    SumPerm(a, b);
    ExtremesPerm(a, b);
  }

  /**
   A running accumulator (`seen`, min, max, total, count), as the report loops
   keep it, summarises exactly the readings `rs`: `seen` says whether there
   were any, and then min and max are theirs; total and count always are.
   */
  predicate Summarises(seen: bool, min: int, max: int, total: int, count: int, rs: seq<int>)
  {
    && (seen <==> rs != [])
    && count == |rs|
    && total == Sum(rs)
    && (rs != [] ==> min == SeqMin(rs) && max == SeqMax(rs))
  }

  /**
   One step of the report loops (store.go:79-111, 152-167): folding in the
   statistics of a non-empty bucket `b` makes the accumulator summarise the
   readings so far followed by `b`.
   */
  lemma FoldBucket(seen: bool, min: int, max: int, total: int, count: int, rs: seq<int>, b: seq<int>)
    requires Summarises(seen, min, max, total, count, rs)
    requires b != []
    ensures var st := PointStats(b);
            var min' := if !seen || st.min < min then st.min else min;
            var max' := if !seen || st.max > max then st.max else max;
            Summarises(true, min', max', total + st.total, count + st.count, rs + b)
  {
    SumAppend(rs, b);
    if rs != [] {
      ExtremesAppend(rs, b);
    } else {
      assert rs + b == b;
    }
  }

  /**
   The least reading of a concatenation of runs is the least of the runs'
   own least readings, taken over the non-empty runs; likewise the largest.
   */
  lemma FlatMapExtremes<T>(s: seq<T>, f: T -> seq<int>)
    requires FlatMap(s, f) != []
    ensures forall x :: x in s && f(x) != [] ==>
              SeqMin(FlatMap(s, f)) <= SeqMin(f(x)) && SeqMax(f(x)) <= SeqMax(FlatMap(s, f))
    ensures exists x :: x in s && f(x) != [] && SeqMin(FlatMap(s, f)) == SeqMin(f(x))
    ensures exists x :: x in s && f(x) != [] && SeqMax(FlatMap(s, f)) == SeqMax(f(x))
  {
    var all := FlatMap(s, f);
    forall x | x in s && f(x) != []
      ensures SeqMin(all) <= SeqMin(f(x)) && SeqMax(f(x)) <= SeqMax(all)
    {
      FlatMapMember(s, f, SeqMin(f(x)));
      FlatMapMember(s, f, SeqMax(f(x)));
    }
    FlatMapMember(s, f, SeqMin(all));
    var x :| x in s && SeqMin(all) in f(x);
    assert SeqMin(all) == SeqMin(f(x));
    FlatMapMember(s, f, SeqMax(all));
    var y :| y in s && SeqMax(all) in f(y);
    assert SeqMax(all) == SeqMax(f(y));
  }

  /** The sum of the totals of the runs `f(x)`, x in `s`. */
  function TotalOver<T>(s: seq<T>, f: T -> seq<int>): int
  {
    if s == [] then 0 else TotalOver(s[..|s| - 1], f) + Sum(f(s[|s| - 1]))
  }

  /** The sum of the lengths (counts) of the runs `f(x)`, x in `s`. */
  function CountOver<T>(s: seq<T>, f: T -> seq<int>): int
  {
    if s == [] then 0 else CountOver(s[..|s| - 1], f) + |f(s[|s| - 1])|
  }

  /**
   The total and the count of a concatenation of runs are the sums of the
   runs' totals and counts: the average of the whole is weighted by count.
   */
  lemma {:induction false} FlatMapSum<T>(s: seq<T>, f: T -> seq<int>)
    ensures Sum(FlatMap(s, f)) == TotalOver(s, f)
    ensures |FlatMap(s, f)| == CountOver(s, f)
    decreases |s|
  {
    if s != [] {
      var s' := s[..|s| - 1];
      FlatMapSum(s', f);
      SumAppend(FlatMap(s', f), f(s[|s| - 1]));
    }
  }
}
