/**
 Sequence helpers shared by the report specifications: the concatenation of
 per-element sequences, and the facts about it that the reports need
 (appending, membership, and independence from the order of the elements).
 */
module Seqs {

  lemma AppendAssoc<T>(a: seq<T>, b: seq<T>, c: seq<T>)
    ensures (a + b) + c == a + (b + c)
  {
  }

  /** The concatenation of `f(x)` for the elements `x` of `s`, in the order of `s`. */
  function FlatMap<T, U>(s: seq<T>, f: T -> seq<U>): seq<U>
  {
    if s == [] then [] else FlatMap(s[..|s| - 1], f) + f(s[|s| - 1])
  }

  lemma FlatMapSnoc<T, U>(s: seq<T>, x: T, f: T -> seq<U>)
    ensures FlatMap(s + [x], f) == FlatMap(s, f) + f(x)
  {
    assert (s + [x])[..|s|] == s;
  }

  lemma {:induction false} FlatMapAppend<T, U>(a: seq<T>, b: seq<T>, f: T -> seq<U>)
    ensures FlatMap(a + b, f) == FlatMap(a, f) + FlatMap(b, f)
    decreases |b|
  {
    if b == [] {
      assert a + b == a;
    } else {
      var b', x := b[..|b| - 1], b[|b| - 1];
      assert b == b' + [x];
      assert a + b == (a + b') + [x];
      FlatMapSnoc(a + b', x, f);
      FlatMapAppend(a, b', f);
      FlatMapSnoc(b', x, f);
    }
  }

  /** An element of the concatenation comes from the image of some element, and back. */
  lemma {:induction false} FlatMapMember<T, U>(s: seq<T>, f: T -> seq<U>, y: U)
    ensures y in FlatMap(s, f) <==> exists x :: x in s && y in f(x)
    decreases |s|
  {
    if s != [] {
      var s', z := s[..|s| - 1], s[|s| - 1];
      assert s == s' + [z];
      FlatMapMember(s', f, y);
      if y in FlatMap(s, f) && y !in f(z) {
        assert y in FlatMap(s', f);
        var x :| x in s' && y in f(x);
        assert x in s;
      }
      if exists x :: x in s && y in f(x) {
        var x :| x in s && y in f(x);
        if x != z {
          assert x in s';
        }
      }
    }
  }

  /** The concatenation is empty exactly when every image is empty. */
  lemma {:induction false} FlatMapEmpty<T, U>(s: seq<T>, f: T -> seq<U>)
    ensures FlatMap(s, f) == [] <==> forall x :: x in s ==> f(x) == []
    decreases |s|
  {
    if s != [] {
      var s', z := s[..|s| - 1], s[|s| - 1];
      assert s == s' + [z];
      FlatMapEmpty(s', f);
      assert |FlatMap(s, f)| == |FlatMap(s', f)| + |f(z)|;
    }
  }

  /** A sequence is what comes before position `j`, the element there, and what comes after. */
  lemma SplitAt<T>(b: seq<T>, j: nat)
    requires j < |b|
    ensures b == b[..j] + [b[j]] + b[j + 1..]
  {
  }

  /** Removing the element at `j` takes exactly that element out of the multiset. */
  lemma RemoveAt<T>(b: seq<T>, j: nat)
    requires j < |b|
    ensures multiset(b[..j] + b[j + 1..]) + multiset{b[j]} == multiset(b)
  {
    SplitAt(b, j);
  }

  /** The concatenation over `b` is that over `b` without its element at `j`, plus that element's image. */
  lemma FlatMapRemoveAt<T, U>(b: seq<T>, j: nat, f: T -> seq<U>)
    requires j < |b|
    ensures multiset(FlatMap(b, f)) == multiset(FlatMap(b[..j] + b[j + 1..], f)) + multiset(f(b[j]))
  {
    var pre, x, post := b[..j], b[j], b[j + 1..];
    SplitAt(b, j);
    FlatMapAppend(pre + [x], post, f);
    FlatMapSnoc(pre, x, f);
    FlatMapAppend(pre, post, f);
  }

  /** Reordering the elements reorders the concatenation and nothing more. */
  lemma {:induction false} FlatMapPerm<T, U>(a: seq<T>, b: seq<T>, f: T -> seq<U>)
    requires multiset(a) == multiset(b)
    ensures multiset(FlatMap(a, f)) == multiset(FlatMap(b, f))
    decreases |a|
  {
    if a == [] {
      assert |b| == |multiset(b)| == 0;
    } else {
      var a', x := a[..|a| - 1], a[|a| - 1];
      assert a == a' + [x];
      assert x in multiset(b);
      var j :| 0 <= j < |b| && b[j] == x;
      RemoveAt(b, j);
      assert multiset(a) == multiset(a') + multiset{x};
      assert multiset(b[..j] + b[j + 1..]) == multiset(b) - multiset{x} == multiset(a');
      FlatMapPerm(a', b[..j] + b[j + 1..], f);
      FlatMapRemoveAt(b, j, f);
      FlatMapSnoc(a', x, f);
    }
  }

  /**
   When every image is a single element, the concatenation has one element
   per element of `s`, in the order of `s`.
   */
  lemma {:induction false} FlatMapSingles<T, U>(s: seq<T>, f: T -> seq<U>)
    requires forall x :: |f(x)| == 1
    ensures |FlatMap(s, f)| == |s|
    ensures forall k :: 0 <= k < |s| ==> FlatMap(s, f)[k] == f(s[k])[0]
    decreases |s|
  {
    if s != [] {
      var s', z := s[..|s| - 1], s[|s| - 1];
      FlatMapSingles(s', f);
      forall k | 0 <= k < |s|
        ensures FlatMap(s, f)[k] == f(s[k])[0]
      {
        if k < |s'| {
          assert s[k] == s'[k];
        }
      }
    }
  }
}
