/** `Array.prototype.filter`, the first element that satisfies a predicate, and
    sums over a sequence: the collection operations the contexts are built from. */
module Seqs {
  import opened Wrappers

  /** `s.filter(f)`: the elements of `s` that satisfy `f`, in their original order. */
  function Filter<T>(s: seq<T>, f: T -> bool): (r: seq<T>)
    ensures |r| <= |s|
    ensures forall i :: 0 <= i < |r| ==> r[i] in s && f(r[i])
    ensures forall i :: 0 <= i < |s| && f(s[i]) ==> s[i] in r
  {
    if s == [] then [] else (if f(s[0]) then [s[0]] else []) + Filter(s[1..], f)
  }

  lemma {:induction false} FilterAppend<T>(a: seq<T>, b: seq<T>, f: T -> bool)
    ensures Filter(a + b, f) == Filter(a, f) + Filter(b, f)
  {
    if a == [] {
      assert a + b == b;
    } else {
      assert (a + b)[1..] == a[1..] + b;
      FilterAppend(a[1..], b, f);
    }
  }

  /** Filtering by `f` and then by `g` keeps exactly the elements that pass the
      conjunction `h` of both tests. */
  lemma {:induction false} FilterFilter<T>(s: seq<T>, f: T -> bool, g: T -> bool, h: T -> bool)
    requires forall i :: 0 <= i < |s| ==> h(s[i]) == (f(s[i]) && g(s[i]))
    ensures Filter(Filter(s, f), g) == Filter(s, h)
  {
    if s != [] {
      FilterFilter(s[1..], f, g, h);
      if f(s[0]) {
        var fs := Filter(s, f);
        assert fs == [s[0]] + Filter(s[1..], f);
        assert fs[0] == s[0] && fs[1..] == Filter(s[1..], f);
        assert Filter(fs, g) == (if g(s[0]) then [s[0]] else []) + Filter(s[1..], h);
        assert Filter(s, h) == (if h(s[0]) then [s[0]] else []) + Filter(s[1..], h);
      } else {
        assert Filter(s, f) == Filter(s[1..], f);
        assert Filter(s, h) == Filter(s[1..], h);
      }
    }
  }

  lemma FilterSingleton<T>(x: T, f: T -> bool)
    ensures Filter([x], f) == if f(x) then [x] else []
  {
    assert [x][1..] == [];
  }

  /** Nothing is removed when every element passes. */
  lemma {:induction false} FilterAll<T>(s: seq<T>, f: T -> bool)
    requires forall i :: 0 <= i < |s| ==> f(s[i])
    ensures Filter(s, f) == s
  {
    if s != [] { FilterAll(s[1..], f); }
  }

  /** Dropping one failing element between two runs of passing ones leaves the
      two runs, in order. */
  lemma {:induction false} FilterDropsOne<T>(a: seq<T>, x: T, b: seq<T>, f: T -> bool)
    requires forall i :: 0 <= i < |a| ==> f(a[i])
    requires forall i :: 0 <= i < |b| ==> f(b[i])
    requires !f(x)
    ensures Filter(a + [x] + b, f) == a + b
  {
    var s := a + [x] + b;
    if a == [] {
      assert s[0] == x && s[1..] == b;
      FilterAll(b, f);
    } else {
      assert s[0] == a[0] && s[1..] == a[1..] + [x] + b;
      FilterDropsOne(a[1..], x, b, f);
    }
  }

  /** The index of the first element satisfying `f`, if any. */
  function FindFirst<T>(s: seq<T>, f: T -> bool): (r: Option<nat>)
    ensures r.Some? ==> r.value < |s| && f(s[r.value]) && forall j :: 0 <= j < r.value ==> !f(s[j])
    ensures r.None? ==> forall i :: 0 <= i < |s| ==> !f(s[i])
  {
    if s == [] then None
    else if f(s[0]) then Some(0)
    else match FindFirst(s[1..], f)
      case None => None
      case Some(k) => Some(k + 1)
  }

  /** The head of a filter is the first element of the input that satisfies the
      predicate, and the filter is empty exactly when no element does. */
  lemma {:induction false} FilterHeadIsFirst<T>(s: seq<T>, f: T -> bool)
    ensures Filter(s, f) != [] <==> FindFirst(s, f).Some?
    ensures Filter(s, f) != [] ==> Filter(s, f)[0] == s[FindFirst(s, f).value]
  {
    if s != [] && !f(s[0]) {
      FilterHeadIsFirst(s[1..], f);
    }
  }

  /** Sum of `w(x)` over the elements of `s`, the shape of a `reduce` or a
      `forEach` that adds into an accumulator. */
  function SumOf<T>(s: seq<T>, w: T -> real): real
  {
    if s == [] then 0.0 else SumOf(s[..|s| - 1], w) + w(s[|s| - 1])
  }

  lemma {:induction false} SumOfAppend<T>(a: seq<T>, b: seq<T>, w: T -> real)
    ensures SumOf(a + b, w) == SumOf(a, w) + SumOf(b, w)
  {
    if b == [] {
      assert a + b == a;
    } else {
      assert (a + b)[..|a + b| - 1] == a + b[..|b| - 1];
      SumOfAppend(a, b[..|b| - 1], w);
    }
  }

  lemma {:induction false} SumOfNonNegative<T>(s: seq<T>, w: T -> real)
    requires forall i :: 0 <= i < |s| ==> w(s[i]) >= 0.0
    ensures SumOf(s, w) >= 0.0
  {
    if s != [] { SumOfNonNegative(s[..|s| - 1], w); }
  }

  /** Summing `v`, which is `w` on the elements that pass `f` and zero on the
      others, is summing `w` over the filter. */
  lemma {:induction false} SumOfFilter<T>(s: seq<T>, f: T -> bool, w: T -> real, v: T -> real)
    requires forall i :: 0 <= i < |s| ==> v(s[i]) == if f(s[i]) then w(s[i]) else 0.0
    ensures SumOf(s, v) == SumOf(Filter(s, f), w)
  {
    if s != [] {
      var init, last := s[..|s| - 1], s[|s| - 1];
      assert s == init + [last];
      SumOfFilter(init, f, w, v);
      FilterAppend(init, [last], f);
      assert Filter([last], f) == if f(last) then [last] else [];
      SumOfAppend(Filter(init, f), Filter([last], f), w);
      if f(last) {
        assert SumOf([last], w) == w(last) by {
          assert [last][..0] == [];
        }
      }
    }
  }

  /** Filtering keeps every copy of an element that passes and no copy of one
      that does not. */
  lemma {:induction false} FilterMultiset<T>(s: seq<T>, f: T -> bool, x: T)
    ensures multiset(Filter(s, f))[x] == if f(x) then multiset(s)[x] else 0
  {
    if s != [] {
      FilterMultiset(s[1..], f, x);
      var cabeza := if f(s[0]) then [s[0]] else [];
      assert Filter(s, f) == cabeza + Filter(s[1..], f);
      assert multiset(Filter(s, f)) == multiset(cabeza) + multiset(Filter(s[1..], f));
      assert s == [s[0]] + s[1..];
      assert multiset(s) == multiset([s[0]]) + multiset(s[1..]);
    }
  }

  /** Filtering out an element that is present shortens the sequence. */
  lemma {:induction false} FilterShorter<T>(s: seq<T>, f: T -> bool, x: T)
    requires x in s && !f(x)
    ensures |Filter(s, f)| < |s|
  {
    if s[0] != x {
      assert x in s[1..];
      FilterShorter(s[1..], f, x);
    }
  }
}
