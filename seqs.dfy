/** Sequence folds whose value depends only on the multiset of their input. */
module Seqs {
  import opened Wrappers

  /** `list(range(n))` */
  function Range(n: nat): (r: seq<nat>)
    ensures |r| == n && forall i :: 0 <= i < n ==> r[i] == i
  {
    if n == 0 then [] else Range(n - 1) + [n - 1]
  }

  /** A common prefix and suffix cancel: `pre + x + suf` determines `x`. */
  lemma InfixCancel<T>(pre: seq<T>, x: seq<T>, y: seq<T>, suf: seq<T>)
    requires pre + x + suf == pre + y + suf
    ensures x == y
  {
    var a := pre + x + suf;
    assert |x| == |y|;
    assert a[|pre|..|pre| + |x|] == x;
    assert (pre + y + suf)[|pre|..|pre| + |y|] == y;
  }

  /** `[f(x) for x in s]` */
  function Map<T, U>(f: T -> U, s: seq<T>): (r: seq<U>)
    ensures |r| == |s| && forall i :: 0 <= i < |s| ==> r[i] == f(s[i])
  {
    if s == [] then [] else [f(s[0])] + Map(f, s[1..])
  }

  /** `sum(1 for x in s if p(x))` */
  function CountIf<T>(p: T -> bool, s: seq<T>): nat
  {
    if s == [] then 0 else (if p(s[0]) then 1 else 0) + CountIf(p, s[1..])
  }

  lemma {:induction false} CountIfBound<T>(p: T -> bool, s: seq<T>)
    ensures CountIf(p, s) <= |s|
  {
    if s != [] { CountIfBound(p, s[1..]); }
  }

  lemma {:induction false} CountIfConcat<T>(p: T -> bool, a: seq<T>, b: seq<T>)
    ensures CountIf(p, a + b) == CountIf(p, a) + CountIf(p, b)
  {
    if a == [] {
      assert a + b == b;
    } else {
      assert (a + b)[1..] == a[1..] + b;
      CountIfConcat(p, a[1..], b);
    }
  }

  /** Removing the element at `k` removes its contribution to the count. */
  lemma CountIfRemove<T>(p: T -> bool, s: seq<T>, k: nat)
    requires k < |s|
    ensures CountIf(p, s) == (if p(s[k]) then 1 else 0) + CountIf(p, s[..k] + s[k + 1..])
  {
    var h, t := s[..k], s[k + 1..];
    assert s == h + ([s[k]] + t);
    CountIfConcat(p, h, [s[k]] + t);
    CountIfConcat(p, h, t);
    CountIfConcat(p, [s[k]], t);
    assert [s[k]][1..] == [];
  }

  lemma MultisetRemove<T>(s: seq<T>, k: nat)
    requires k < |s|
    ensures multiset(s[..k] + s[k + 1..]) == multiset(s) - multiset{s[k]}
  {
    assert s == s[..k] + [s[k]] + s[k + 1..];
  }

  lemma MultisetSplit<T>(s: seq<T>, k: nat)
    requires k < |s|
    ensures multiset(s) == multiset{s[k]} + multiset(s[..k] + s[k + 1..])
  {
    assert s == s[..k] + [s[k]] + s[k + 1..];
    assert multiset(s) == multiset{s[k]} + multiset(s[..k]) + multiset(s[k + 1..]);
    assert multiset(s[..k] + s[k + 1..]) == multiset(s[..k]) + multiset(s[k + 1..]);
  }

  /** A count over a sequence does not depend on the order of its elements. */
  lemma {:induction false} CountIfPermutation<T>(p: T -> bool, a: seq<T>, b: seq<T>)
    requires multiset(a) == multiset(b)
    ensures CountIf(p, a) == CountIf(p, b)
    decreases |a|
  {
    if a == [] {
      assert |b| == |multiset(b)| == 0;
    } else {
      var k := RemovalIndex(a, b);
      CountIfPermutation(p, a[1..], b[..k] + b[k + 1..]);
      CountIfRemove(p, b, k);
    }
  }

  /** Where the head of `a` sits in a reordering `b`, and what is left of both without it. */
  lemma RemovalIndex<T>(a: seq<T>, b: seq<T>) returns (k: nat)
    requires a != [] && multiset(a) == multiset(b)
    ensures k < |b| && b[k] == a[0]
    ensures multiset(a[1..]) == multiset(b[..k] + b[k + 1..])
  {
    assert a[0] in multiset(b);
    assert a[0] in b;
    k :| 0 <= k < |b| && b[k] == a[0];
    assert a[..0] + a[1..] == a[1..];
    MultisetRemove(b, k);
    MultisetRemove(a, 0);
  }

  lemma {:induction false} MapConcat<T, U>(f: T -> U, a: seq<T>, b: seq<T>)
    ensures Map(f, a + b) == Map(f, a) + Map(f, b)
  {
    var l, r := Map(f, a + b), Map(f, a) + Map(f, b);
    assert forall i :: 0 <= i < |l| ==> l[i] == r[i];
  }

  /** Removing the element at `k` removes its image from the mapped multiset. */
  lemma MapRemove<T, U>(f: T -> U, s: seq<T>, k: nat)
    requires k < |s|
    ensures multiset(Map(f, s)) == multiset{f(s[k])} + multiset(Map(f, s[..k] + s[k + 1..]))
  {
    var h, t := s[..k], s[k + 1..];
    assert s == h + ([s[k]] + t);
    MapConcat(f, h, [s[k]] + t);
    MapConcat(f, [s[k]], t);
    MapConcat(f, h, t);
    assert Map(f, [s[k]]) == [f(s[k])];
  }

  /** Mapping a function over two orderings of the same elements gives two orderings of the same images. */
  lemma {:induction false} MapPermutation<T, U>(f: T -> U, a: seq<T>, b: seq<T>)
    requires multiset(a) == multiset(b)
    ensures multiset(Map(f, a)) == multiset(Map(f, b))
    decreases |a|
  {
    if a == [] {
      assert |b| == |multiset(b)| == 0;
    } else {
      var k := RemovalIndex(a, b);
      MapPermutation(f, a[1..], b[..k] + b[k + 1..]);
      MapRemove(f, b, k);
      MapRemove(f, a, 0);
      assert a[..0] + a[1..] == a[1..];
    }
  }

  predicate Distinct<T(==)>(s: seq<T>)
  {
    forall i, j :: 0 <= i < j < |s| ==> s[i] != s[j]
  }

  lemma {:induction false} DistinctCount<T>(s: seq<T>, x: T)
    requires Distinct(s)
    ensures multiset(s)[x] <= 1
  {
    if s != [] {
      assert s == [s[0]] + s[1..];
      DistinctCount(s[1..], x);
      if s[0] == x {
        assert x !in s[1..];
      }
    }
  }

  lemma ConcatAssoc<T>(a: seq<T>, b: seq<T>, c: seq<T>)
    ensures (a + b) + c == a + (b + c)
  {
  }

  /** Putting a new element in front keeps a list duplicate-free. */
  lemma DistinctPrepend<T>(x: T, s: seq<T>)
    requires Distinct(s) && x !in s
    ensures Distinct([x] + s)
  {
    forall i, j | 0 <= i < j < |[x] + s| ensures ([x] + s)[i] != ([x] + s)[j] {
      if i > 0 {
        assert ([x] + s)[i] == s[i - 1];
      }
    }
  }

  lemma TwoPositions<T>(s: seq<T>, i: nat, j: nat)
    requires i < j < |s| && s[i] == s[j]
    ensures multiset(s)[s[i]] >= 2
  {
    assert s == s[..i] + [s[i]] + s[i + 1..j] + [s[j]] + s[j + 1..];
  }

  /** A reordering of distinct elements has distinct elements. */
  lemma DistinctPermutation<T>(a: seq<T>, b: seq<T>)
    requires Distinct(a) && multiset(a) == multiset(b)
    ensures Distinct(b)
  {
    forall i, j | 0 <= i < j < |b| ensures b[i] != b[j] {
      if b[i] == b[j] {
        TwoPositions(b, i, j);
        DistinctCount(a, b[i]);
      }
    }
  }

  /** `[g(x) for x in s if ...]` in one step: the images of the elements `f` keeps, in order. */
  function FilterMap<T, U>(f: T -> Option<U>, s: seq<T>): seq<U>
  {
    if s == [] then []
    else (match f(s[0]) case Some(y) => [y] case None => []) + FilterMap(f, s[1..])
  }

  lemma {:induction false} FilterMapConcat<T, U>(f: T -> Option<U>, a: seq<T>, b: seq<T>)
    ensures FilterMap(f, a + b) == FilterMap(f, a) + FilterMap(f, b)
  {
    if a == [] {
      assert a + b == b;
    } else {
      assert (a + b)[1..] == a[1..] + b;
      FilterMapConcat(f, a[1..], b);
    }
  }

  /** What is kept is exactly the images of the kept elements. */
  lemma {:induction false} FilterMapMember<T, U>(f: T -> Option<U>, s: seq<T>, y: U)
    ensures y in FilterMap(f, s) <==> exists i :: 0 <= i < |s| && f(s[i]) == Some(y)
  {
    if s != [] {
      FilterMapMember(f, s[1..], y);
      if y in FilterMap(f, s[1..]) {
        var i :| 0 <= i < |s[1..]| && f(s[1..][i]) == Some(y);
        assert f(s[i + 1]) == Some(y);
      }
      if exists i :: 0 <= i < |s| && f(s[i]) == Some(y) {
        var i :| 0 <= i < |s| && f(s[i]) == Some(y);
        if i > 0 { assert f(s[1..][i - 1]) == Some(y); }
      }
    }
  }

  /** One image per kept element. */
  lemma {:induction false} FilterMapCount<T, U>(f: T -> Option<U>, p: T -> bool, s: seq<T>)
    requires forall x :: p(x) == f(x).Some?
    ensures |FilterMap(f, s)| == CountIf(p, s)
  {
    if s != [] {
      FilterMapCount(f, p, s[1..]);
    }
  }

  lemma FilterMapRemove<T, U>(f: T -> Option<U>, s: seq<T>, k: nat)
    requires k < |s|
    ensures multiset(FilterMap(f, s)) == multiset(FilterMap(f, [s[k]])) + multiset(FilterMap(f, s[..k] + s[k + 1..]))
  {
    var l, m, r := s[..k], [s[k]], s[k + 1..];
    assert s == l + (m + r);
    hide FilterMap;
    FilterMapConcat(f, l, m + r);
    FilterMapConcat(f, m, r);
    FilterMapConcat(f, l, r);
    var fl, fm, fr := FilterMap(f, l), FilterMap(f, m), FilterMap(f, r);
    assert FilterMap(f, s) == fl + (fm + fr);
    assert FilterMap(f, l + r) == fl + fr;
    MultisetMiddle(fl, fm, fr);
  }

  lemma MultisetMiddle<T>(a: seq<T>, b: seq<T>, c: seq<T>)
    ensures multiset(a + (b + c)) == multiset(b) + multiset(a + c)
  {
  }

  /** Filtering one more element. */
  lemma FilterMapSnoc<T, U>(f: T -> Option<U>, s: seq<T>, j: nat)
    requires j < |s|
    ensures FilterMap(f, s[..j + 1]) == FilterMap(f, s[..j]) + (match f(s[j]) case Some(y) => [y] case None => [])
  {
    var one := [s[j]];
    assert s[..j + 1] == s[..j] + one;
    FilterMapConcat(f, s[..j], one);
    assert one[1..] == [];
  }

  /** Filtering two orderings of the same elements keeps the same images. */
  lemma {:induction false} FilterMapPermutation<T, U>(f: T -> Option<U>, a: seq<T>, b: seq<T>)
    requires multiset(a) == multiset(b)
    ensures multiset(FilterMap(f, a)) == multiset(FilterMap(f, b))
    decreases |a|
  {
    if a == [] {
      assert |b| == |multiset(b)| == 0;
    } else {
      var k := RemovalIndex(a, b);
      FilterMapPermutation(f, a[1..], b[..k] + b[k + 1..]);
      FilterMapRemove(f, b, k);
      FilterMapRemove(f, a, 0);
      assert a[..0] + a[1..] == a[1..];
    }
  }

  /** The elements of a reordering of `0 .. n-1` lie below `n`. */
  lemma RangeBound(s: seq<nat>, n: nat)
    requires multiset(s) == multiset(Range(n))
    ensures forall i :: 0 <= i < |s| ==> s[i] < n
  {
    forall i | 0 <= i < |s| ensures s[i] < n {
      assert s[i] in multiset(Range(n));
    }
  }

  /** A reordering of `0 .. n-1` holds every position below `n`. */
  lemma RangeCovers(s: seq<nat>, n: nat, i: nat)
    requires multiset(s) == multiset(Range(n)) && i < n
    ensures exists j :: 0 <= j < |s| && s[j] == i
  {
    assert Range(n)[i] == i;
    assert i in multiset(s);
  }

  /**
   * Filtering the positions `0 .. n-1` keeps one image per position whose element of `s`
   * satisfies `p`, when `f` maps exactly those positions.
   */
  lemma {:induction false} FilterMapRangeCount<T, U>(f: nat -> Option<U>, p: T -> bool, s: seq<T>, n: nat)
    requires n <= |s| && forall i :: 0 <= i < n ==> (f(i).Some? <==> p(s[i]))
    ensures |FilterMap(f, Range(n))| == CountIf(p, s[..n])
    decreases n
  {
    if n > 0 {
      var last: nat := n - 1;
      FilterMapRangeCount(f, p, s, last);
      assert Range(n) == Range(last) + [last];
      assert FilterMap(f, [last]) == (match f(last) case Some(y) => [y] case None => []);
      assert CountIf(p, [s[last]]) == if p(s[last]) then 1 else 0;
      assert s[..n] == s[..last] + [s[last]];
      hide FilterMap, CountIf, Range;
      FilterMapConcat(f, Range(last), [last]);
      CountIfConcat(p, s[..last], [s[last]]);
    }
  }

  /** A filter that keeps nothing gives nothing. */
  lemma {:induction false} FilterMapNone<T, U>(f: T -> Option<U>, s: seq<T>)
    requires forall i :: 0 <= i < |s| ==> f(s[i]).None?
    ensures FilterMap(f, s) == []
  {
    if s != [] {
      assert f(s[0]).None?;
      FilterMapNone(f, s[1..]);
    }
  }

  /** A loop over `rs` that stops at the first raise: every value, or the error of that raise. */
  function AllOf<T>(rs: seq<Result<T>>): Result<seq<T>>
  {
    if rs == [] then Success([])
    else
      match AllOf(rs[..|rs| - 1])
      case Failure(e) => Failure(e)
      case Success(vs) =>
        match rs[|rs| - 1]
        case Failure(e) => Failure(e)
        case Success(v) => Success(vs + [v])
  }

  /** The loop finishes exactly when no step raises, and then yields every step's value. */
  lemma {:induction false} AllOfSuccess<T>(rs: seq<Result<T>>)
    ensures AllOf(rs).Success? <==> forall i :: 0 <= i < |rs| ==> rs[i].Success?
    ensures AllOf(rs).Success? ==>
      |AllOf(rs).value| == |rs| && forall i :: 0 <= i < |rs| ==> AllOf(rs).value[i] == rs[i].value
  {
    if rs != [] {
      var init := rs[..|rs| - 1];
      AllOfSuccess(init);
      assert forall i :: 0 <= i < |init| ==> init[i] == rs[i];
    }
  }

  /** The error is that of the first step that raises. */
  lemma {:induction false} AllOfFailure<T>(rs: seq<Result<T>>)
    requires AllOf(rs).Failure?
    ensures exists i :: 0 <= i < |rs| && rs[i] == Failure(AllOf(rs).error) &&
                        forall j :: 0 <= j < i ==> rs[j].Success?
  {
    var init := rs[..|rs| - 1];
    assert forall i :: 0 <= i < |init| ==> init[i] == rs[i];
    if AllOf(init).Failure? {
      AllOfFailure(init);
      var i :| 0 <= i < |init| && init[i] == Failure(AllOf(init).error) &&
        forall j :: 0 <= j < i ==> init[j].Success?;
      assert rs[i] == Failure(AllOf(rs).error);
    } else {
      AllOfSuccess(init);
      assert rs[|rs| - 1] == Failure(AllOf(rs).error);
    }
  }

  /** One more pass of the loop over a prefix that has not raised. */
  lemma AllOfStep<T>(rs: seq<Result<T>>, n: nat, vs: seq<T>)
    requires n < |rs| && AllOf(rs[..n]) == Success(vs)
    ensures AllOf(rs[..n + 1]) == if rs[n].Failure? then Failure(rs[n].error) else Success(vs + [rs[n].value])
  {
    var next := rs[..n + 1];
    assert next[..n] == rs[..n];
  }

  /** Nothing after a raise runs: a prefix that raises decides the whole loop. */
  lemma {:induction false} AllOfPrefix<T>(rs: seq<Result<T>>, n: nat)
    requires n <= |rs| && AllOf(rs[..n]).Failure?
    ensures AllOf(rs) == AllOf(rs[..n])
    decreases |rs|
  {
    if n < |rs| {
      var init := rs[..|rs| - 1];
      assert init[..n] == rs[..n];
      AllOfPrefix(init, n);
    } else {
      assert rs[..n] == rs;
    }
  }
}
