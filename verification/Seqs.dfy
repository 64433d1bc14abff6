/** Sequence functions shared by the component models, and what they satisfy:

      Filter       the elements that pass a test, in order
      Count, Sum   how many pass, and the total of their weights
      Concat       a sequence of sequences, flattened
      LastN        the last few elements
      Subsequence  some of the elements, in order
      IsSuffix     the last few of them
      Merge        two sequences put together, each in its own order

    They recurse from the end, the side on which the modelled lists grow. */
module Seqs {

  function Filter<T>(s: seq<T>, keep: T -> bool): (r: seq<T>)
  {
    if s == [] then []
    else
      var init := Filter(s[..|s| - 1], keep);
      if keep(s[|s| - 1]) then init + [s[|s| - 1]] else init
  }

  function Count<T>(s: seq<T>, p: T -> bool): nat
  {
    if s == [] then 0
    else Count(s[..|s| - 1], p) + (if p(s[|s| - 1]) then 1 else 0)
  }

  function Sum<T>(s: seq<T>, weight: T -> nat): nat
  {
    if s == [] then 0 else Sum(s[..|s| - 1], weight) + weight(s[|s| - 1])
  }

  function Concat<T>(parts: seq<seq<T>>): seq<T>
  {
    if parts == [] then [] else Concat(parts[..|parts| - 1]) + parts[|parts| - 1]
  }

  /** The last n elements, or all of them when there are fewer. */
  function LastN<T>(s: seq<T>, n: nat): (r: seq<T>)
    ensures |r| == if |s| <= n then |s| else n
  {
    if |s| <= n then s else s[|s| - n..]
  }

  lemma MultisetDropLast<T>(s: seq<T>)
    requires s != []
    ensures multiset(s[..|s| - 1]) == multiset(s) - multiset{s[|s| - 1]}
  {
    assert s == s[..|s| - 1] + [s[|s| - 1]];
  }

  lemma EqualByInit<T>(a: seq<T>, b: seq<T>)
    requires |a| == |b| > 0 && a[|a| - 1] == b[|b| - 1] && a[..|a| - 1] == b[..|b| - 1]
    ensures a == b
  {
    assert forall i | 0 <= i < |a| - 1 :: a[i] == a[..|a| - 1][i] && b[i] == b[..|b| - 1][i];
  }

  lemma SwapPair<T>(a: T, b: T)
    ensures multiset([a, b]) == multiset([b, a])
  {
    assert [a, b] == [a] + [b] && [b, a] == [b] + [a];
  }

  lemma FilterAppend<T>(s: seq<T>, x: T, keep: T -> bool)
    ensures Filter(s + [x], keep) == Filter(s, keep) + (if keep(x) then [x] else [])
  {
    assert (s + [x])[..|s|] == s;
  }

  lemma {:induction false} FilterConcat<T>(a: seq<T>, b: seq<T>, keep: T -> bool)
    ensures Filter(a + b, keep) == Filter(a, keep) + Filter(b, keep)
  {
    if b == [] {
      assert a + b == a;
    } else {
      var init := b[..|b| - 1];
      assert a + b == (a + init) + [b[|b| - 1]];
      FilterAppend(a + init, b[|b| - 1], keep);
      FilterConcat(a, init, keep);
    }
  }

  lemma {:induction false} FilterMembers<T>(s: seq<T>, keep: T -> bool)
    ensures |Filter(s, keep)| <= |s|
    ensures forall x :: x in Filter(s, keep) <==> x in s && keep(x)
  {
    if s != [] {
      FilterMembers(s[..|s| - 1], keep);
      assert s == s[..|s| - 1] + [s[|s| - 1]];
    }
  }

  lemma {:induction false} FilterAll<T>(s: seq<T>, keep: T -> bool)
    requires forall x :: x in s ==> keep(x)
    ensures Filter(s, keep) == s
  {
    if s != [] {
      FilterAll(s[..|s| - 1], keep);
      assert s == s[..|s| - 1] + [s[|s| - 1]];
    }
  }

  lemma {:induction false} FilterNone<T>(s: seq<T>, keep: T -> bool)
    requires forall x :: x in s ==> !keep(x)
    ensures Filter(s, keep) == []
  {
    if s != [] {
      FilterNone(s[..|s| - 1], keep);
    }
  }

  /** Filtering with the wider test first changes nothing. */
  lemma {:induction false} FilterTwice<T>(s: seq<T>, wide: T -> bool, narrow: T -> bool)
    requires forall x :: x in s && narrow(x) ==> wide(x)
    ensures Filter(Filter(s, wide), narrow) == Filter(s, narrow)
  {
    if s != [] {
      var init := s[..|s| - 1];
      var x := s[|s| - 1];
      FilterTwice(init, wide, narrow);
      if wide(x) {
        FilterAppend(Filter(init, wide), x, narrow);
      }
    }
  }

  lemma {:induction false} CountIsFilterLength<T>(s: seq<T>, p: T -> bool)
    ensures Count(s, p) == |Filter(s, p)|
  {
    if s != [] {
      CountIsFilterLength(s[..|s| - 1], p);
    }
  }

  lemma CountAppend<T>(s: seq<T>, x: T, p: T -> bool)
    ensures Count(s + [x], p) == Count(s, p) + (if p(x) then 1 else 0)
  {
    assert (s + [x])[..|s|] == s;
  }

  lemma {:induction false} CountMonotone<T>(s: seq<T>, p: T -> bool, q: T -> bool)
    requires forall x :: x in s && p(x) ==> q(x)
    ensures Count(s, p) <= Count(s, q)
  {
    if s != [] {
      CountMonotone(s[..|s| - 1], p, q);
    }
  }

  lemma {:induction false} CountStrict<T>(s: seq<T>, p: T -> bool, q: T -> bool, w: T)
    requires forall x :: x in s && p(x) ==> q(x)
    requires w in s && q(w) && !p(w)
    ensures Count(s, p) < Count(s, q)
  {
    var init := s[..|s| - 1];
    assert s == init + [s[|s| - 1]];
    if w in init {
      CountStrict(init, p, q, w);
    } else {
      CountMonotone(init, p, q);
    }
  }

  lemma {:induction false} CountNone<T>(s: seq<T>, p: T -> bool)
    requires forall x :: x in s ==> !p(x)
    ensures Count(s, p) == 0
  {
    if s != [] {
      CountNone(s[..|s| - 1], p);
    }
  }

  lemma {:induction false} CountCover<T>(s: seq<T>, p: T -> bool, q: T -> bool, r: T -> bool)
    requires forall x :: x in s && p(x) ==> q(x) || r(x)
    ensures Count(s, p) <= Count(s, q) + Count(s, r)
  {
    if s != [] {
      CountCover(s[..|s| - 1], p, q, r);
    }
  }

  lemma SumAppend<T>(s: seq<T>, x: T, weight: T -> nat)
    ensures Sum(s + [x], weight) == Sum(s, weight) + weight(x)
  {
    assert (s + [x])[..|s|] == s;
  }

  /** Replacing one element moves the sum by the difference of the two weights. */
  lemma {:induction false} SumUpdate<T>(s: seq<T>, i: nat, x: T, weight: T -> nat)
    requires i < |s|
    ensures Sum(s[i := x], weight) + weight(s[i]) == Sum(s, weight) + weight(x)
  {
    var n := |s| - 1;
    if i == n {
      assert s[i := x][..n] == s[..n];
    } else {
      assert s[i := x][..n] == s[..n][i := x];
      SumUpdate(s[..n], i, x, weight);
    }
  }

  lemma {:induction false} CountUpdate<T>(s: seq<T>, i: nat, x: T, p: T -> bool)
    requires i < |s|
    ensures Count(s[i := x], p) + (if p(s[i]) then 1 else 0) == Count(s, p) + (if p(x) then 1 else 0)
  {
    var n := |s| - 1;
    if i == n {
      assert s[i := x][..n] == s[..n];
    } else {
      assert s[i := x][..n] == s[..n][i := x];
      CountUpdate(s[..n], i, x, p);
    }
  }

  lemma ConcatAppend<T>(parts: seq<seq<T>>, x: seq<T>)
    ensures Concat(parts + [x]) == Concat(parts) + x
  {
    assert (parts + [x])[..|parts|] == parts;
  }

  /** Trimming to the last n after each append keeps the last n of everything. */
  lemma LastNAppend<T>(s: seq<T>, x: T, n: nat)
    ensures LastN(LastN(s, n) + [x], n) == LastN(s + [x], n)
  {
    if |s| > n {
      assert LastN(s, n) + [x] == (s + [x])[|s| - n..];
    }
  }

  /** The elements of a occur in b in the same order. */
  predicate Subsequence<T(==)>(a: seq<T>, b: seq<T>)
    decreases |b|
  {
    if a == [] then true
    else if b == [] then false
    else if a[|a| - 1] == b[|b| - 1] then Subsequence(a[..|a| - 1], b[..|b| - 1])
    else Subsequence(a, b[..|b| - 1])
  }

  lemma {:induction false} SubsequenceInit<T>(a: seq<T>, b: seq<T>)
    requires a != [] && Subsequence(a, b)
    ensures Subsequence(a[..|a| - 1], b)
    decreases |b|
  {
    var a', b' := a[..|a| - 1], b[..|b| - 1];
    if a' != [] {
      if a[|a| - 1] == b[|b| - 1] {
        if a'[|a'| - 1] == b[|b| - 1] {
          SubsequenceInit(a', b');
        }
      } else {
        SubsequenceInit(a, b');
        if a'[|a'| - 1] == b[|b| - 1] {
          SubsequenceInit(a', b');
        }
      }
    }
  }

  lemma SubsequenceExtend<T>(a: seq<T>, b: seq<T>, x: T)
    requires Subsequence(a, b)
    ensures Subsequence(a + [x], b + [x]) && Subsequence(a, b + [x])
  {
    assert (a + [x])[..|a|] == a && (b + [x])[..|b|] == b;
    if a != [] && a[|a| - 1] == x {
      SubsequenceInit(a, b);
    }
  }

  lemma {:induction false} CountConcat<T>(a: seq<T>, b: seq<T>, p: T -> bool)
    ensures Count(a + b, p) == Count(a, p) + Count(b, p)
  {
    if b == [] {
      assert a + b == a;
    } else {
      var n := |b| - 1;
      CountConcat(a, b[..n], p);
      assert a + b == (a + b[..n]) + [b[n]] && b == b[..n] + [b[n]];
      CountAppend(a + b[..n], b[n], p);
      CountAppend(b[..n], b[n], p);
    }
  }

  lemma SubsetSize<T>(a: set<T>, b: set<T>)
    requires a <= b
    ensures |a| <= |b|
  {
    assert b == a + (b - a);
  }

  lemma {:induction false} AtMostOne<T>(s: seq<T>, p: T -> bool)
    requires forall i, j | 0 <= i < j < |s| :: !(p(s[i]) && p(s[j]))
    ensures Count(s, p) <= 1
  {
    if s != [] {
      var n := |s| - 1;
      AtMostOne(s[..n], p);
      if p(s[n]) {
        CountNone(s[..n], p);
      }
    }
  }

  /** zs is xs and ys merged, each in its own order. */
  predicate Merge<T(==)>(xs: seq<T>, ys: seq<T>, zs: seq<T>)
    decreases |zs|
  {
    if zs == [] then xs == [] && ys == []
    else
      var n := |zs| - 1;
      || (xs != [] && xs[|xs| - 1] == zs[n] && Merge(xs[..|xs| - 1], ys, zs[..n]))
      || (ys != [] && ys[|ys| - 1] == zs[n] && Merge(xs, ys[..|ys| - 1], zs[..n]))
  }

  lemma MergeLast<T>(xs: seq<T>, ys: seq<T>, zs: seq<T>, z: T)
    requires Merge(xs, ys, zs)
    ensures Merge(xs + [z], ys, zs + [z]) && Merge(xs, ys + [z], zs + [z])
  {
    assert (xs + [z])[..|xs|] == xs && (ys + [z])[..|ys|] == ys && (zs + [z])[..|zs|] == zs;
  }

  lemma {:induction false} MergeMembers<T>(xs: seq<T>, ys: seq<T>, zs: seq<T>)
    requires Merge(xs, ys, zs)
    ensures forall z :: z in zs <==> z in xs || z in ys
    decreases |zs|
  {
    if zs != [] {
      var n := |zs| - 1;
      assert zs == zs[..n] + [zs[n]];
      if xs != [] && xs[|xs| - 1] == zs[n] && Merge(xs[..|xs| - 1], ys, zs[..n]) {
        MergeMembers(xs[..|xs| - 1], ys, zs[..n]);
        assert xs == xs[..|xs| - 1] + [zs[n]];
      } else {
        MergeMembers(xs, ys[..|ys| - 1], zs[..n]);
        assert ys == ys[..|ys| - 1] + [zs[n]];
      }
    }
  }

  lemma {:induction false} MergeFilters<T>(xs: seq<T>, ys: seq<T>, zs: seq<T>, keep: T -> bool)
    requires Merge(xs, ys, zs)
    ensures Merge(Filter(xs, keep), Filter(ys, keep), Filter(zs, keep))
    decreases |zs|
  {
    if zs != [] {
      var n := |zs| - 1;
      var kept := Filter(zs[..n], keep);
      if xs != [] && xs[|xs| - 1] == zs[n] && Merge(xs[..|xs| - 1], ys, zs[..n]) {
        MergeFilters(xs[..|xs| - 1], ys, zs[..n], keep);
        if keep(zs[n]) {
          MergeLast(Filter(xs[..|xs| - 1], keep), Filter(ys, keep), kept, zs[n]);
        }
      } else {
        MergeFilters(xs, ys[..|ys| - 1], zs[..n], keep);
        if keep(zs[n]) {
          MergeLast(Filter(xs, keep), Filter(ys[..|ys| - 1], keep), kept, zs[n]);
        }
      }
    }
  }

  lemma {:induction false} OneSided<T>(xs: seq<T>)
    ensures Merge(xs, [], xs) && Merge([], xs, xs)
  {
    if xs != [] {
      OneSided(xs[..|xs| - 1]);
    }
  }

  lemma {:induction false} MergeConcat<T>(xs: seq<T>, ys: seq<T>, zs: seq<T>, xs': seq<T>, ys': seq<T>, zs': seq<T>)
    requires Merge(xs, ys, zs) && Merge(xs', ys', zs')
    ensures Merge(xs + xs', ys + ys', zs + zs')
    decreases |zs'|
  {
    if zs' == [] {
      assert xs + xs' == xs && ys + ys' == ys && zs + zs' == zs;
    } else {
      var n := |zs'| - 1;
      assert (zs + zs')[..|zs + zs'| - 1] == zs + zs'[..n];
      if xs' != [] && xs'[|xs'| - 1] == zs'[n] && Merge(xs'[..|xs'| - 1], ys', zs'[..n]) {
        MergeConcat(xs, ys, zs, xs'[..|xs'| - 1], ys', zs'[..n]);
        assert (xs + xs')[..|xs + xs'| - 1] == xs + xs'[..|xs'| - 1];
      } else {
        MergeConcat(xs, ys, zs, xs', ys'[..|ys'| - 1], zs'[..n]);
        assert (ys + ys')[..|ys + ys'| - 1] == ys + ys'[..|ys'| - 1];
      }
    }
  }

  /** One stretch of each after the other. */
  lemma InTurn<T>(xs: seq<T>, ys: seq<T>)
    ensures Merge(xs, ys, xs + ys)
  {
    OneSided(xs);
    OneSided(ys);
    MergeConcat(xs, [], xs, [], ys, ys);
    assert xs + [] == xs && [] + ys == ys;
  }

  predicate IsSuffix<T(==)>(a: seq<T>, b: seq<T>) { |a| <= |b| && b[|b| - |a|..] == a }

  lemma {:induction false} SuffixFiltered<T>(a: seq<T>, b: seq<T>, keep: T -> bool)
    requires IsSuffix(a, b)
    ensures IsSuffix(Filter(a, keep), Filter(b, keep))
  {
    var front := b[..|b| - |a|];
    assert b == front + a;
    FilterConcat(front, a, keep);
  }

  lemma UnionSize<T>(a: set<T>, b: set<T>)
    ensures |a + b| <= |a| + |b|
    ensures |a + b| == |a| + |b| ==> a !! b
  {
    assert a + b == a + (b - a) && b == (b - a) + (b * a);
    assert |a + b| == |a| + |b - a| && |b| == |b - a| + |b * a|;
  }

  lemma UnionApart<T>(a: set<T>, b: set<T>)
    ensures a !! b ==> |a + b| == |a| + |b|
  {
  }
}
