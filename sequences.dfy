/**
 * Sequence operations that the source takes from its libraries: pandas
 * `head(n)` / list slicing `[:n]`, and the stable sort of Python's
 * `list.sort` and of an SQL ORDER BY, modelled as an insertion sort that is
 * proved sorted, a permutation of its input, and stable.
 */
module Sequences {
  import opened Wrappers

  /** `s[:n]` / `df.head(n)`: at most the first n elements. */
  function Take<T>(s: seq<T>, n: nat): (r: seq<T>)
    ensures |r| <= n && |r| <= |s|
    ensures |s| <= n ==> r == s
    ensures r <= s
  {
    if |s| <= n then s else s[..n]
  }

  /** Take keeps n elements when there are that many. */
  lemma TakeLength<T>(s: seq<T>, n: nat)
    ensures |Take(s, n)| == if |s| <= n then |s| else n
  {
  }

  /** `le` is a total preorder: any two elements compare, and comparison chains. */
  ghost predicate TotalPreorder<T(!new)>(le: (T, T) -> bool) {
    && (forall a, b :: le(a, b) || le(b, a))
    && (forall a, b, c :: le(a, b) && le(b, c) ==> le(a, c))
  }

  predicate SortedBy<T>(s: seq<T>, le: (T, T) -> bool) {
    forall i, j :: 0 <= i < j < |s| ==> le(s[i], s[j])
  }

  /** Inserts x after every element that is not greater than it. */
  function Insert<T>(x: T, s: seq<T>, le: (T, T) -> bool): (r: seq<T>)
    ensures multiset(r) == multiset(s) + multiset{x}
    ensures |r| == |s| + 1
  {
    if s == [] then [x]
    else if le(s[0], x) then
      assert s == [s[0]] + s[1..];
      [s[0]] + Insert(x, s[1..], le)
    else [x] + s
  }

  /** Stable sort: each element in turn is inserted after its equals. */
  function SortBy<T>(s: seq<T>, le: (T, T) -> bool): (r: seq<T>)
    ensures multiset(r) == multiset(s)
    ensures |r| == |s|
  {
    if s == [] then []
    else
      assert s == s[..|s| - 1] + [s[|s| - 1]];
      Insert(s[|s| - 1], SortBy(s[..|s| - 1], le), le)
  }

  lemma {:induction false} InsertSorted<T(!new)>(x: T, s: seq<T>, le: (T, T) -> bool)
    requires TotalPreorder(le) && SortedBy(s, le)
    ensures SortedBy(Insert(x, s, le), le)
    decreases |s|
  {
    if s != [] {
      if le(s[0], x) {
        var t := Insert(x, s[1..], le);
        assert SortedBy(s[1..], le);
        InsertSorted(x, s[1..], le);
        forall k | 0 <= k < |s[1..]| ensures le(s[0], s[1..][k]) {
          assert s[1..][k] == s[k + 1];
        }
        InsertBounded(x, s[1..], s[0], le);
        SortedCons(s[0], t, le);
        assert Insert(x, s, le) == [s[0]] + t;
      } else {
        assert le(x, s[0]);
        forall k | 0 <= k < |s| ensures le(x, s[k]) {
          assert k == 0 || le(s[0], s[k]);
        }
        SortedCons(x, s, le);
      }
    }
  }

  /** A lower bound of x and of every element of s bounds every element of the insertion. */
  lemma {:induction false} InsertBounded<T>(x: T, s: seq<T>, lo: T, le: (T, T) -> bool)
    requires le(lo, x) && forall k :: 0 <= k < |s| ==> le(lo, s[k])
    ensures forall k :: 0 <= k < |Insert(x, s, le)| ==> le(lo, Insert(x, s, le)[k])
    decreases |s|
  {
    var r := Insert(x, s, le);
    if s == [] {
      assert r == [x];
    } else if le(s[0], x) {
      InsertBounded(x, s[1..], lo, le);
      var t := Insert(x, s[1..], le);
      assert r == [s[0]] + t;
      forall k | 0 <= k < |r| ensures le(lo, r[k]) {
        if k > 0 {
          assert r[k] == t[k - 1];
        }
      }
    } else {
      assert r == [x] + s;
      forall k | 0 <= k < |r| ensures le(lo, r[k]) {
        if k > 0 {
          assert r[k] == s[k - 1];
        }
      }
    }
  }

  /** A sorted sequence stays sorted behind a lower bound of all its elements. */
  lemma SortedCons<T>(a: T, t: seq<T>, le: (T, T) -> bool)
    requires SortedBy(t, le) && forall k :: 0 <= k < |t| ==> le(a, t[k])
    ensures SortedBy([a] + t, le)
  {
    var r := [a] + t;
    forall i, j | 0 <= i < j < |r| ensures le(r[i], r[j]) {
      assert r[j] == t[j - 1];
      if i > 0 {
        assert r[i] == t[i - 1];
      }
    }
  }

  lemma {:induction false} SortBySorted<T(!new)>(s: seq<T>, le: (T, T) -> bool)
    requires TotalPreorder(le)
    ensures SortedBy(SortBy(s, le), le)
  {
    if s != [] {
      SortBySorted(s[..|s| - 1], le);
      InsertSorted(s[|s| - 1], SortBy(s[..|s| - 1], le), le);
    }
  }

  predicate Equivalent<T>(a: T, b: T, le: (T, T) -> bool) {
    le(a, b) && le(b, a)
  }

  /** The elements of s that compare equal to y, in their order in s. */
  function EquivalentsOf<T>(s: seq<T>, y: T, le: (T, T) -> bool): seq<T> {
    if s == [] then []
    else (if Equivalent(s[0], y, le) then [s[0]] else []) + EquivalentsOf(s[1..], y, le)
  }

  lemma {:induction false} EquivalentsAppend<T>(a: seq<T>, b: seq<T>, y: T, le: (T, T) -> bool)
    ensures EquivalentsOf(a + b, y, le) == EquivalentsOf(a, y, le) + EquivalentsOf(b, y, le)
  {
    if a != [] {
      assert (a + b)[1..] == a[1..] + b;
      EquivalentsAppend(a[1..], b, y, le);
    } else {
      assert a + b == b;
    }
  }

  lemma {:induction false} NoEquivalents<T>(s: seq<T>, y: T, le: (T, T) -> bool)
    requires forall k :: 0 <= k < |s| ==> !Equivalent(s[k], y, le)
    ensures EquivalentsOf(s, y, le) == []
  {
    if s != [] {
      NoEquivalents(s[1..], y, le);
    }
  }

  lemma {:induction false} InsertStable<T(!new)>(x: T, s: seq<T>, y: T, le: (T, T) -> bool)
    requires TotalPreorder(le) && SortedBy(s, le)
    ensures EquivalentsOf(Insert(x, s, le), y, le)
         == EquivalentsOf(s, y, le) + (if Equivalent(x, y, le) then [x] else [])
    decreases |s|
  {
    if s == [] {
    } else if le(s[0], x) {
      assert SortedBy(s[1..], le);
      InsertStable(x, s[1..], y, le);
      InsertStableBehind(x, s, y, le);
    } else {
      InsertStableAhead(x, s, y, le);
    }
  }

  /** x goes behind the head: the head's equivalents come first. */
  lemma InsertStableBehind<T>(x: T, s: seq<T>, y: T, le: (T, T) -> bool)
    requires s != [] && le(s[0], x)
    requires EquivalentsOf(Insert(x, s[1..], le), y, le)
          == EquivalentsOf(s[1..], y, le) + (if Equivalent(x, y, le) then [x] else [])
    ensures EquivalentsOf(Insert(x, s, le), y, le)
         == EquivalentsOf(s, y, le) + (if Equivalent(x, y, le) then [x] else [])
  {
    var t := Insert(x, s[1..], le);
    var e0 := if Equivalent(s[0], y, le) then [s[0]] else [];
    var ex := if Equivalent(x, y, le) then [x] else [];
    assert Insert(x, s, le) == [s[0]] + t;
    EquivalentsCons(s[0], t, y, le);
    AppendAssoc(e0, EquivalentsOf(s[1..], y, le), ex);
  }

  /** EquivalentsOf unfolded once on a sequence built by a cons. */
  lemma EquivalentsCons<T>(a: T, t: seq<T>, y: T, le: (T, T) -> bool)
    ensures EquivalentsOf([a] + t, y, le) == (if Equivalent(a, y, le) then [a] else []) + EquivalentsOf(t, y, le)
  {
    assert ([a] + t)[1..] == t;
  }

  lemma AppendAssoc<T>(a: seq<T>, b: seq<T>, c: seq<T>)
    ensures a + (b + c) == (a + b) + c
  {
  }

  /** x goes in front: then nothing in s is equivalent to it. */
  lemma InsertStableAhead<T(!new)>(x: T, s: seq<T>, y: T, le: (T, T) -> bool)
    requires TotalPreorder(le) && SortedBy(s, le)
    requires s != [] && !le(s[0], x)
    ensures EquivalentsOf(Insert(x, s, le), y, le)
         == EquivalentsOf(s, y, le) + (if Equivalent(x, y, le) then [x] else [])
  {
    assert Insert(x, s, le) == [x] + s;
    assert ([x] + s)[1..] == s;
    if Equivalent(x, y, le) {
      forall k | 0 <= k < |s| ensures !Equivalent(s[k], y, le) {
        assert k == 0 || le(s[0], s[k]);
      }
      NoEquivalents(s, y, le);
    }
  }

  lemma EquivalentsSnoc<T>(init: seq<T>, last: T, y: T, le: (T, T) -> bool)
    ensures EquivalentsOf(init + [last], y, le)
         == EquivalentsOf(init, y, le) + (if Equivalent(last, y, le) then [last] else [])
  {
    EquivalentsAppend(init, [last], y, le);
    assert [last][1..] == [];
  }

  /** One step of SortBy: the last element inserted into the sorted rest. */
  lemma SortBySnoc<T>(s: seq<T>, le: (T, T) -> bool)
    requires s != []
    ensures SortBy(s, le) == Insert(s[|s| - 1], SortBy(s[..|s| - 1], le), le)
  {
  }

  /** Stability: equal elements leave the sort in the order they came in. */
  lemma {:induction false} SortByStable<T(!new)>(s: seq<T>, y: T, le: (T, T) -> bool)
    requires TotalPreorder(le)
    ensures EquivalentsOf(SortBy(s, le), y, le) == EquivalentsOf(s, y, le)
    decreases |s|
  {
    if s != [] {
      var init, last := s[..|s| - 1], s[|s| - 1];
      var sorted := SortBy(init, le);
      SortByStable(init, y, le);
      SortBySorted(init, le);
      InsertStable(last, sorted, y, le);
      SortBySnoc(s, le);
      EquivalentsLast(s, y, le);
    }
  }

  lemma EquivalentsLast<T>(s: seq<T>, y: T, le: (T, T) -> bool)
    requires s != []
    ensures EquivalentsOf(s, y, le)
         == EquivalentsOf(s[..|s| - 1], y, le) + (if Equivalent(s[|s| - 1], y, le) then [s[|s| - 1]] else [])
  {
    EquivalentsSnoc(s[..|s| - 1], s[|s| - 1], y, le);
    assert s[..|s| - 1] + [s[|s| - 1]] == s;
  }

  /** The elements satisfying p, in their original order (`filter`). */
  function Filter<T>(s: seq<T>, p: T -> bool): (r: seq<T>)
    ensures |r| <= |s|
    ensures forall i :: 0 <= i < |r| ==> p(r[i])
  {
    if s == [] then []
    else
      assert s == s[..|s| - 1] + [s[|s| - 1]];
      Filter(s[..|s| - 1], p) + (if p(s[|s| - 1]) then [s[|s| - 1]] else [])
  }

  lemma {:induction false} FilterAppend<T>(a: seq<T>, b: seq<T>, p: T -> bool)
    ensures Filter(a + b, p) == Filter(a, p) + Filter(b, p)
    decreases |b|
  {
    if b == [] {
      assert a + b == a;
    } else {
      var b' := b[..|b| - 1];
      assert (a + b)[..|a + b| - 1] == a + b';
      FilterAppend(a, b', p);
    }
  }

  /** The sum of f over the elements. */
  function SumOf<T>(s: seq<T>, f: T -> real): real {
    if s == [] then 0.0 else SumOf(s[..|s| - 1], f) + f(s[|s| - 1])
  }

  /** The number of elements satisfying p. */
  function Count<T>(s: seq<T>, p: T -> bool): (n: nat)
    ensures n <= |s|
  {
    if s == [] then 0 else Count(s[..|s| - 1], p) + (if p(s[|s| - 1]) then 1 else 0)
  }

  lemma {:induction false} SumOfAppend<T>(a: seq<T>, b: seq<T>, f: T -> real)
    ensures SumOf(a + b, f) == SumOf(a, f) + SumOf(b, f)
    decreases |b|
  {
    if b == [] {
      assert a + b == a;
    } else {
      var b' := b[..|b| - 1];
      assert (a + b)[..|a + b| - 1] == a + b';
      SumOfAppend(a, b', f);
    }
  }

  lemma {:induction false} CountAppend<T>(a: seq<T>, b: seq<T>, p: T -> bool)
    ensures Count(a + b, p) == Count(a, p) + Count(b, p)
    decreases |b|
  {
    if b == [] {
      assert a + b == a;
    } else {
      var b' := b[..|b| - 1];
      assert (a + b)[..|a + b| - 1] == a + b';
      CountAppend(a, b', p);
    }
  }

  /** Splits b around one occurrence of x, the last element of a. */
  lemma RemoveOne<T>(a: seq<T>, b: seq<T>) returns (i: nat)
    requires a != [] && multiset(a) == multiset(b)
    ensures i < |b| && b[i] == a[|a| - 1]
    ensures multiset(a[..|a| - 1]) == multiset(b[..i] + b[i + 1..])
  {
    var x := a[|a| - 1];
    assert a == a[..|a| - 1] + [x];
    assert x in multiset(b);
    var k :| 0 <= k < |b| && b[k] == x;
    i := k;
    assert b == b[..i] + [x] + b[i + 1..];
    assert multiset(b) == multiset(b[..i] + b[i + 1..]) + multiset{x};
    assert multiset(a) == multiset(a[..|a| - 1]) + multiset{x};
    assert multiset(b[..i] + b[i + 1..]) == multiset(b) - multiset{x};
    assert multiset(a[..|a| - 1]) == multiset(a) - multiset{x};
  }

  /** A sum does not depend on the order of the elements. */
  lemma {:induction false} SumOfPermutation<T>(a: seq<T>, b: seq<T>, f: T -> real)
    requires multiset(a) == multiset(b)
    ensures SumOf(a, f) == SumOf(b, f)
    decreases |a|
  {
    if a == [] {
      assert |b| == |multiset(b)| == 0;
    } else {
      var i := RemoveOne(a, b);
      var rest := b[..i] + b[i + 1..];
      SumOfPermutation(a[..|a| - 1], rest, f);
      assert b == b[..i] + [b[i]] + b[i + 1..];
      SumOfAppend(b[..i] + [b[i]], b[i + 1..], f);
      SumOfAppend(b[..i], [b[i]], f);
      SumOfAppend(b[..i], b[i + 1..], f);
      assert SumOf([b[i]], f) == f(b[i]) by {
        assert [b[i]][..0] == [];
      }
    }
  }

  /** A count does not depend on the order of the elements. */
  lemma {:induction false} CountPermutation<T>(a: seq<T>, b: seq<T>, p: T -> bool)
    requires multiset(a) == multiset(b)
    ensures Count(a, p) == Count(b, p)
    decreases |a|
  {
    if a == [] {
      assert |b| == |multiset(b)| == 0;
    } else {
      var i := RemoveOne(a, b);
      var rest := b[..i] + b[i + 1..];
      CountPermutation(a[..|a| - 1], rest, p);
      assert b == b[..i] + [b[i]] + b[i + 1..];
      CountAppend(b[..i] + [b[i]], b[i + 1..], p);
      CountAppend(b[..i], [b[i]], p);
      CountAppend(b[..i], b[i + 1..], p);
      assert Count([b[i]], p) == (if p(b[i]) then 1 else 0) by {
        assert [b[i]][..0] == [];
      }
    }
  }

  /** Filtering keeps everything when every element passes. */
  lemma {:induction false} FilterAll<T>(s: seq<T>, p: T -> bool)
    requires forall i :: 0 <= i < |s| ==> p(s[i])
    ensures Filter(s, p) == s
    decreases |s|
  {
    if s != [] {
      FilterAll(s[..|s| - 1], p);
      assert s == s[..|s| - 1] + [s[|s| - 1]];
    }
  }

  /** `map` followed by a filter of the null results. */
  function FilterMap<A, B>(s: seq<A>, f: A -> Option<B>): (r: seq<B>)
    ensures |r| <= |s|
  {
    if s == [] then []
    else
      FilterMap(s[..|s| - 1], f)
      + (match f(s[|s| - 1]) case Some(b) => [b] case None => [])
  }

  lemma {:induction false} FilterMapAppend<A, B>(a: seq<A>, b: seq<A>, f: A -> Option<B>)
    ensures FilterMap(a + b, f) == FilterMap(a, f) + FilterMap(b, f)
    decreases |b|
  {
    if b == [] {
      assert a + b == a;
    } else {
      var b' := b[..|b| - 1];
      assert (a + b)[..|a + b| - 1] == a + b';
      FilterMapAppend(a, b', f);
    }
  }

  /** One result per element that does not map to null. */
  lemma {:induction false} FilterMapCount<A, B>(s: seq<A>, f: A -> Option<B>, p: A -> bool)
    requires forall i :: 0 <= i < |s| ==> (f(s[i]).Some? <==> p(s[i]))
    ensures |FilterMap(s, f)| == Count(s, p)
    decreases |s|
  {
    if s != [] {
      FilterMapCount(s[..|s| - 1], f, p);
    }
  }

  /** Every result is the image of some element, and they keep their order. */
  lemma {:induction false} FilterMapImages<A, B>(s: seq<A>, f: A -> Option<B>, q: B -> bool)
    requires forall i :: 0 <= i < |s| && f(s[i]).Some? ==> q(f(s[i]).value)
    ensures forall j :: 0 <= j < |FilterMap(s, f)| ==> q(FilterMap(s, f)[j])
    decreases |s|
  {
    if s != [] {
      FilterMapImages(s[..|s| - 1], f, q);
    }
  }

  /** One loop step of a sum over a prefix. */
  lemma SumOfSnoc<T>(s: seq<T>, i: nat, f: T -> real)
    requires i < |s|
    ensures SumOf(s[..i + 1], f) == SumOf(s[..i], f) + f(s[i])
  {
    assert s[..i + 1][..i] == s[..i];
  }

  /** One loop step of a count over a prefix. */
  lemma CountSnoc<T>(s: seq<T>, i: nat, p: T -> bool)
    requires i < |s|
    ensures Count(s[..i + 1], p) == Count(s[..i], p) + (if p(s[i]) then 1 else 0)
  {
    assert s[..i + 1][..i] == s[..i];
  }

  /** One loop step of a FilterMap over a prefix. */
  lemma FilterMapSnoc<A, B>(s: seq<A>, i: nat, f: A -> Option<B>)
    requires i < |s|
    ensures FilterMap(s[..i + 1], f)
         == FilterMap(s[..i], f) + (match f(s[i]) case Some(b) => [b] case None => [])
  {
    assert s[..i + 1][..i] == s[..i];
  }

  /** Filtering drops everything when no element passes. */
  lemma {:induction false} FilterNone<T>(s: seq<T>, p: T -> bool)
    requires forall i :: 0 <= i < |s| ==> !p(s[i])
    ensures Filter(s, p) == []
    decreases |s|
  {
    if s != [] {
      FilterNone(s[..|s| - 1], p);
    }
  }

  /** `s[:n]` is the first n elements of s, whatever follows them. */
  lemma TakeAppend<T>(s: seq<T>, t: seq<T>, n: nat)
    requires n <= |s|
    ensures Take(s + t, n) == Take(s, n)
  {
    assert (s + t)[..n] == s[..n];
  }

  /** What `s[:n]` leaves out: s is the kept prefix followed by the rest. */
  lemma TakeSplit<T>(s: seq<T>, n: nat)
    ensures s == Take(s, n) + s[|Take(s, n)|..]
    ensures multiset(s) == multiset(Take(s, n)) + multiset(s[|Take(s, n)|..])
  {
    assert s == Take(s, n) + s[|Take(s, n)|..];
  }

  /** An element survives filtering exactly when it is in s and passes. */
  lemma {:induction false} FilterIn<T>(s: seq<T>, p: T -> bool, x: T)
    ensures x in Filter(s, p) <==> x in s && p(x)
    decreases |s|
  {
    if s != [] {
      var init := s[..|s| - 1];
      FilterIn(init, p, x);
      assert s == init + [s[|s| - 1]];
    }
  }

  /** Results of f and elements satisfying a disjoint p together number at most |s|. */
  lemma {:induction false} FilterMapAndCount<A, B>(s: seq<A>, f: A -> Option<B>, p: A -> bool)
    requires forall i :: 0 <= i < |s| && f(s[i]).Some? ==> !p(s[i])
    ensures |FilterMap(s, f)| + Count(s, p) <= |s|
    decreases |s|
  {
    if s != [] {
      FilterMapAndCount(s[..|s| - 1], f, p);
    }
  }

  /** No results when f maps every element to None. */
  lemma {:induction false} FilterMapNone<A, B>(s: seq<A>, f: A -> Option<B>)
    requires forall i :: 0 <= i < |s| ==> f(s[i]).None?
    ensures FilterMap(s, f) == []
    decreases |s|
  {
    if s != [] {
      FilterMapNone(s[..|s| - 1], f);
    }
  }
}
