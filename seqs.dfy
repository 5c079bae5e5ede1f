/** The array operations the source takes from JavaScript's standard library:
    `filter`, a stable comparator `sort`, `new Set(...)` de-duplication and
    `slice(0, end)`. */
module Seqs {
  import opened Wrappers

  // ---------------------------------------------------------------- filter

  /** `Array.prototype.filter`: the elements satisfying `f`, in their order. */
  function Filter<T(==,!new)>(s: seq<T>, f: T -> bool): (r: seq<T>)
    ensures |r| <= |s|
    ensures forall i :: 0 <= i < |r| ==> f(r[i])
  {
    if s == [] then []
    else
      assert s == [s[0]] + s[1..];
      (if f(s[0]) then [s[0]] else []) + Filter(s[1..], f)
  }

  /** Filtering keeps exactly the passing elements. */
  lemma {:induction false} FilterMembers<T(!new)>(s: seq<T>, f: T -> bool)
    ensures forall x :: x in Filter(s, f) <==> x in s && f(x)
  {
    if s != [] {
      assert s == [s[0]] + s[1..];
      FilterMembers(s[1..], f);
    }
  }

  /** Filtering keeps every passing element as often as it occurs. */
  lemma {:induction false} FilterMultiset<T(!new)>(s: seq<T>, f: T -> bool)
    ensures forall x :: multiset(Filter(s, f))[x] == if f(x) then multiset(s)[x] else 0
  {
    if s != [] {
      assert s == [s[0]] + s[1..];
      FilterMultiset(s[1..], f);
    }
  }

  /** Filtering a one-element sequence. */
  lemma FilterSingleton<T(!new)>(a: T, f: T -> bool)
    ensures Filter([a], f) == if f(a) then [a] else []
  {
    assert [a][1..] == [];
  }

  /** Filtering distributes over concatenation, so it keeps the relative
      order of the elements it keeps. */
  lemma {:induction false} FilterConcat<T(!new)>(a: seq<T>, b: seq<T>, f: T -> bool)
    ensures Filter(a + b, f) == Filter(a, f) + Filter(b, f)
  {
    if a == [] {
      assert a + b == b;
    } else {
      var head := if f(a[0]) then [a[0]] else [];
      assert (a + b)[0] == a[0];
      assert (a + b)[1..] == a[1..] + b;
      FilterConcat(a[1..], b, f);
      calc {
        Filter(a + b, f);
        head + Filter(a[1..] + b, f);
        head + (Filter(a[1..], f) + Filter(b, f));
        (head + Filter(a[1..], f)) + Filter(b, f);
      }
    }
  }

  /** Two filters in a row are one filter by the conjunction. */
  lemma {:induction false} FilterFilter<T(!new)>(s: seq<T>, f: T -> bool, g: T -> bool, h: T -> bool)
    requires forall x :: h(x) == (f(x) && g(x))
    ensures Filter(Filter(s, f), g) == Filter(s, h)
  {
    if s != [] {
      FilterConcat(if f(s[0]) then [s[0]] else [], Filter(s[1..], f), g);
      FilterFilter(s[1..], f, g, h);
    }
  }

  /** A filter that every element passes returns the sequence unchanged. */
  lemma {:induction false} FilterKeepsAll<T(!new)>(s: seq<T>, f: T -> bool)
    requires forall x :: x in s ==> f(x)
    ensures Filter(s, f) == s
  {
    if s != [] {
      FilterKeepsAll(s[1..], f);
    }
  }

  /** A filter that rejects exactly one position deletes that position. */
  lemma {:induction false} FilterDropsOne<T(!new)>(s: seq<T>, i: nat, f: T -> bool)
    requires i < |s| && !f(s[i])
    requires forall k :: 0 <= k < |s| && k != i ==> f(s[k])
    ensures Filter(s, f) == s[..i] + s[i + 1..]
  {
    FilterKeepsSlice(s, 0, i, f);
    assert s[0..i] == s[..i];
    FilterKeepsSlice(s, i + 1, |s|, f);
    assert s[i + 1..|s|] == s[i + 1..];
    FilterAroundRejected(s, i, f);
  }

  lemma {:induction false} FilterAroundRejected<T(!new)>(s: seq<T>, i: nat, f: T -> bool)
    requires i < |s| && !f(s[i])
    requires Filter(s[..i], f) == s[..i]
    requires Filter(s[i + 1..], f) == s[i + 1..]
    ensures Filter(s, f) == s[..i] + s[i + 1..]
  {
    assert s == s[..i] + [s[i]] + s[i + 1..];
    FilterSkipsRejected(s[..i], s[i], s[i + 1..], f);
  }

  /** Filtering around one rejected element. */
  lemma {:induction false} FilterSkipsRejected<T(!new)>(a: seq<T>, x: T, b: seq<T>, f: T -> bool)
    requires !f(x)
    ensures Filter(a + [x] + b, f) == Filter(a, f) + Filter(b, f)
  {
    assert a + [x] + b == a + ([x] + b);
    FilterConcat(a, [x] + b, f);
    FilterConcat([x], b, f);
    FilterSingleton(x, f);
  }

  lemma {:induction false} FilterKeepsSlice<T(!new)>(s: seq<T>, lo: nat, hi: nat, f: T -> bool)
    requires lo <= hi <= |s|
    requires forall k :: lo <= k < hi ==> f(s[k])
    ensures Filter(s[lo..hi], f) == s[lo..hi]
  {
    forall x | x in s[lo..hi] ensures f(x) {
      var k :| 0 <= k < hi - lo && s[lo..hi][k] == x;
      assert s[lo + k] == x;
    }
    FilterKeepsAll(s[lo..hi], f);
  }

  /** Filters that agree on the elements give the same result. */
  lemma {:induction false} FilterSame<T(!new)>(s: seq<T>, f: T -> bool, g: T -> bool)
    requires forall x :: x in s ==> f(x) == g(x)
    ensures Filter(s, f) == Filter(s, g)
  {
    if s != [] {
      FilterSame(s[1..], f, g);
    }
  }

  /** The conjunction of two element tests. */
  function And<T>(f: T -> bool, g: T -> bool): T -> bool {
    x => f(x) && g(x)
  }

  /** One stage of a filter pipeline: applying `l` to what passed `g`, or
      skipping the stage when it imposes no constraint, leaves what passes
      `g` and the stage's test. */
  lemma {:induction false} FilterStage<T(!new)>(s: seq<T>, g: T -> bool, stage: T -> bool, applied: bool, l: T -> bool)
    requires applied ==> forall x :: stage(x) == l(x)
    requires !applied ==> forall x :: stage(x)
    ensures (if applied then Filter(Filter(s, g), l) else Filter(s, g)) == Filter(s, And(g, stage))
  {
    FilterSame(s, And(g, stage), if applied then And(g, l) else g);
    if applied {
      FilterFilter(s, g, l, And(g, l));
    }
  }

  // ------------------------------------------------------------------ find

  /** `findIndex`: the position of the first element passing `p`. */
  function FindIndex<T>(s: seq<T>, p: T -> bool): (r: Option<nat>)
    ensures r.None? <==> forall i :: 0 <= i < |s| ==> !p(s[i])
    ensures r.Some? ==> r.value < |s| && p(s[r.value])
    ensures r.Some? ==> forall j :: 0 <= j < r.value ==> !p(s[j])
  {
    if s == [] then None
    else if p(s[0]) then Some(0)
    else
      match FindIndex(s[1..], p)
      case None =>
        assert forall i :: 1 <= i < |s| ==> s[i] == s[1..][i - 1];
        None
      case Some(k) => Some(k + 1)
  }

  /** The search only looks at what `p` says about each position. */
  lemma {:induction false} FindIndexPointwise<T>(s: seq<T>, t: seq<T>, p: T -> bool, q: T -> bool)
    requires |s| == |t|
    requires forall i :: 0 <= i < |s| ==> p(s[i]) == q(t[i])
    ensures FindIndex(s, p) == FindIndex(t, q)
  {
    if s != [] {
      FindIndexPointwise(s[1..], t[1..], p, q);
    }
  }

  /** Appending an element extends the search only when nothing before
      it passed. */
  lemma {:induction false} FindIndexAppend<T>(s: seq<T>, x: T, p: T -> bool)
    ensures FindIndex(s + [x], p) ==
      if FindIndex(s, p).Some? then FindIndex(s, p) else if p(x) then Some(|s|) else None
  {
    if s != [] {
      assert (s + [x])[1..] == s[1..] + [x];
      FindIndexAppend(s[1..], x, p);
    }
  }

  /** Deleting an element that fails the test shifts a later hit down. */
  lemma {:induction false} FindIndexRemove<T>(s: seq<T>, i: nat, p: T -> bool)
    requires i < |s| && !p(s[i])
    ensures FindIndex(s[..i] + s[i + 1..], p) ==
      match FindIndex(s, p)
      case None => None
      case Some(j) => Some(if j < i then j else j - 1)
  {
    if i == 0 {
      assert s[..i] + s[i + 1..] == s[1..];
    } else {
      var t := s[..i] + s[i + 1..];
      RemoveBehindHead(s, i);
      FindIndexRemove(s[1..], i - 1, p);
      FindIndexCons(t, p);
      FindIndexCons(s, p);
    }
  }

  /** Deleting a position behind the head keeps the head. */
  lemma RemoveBehindHead<T>(s: seq<T>, i: nat)
    requires 0 < i < |s|
    ensures (s[..i] + s[i + 1..])[0] == s[0]
    ensures (s[..i] + s[i + 1..])[1..] == s[1..][..i - 1] + s[1..][i..]
  {
  }

  /** One step of the search. */
  lemma FindIndexCons<T>(s: seq<T>, p: T -> bool)
    requires s != []
    ensures FindIndex(s, p) ==
      if p(s[0]) then Some(0)
      else match FindIndex(s[1..], p)
           case None => None
           case Some(k) => Some(k + 1)
  {
  }

  // ------------------------------------------------------------------ sums

  /** `reduce((total, x) => total + f(x), 0)` over integers. */
  function Sum<T>(s: seq<T>, f: T -> int): int {
    if s == [] then 0 else Sum(s[..|s| - 1], f) + f(s[|s| - 1])
  }

  lemma {:induction false} SumConcat<T>(a: seq<T>, b: seq<T>, f: T -> int)
    ensures Sum(a + b, f) == Sum(a, f) + Sum(b, f)
  {
    if b == [] {
      assert a + b == a;
    } else {
      assert (a + b)[..|a + b| - 1] == a + b[..|b| - 1];
      SumConcat(a, b[..|b| - 1], f);
    }
  }

  /** Replacing one element changes the sum by the difference. */
  lemma {:induction false} SumUpdate<T>(s: seq<T>, i: nat, x: T, f: T -> int)
    requires i < |s|
    ensures Sum(s[i := x], f) == Sum(s, f) - f(s[i]) + f(x)
  {
    assert s == s[..i] + [s[i]] + s[i + 1..];
    assert s[i := x] == s[..i] + [x] + s[i + 1..];
    SumConcat(s[..i] + [s[i]], s[i + 1..], f);
    SumConcat(s[..i], [s[i]], f);
    SumConcat(s[..i] + [x], s[i + 1..], f);
    SumConcat(s[..i], [x], f);
    assert [s[i]][..0] == [] && [x][..0] == [];
  }

  /** Deleting one element subtracts it from the sum. */
  lemma {:induction false} SumRemove<T>(s: seq<T>, i: nat, f: T -> int)
    requires i < |s|
    ensures Sum(s[..i] + s[i + 1..], f) == Sum(s, f) - f(s[i])
  {
    var a, b := s[..i], s[i + 1..];
    assert s == a + ([s[i]] + b);
    SumConcat(a, [s[i]] + b, f);
    SumConcat([s[i]], b, f);
    SumConcat(a, b, f);
    assert Sum([s[i]], f) == f(s[i]) by {
      assert [s[i]][..0] == [];
    }
  }

  /** `reduce((total, x) => total + f(x), 0)` over exact money amounts. */
  function SumReal<T>(s: seq<T>, f: T -> real): real {
    if s == [] then 0.0 else SumReal(s[..|s| - 1], f) + f(s[|s| - 1])
  }

  lemma {:induction false} SumRealConcat<T>(a: seq<T>, b: seq<T>, f: T -> real)
    ensures SumReal(a + b, f) == SumReal(a, f) + SumReal(b, f)
  {
    if b == [] {
      assert a + b == a;
    } else {
      assert (a + b)[..|a + b| - 1] == a + b[..|b| - 1];
      SumRealConcat(a, b[..|b| - 1], f);
    }
  }

  lemma {:induction false} SumRealUpdate<T>(s: seq<T>, i: nat, x: T, f: T -> real)
    requires i < |s|
    ensures SumReal(s[i := x], f) == SumReal(s, f) - f(s[i]) + f(x)
  {
    assert s == s[..i] + [s[i]] + s[i + 1..];
    assert s[i := x] == s[..i] + [x] + s[i + 1..];
    SumRealConcat(s[..i] + [s[i]], s[i + 1..], f);
    SumRealConcat(s[..i], [s[i]], f);
    SumRealConcat(s[..i] + [x], s[i + 1..], f);
    SumRealConcat(s[..i], [x], f);
    assert [s[i]][..0] == [] && [x][..0] == [];
  }

  /** Sums with the same summand on every element agree. */
  lemma {:induction false} SumRealPointwise<T, U>(s: seq<T>, f: T -> real, t: seq<U>, g: U -> real)
    requires |s| == |t|
    requires forall i :: 0 <= i < |s| ==> f(s[i]) == g(t[i])
    ensures SumReal(s, f) == SumReal(t, g)
  {
    if s != [] {
      SumRealPointwise(s[..|s| - 1], f, t[..|t| - 1], g);
    }
  }

  /** Summing the filtered elements is summing every element with the
      rejected ones counted as zero. */
  lemma {:induction false} SumRealFilter<T(!new)>(s: seq<T>, p: T -> bool, f: T -> real, g: T -> real)
    requires forall x :: g(x) == if p(x) then f(x) else 0.0
    ensures SumReal(Filter(s, p), f) == SumReal(s, g)
  {
    if s != [] {
      assert s == [s[0]] + s[1..];
      SumRealFilter(s[1..], p, f, g);
      SumRealConcat([s[0]], s[1..], g);
      SumRealConcat(if p(s[0]) then [s[0]] else [], Filter(s[1..], p), f);
      assert [s[0]][..0] == [];
    }
  }

  // ------------------------------------------------------------ stable sort

  /** A comparator in the sense of `Array.prototype.sort` (a non-positive
      result lets `a` stay before `b`) that is a total preorder on the
      elements of `s`. */
  ghost predicate Preorder<T(!new)>(cmp: (T, T) -> int, s: seq<T>) {
    && (forall a, b :: a in s && b in s ==> cmp(a, b) <= 0 || cmp(b, a) <= 0)
    && (forall a, b, c :: a in s && b in s && c in s && cmp(a, b) <= 0 && cmp(b, c) <= 0 ==> cmp(a, c) <= 0)
  }

  /** A preorder on `s` is a preorder on every sequence drawn from `s`. */
  lemma {:induction false} PreorderOnPart<T(!new)>(cmp: (T, T) -> int, s: seq<T>, t: seq<T>)
    requires Preorder(cmp, s)
    requires forall x :: x in t ==> x in s
    ensures Preorder(cmp, t)
  {
  }

  /** A preorder on `s` is one on any rearrangement of `s`. */
  lemma {:induction false} PreorderPermuted<T(!new)>(cmp: (T, T) -> int, s: seq<T>, t: seq<T>)
    requires Preorder(cmp, s)
    requires multiset(t) == multiset(s)
    ensures Preorder(cmp, t)
  {
    forall x | x in t ensures x in s {
      assert x in multiset(t);
    }
    PreorderOnPart(cmp, s, t);
  }

  /** `s` is in the order `cmp` asks for. */
  ghost predicate Sorted<T>(cmp: (T, T) -> int, s: seq<T>) {
    forall i, j :: 0 <= i < j < |s| ==> cmp(s[i], s[j]) <= 0
  }

  /** Puts `x` in front of the first element it may precede. */
  function Insert<T(==,!new)>(x: T, s: seq<T>, cmp: (T, T) -> int): (r: seq<T>)
    ensures multiset(r) == multiset(s) + multiset{x}
    ensures |r| == |s| + 1
  {
    if s == [] || cmp(x, s[0]) <= 0 then [x] + s
    else
      assert s == [s[0]] + s[1..];
      [s[0]] + Insert(x, s[1..], cmp)
  }

  /** The stable sort `Array.prototype.sort` performs with a comparator:
      insertion sort, where an element is inserted in front of every later
      element it is not greater than. */
  function SortBy<T(==,!new)>(s: seq<T>, cmp: (T, T) -> int): (r: seq<T>)
    ensures multiset(r) == multiset(s)
    ensures |r| == |s|
  {
    if s == [] then []
    else
      assert s == [s[0]] + s[1..];
      Insert(s[0], SortBy(s[1..], cmp), cmp)
  }

  /** An element below everything in a sorted sequence may go in front. */
  lemma {:induction false} SortedCons<T>(cmp: (T, T) -> int, a: T, t: seq<T>)
    requires Sorted(cmp, t)
    requires forall k :: 0 <= k < |t| ==> cmp(a, t[k]) <= 0
    ensures Sorted(cmp, [a] + t)
  {
    var r := [a] + t;
    forall i, j | 0 <= i < j < |r| ensures cmp(r[i], r[j]) <= 0 {
      if i == 0 {
        assert r[j] == t[j - 1];
      } else {
        assert r[i] == t[i - 1] && r[j] == t[j - 1];
      }
    }
  }

  lemma {:induction false} InsertSorted<T(!new)>(x: T, s: seq<T>, cmp: (T, T) -> int)
    requires Sorted(cmp, s)
    requires Preorder(cmp, [x] + s)
    ensures Sorted(cmp, Insert(x, s, cmp))
  {
    if s == [] || cmp(x, s[0]) <= 0 {
      forall k | 0 <= k < |s| ensures cmp(x, s[k]) <= 0 {
        if k > 0 {
          assert x in [x] + s && s[0] in [x] + s && s[k] in [x] + s;
        }
      }
      SortedCons(cmp, x, s);
    } else {
      PreorderOnPart(cmp, [x] + s, [x] + s[1..]);
      InsertSorted(x, s[1..], cmp);
      var t := Insert(x, s[1..], cmp);
      assert cmp(s[0], x) <= 0 by {
        assert x in [x] + s && s[0] in [x] + s;
      }
      forall k | 0 <= k < |t| ensures cmp(s[0], t[k]) <= 0 {
        var y := t[k];
        assert y in multiset(t);
        if y != x {
          assert y in multiset(s[1..]);
          var m :| 0 <= m < |s[1..]| && s[1..][m] == y;
          assert s[m + 1] == y;
        }
      }
      SortedCons(cmp, s[0], t);
    }
  }

  /** Sorting keeps exactly the elements it was given. */
  lemma SortByMembers<T(!new)>(s: seq<T>, cmp: (T, T) -> int)
    ensures forall x :: x in SortBy(s, cmp) <==> x in s
  {
    var r := SortBy(s, cmp);
    forall x ensures x in r <==> x in s {
      assert x in r <==> x in multiset(r);
      assert x in s <==> x in multiset(s);
    }
  }

  /** Under a consistent comparator the sort result is ordered. */
  lemma {:induction false} SortBySorted<T(!new)>(s: seq<T>, cmp: (T, T) -> int)
    requires Preorder(cmp, s)
    ensures Sorted(cmp, SortBy(s, cmp))
  {
    if s != [] {
      PreorderOnPart(cmp, s, s[1..]);
      SortBySorted(s[1..], cmp);
      var t := SortBy(s[1..], cmp);
      forall y | y in [s[0]] + t ensures y in s {
        if y != s[0] {
          assert y in multiset(t);
        }
      }
      PreorderOnPart(cmp, s, [s[0]] + t);
      InsertSorted(s[0], t, cmp);
    }
  }

  /** The elements the comparator cannot tell apart from `e`. */
  function EquivTo<T>(cmp: (T, T) -> int, e: T): T -> bool {
    y => cmp(y, e) <= 0 && cmp(e, y) <= 0
  }

  /** Elements the comparator keeps strictly apart are not both equivalent
      to the same element. */
  lemma {:induction false} NotBothEquivalent<T(!new)>(cmp: (T, T) -> int, s: seq<T>, x: T, y: T, e: T)
    requires Preorder(cmp, s)
    requires x in s && y in s && e in s
    requires cmp(x, y) > 0
    ensures !(EquivTo(cmp, e)(x) && EquivTo(cmp, e)(y))
  {
  }

  lemma {:induction false} SwapAroundEmpty<T>(a: seq<T>, b: seq<T>, c: seq<T>)
    requires a == [] || b == []
    ensures b + (a + c) == a + (b + c)
  {
    if a == [] {
      assert a + c == c;
    } else {
      assert b + c == c;
    }
  }

  lemma {:induction false} FilterInsert<T(!new)>(x: T, t: seq<T>, cmp: (T, T) -> int, e: T)
    requires Preorder(cmp, [x] + t + [e])
    ensures Filter(Insert(x, t, cmp), EquivTo(cmp, e)) == Filter([x], EquivTo(cmp, e)) + Filter(t, EquivTo(cmp, e))
  {
    var P := EquivTo(cmp, e);
    if t == [] || cmp(x, t[0]) <= 0 {
      FilterConcat([x], t, P);
    } else {
      var u := Insert(x, t[1..], cmp);
      assert Insert(x, t, cmp) == [t[0]] + u;
      PreorderOnPart(cmp, [x] + t + [e], [x] + t[1..] + [e]);
      FilterInsert(x, t[1..], cmp, e);
      FilterConcat([t[0]], u, P);
      assert t == [t[0]] + t[1..];
      FilterConcat([t[0]], t[1..], P);
      assert x in [x] + t + [e] && t[0] in [x] + t + [e] && e in [x] + t + [e];
      NotBothEquivalent(cmp, [x] + t + [e], x, t[0], e);
      var A, B, C := Filter([x], P), Filter([t[0]], P), Filter(t[1..], P);
      FilterSingleton(x, P);
      FilterSingleton(t[0], P);
      SwapAroundEmpty(A, B, C);
      calc {
        Filter(Insert(x, t, cmp), P);
        B + Filter(u, P);
        B + (A + C);
        A + (B + C);
        A + Filter(t, P);
      }
    }
  }

  /** The sort is stable: the elements of each equivalence class of the
      comparator keep their input order. */
  lemma {:induction false} SortByStable<T(!new)>(s: seq<T>, cmp: (T, T) -> int, e: T)
    requires Preorder(cmp, s + [e])
    ensures Filter(SortBy(s, cmp), EquivTo(cmp, e)) == Filter(s, EquivTo(cmp, e))
  {
    if s != [] {
      var P := EquivTo(cmp, e);
      var t := SortBy(s[1..], cmp);
      PreorderOnPart(cmp, s + [e], s[1..] + [e]);
      SortByStable(s[1..], cmp, e);
      assert s == [s[0]] + s[1..];
      assert multiset([s[0]] + t + [e]) == multiset(s + [e]);
      PreorderPermuted(cmp, s + [e], [s[0]] + t + [e]);
      FilterInsert(s[0], t, cmp, e);
      FilterConcat([s[0]], s[1..], P);
      calc {
        Filter(SortBy(s, cmp), P);
        Filter(Insert(s[0], t, cmp), P);
        Filter([s[0]], P) + Filter(t, P);
        Filter([s[0]], P) + Filter(s[1..], P);
        Filter(s, P);
      }
    }
  }

  // ------------------------------------------------------------ de-duplication

  predicate NoDuplicates<T(==,!new)>(s: seq<T>) {
    forall i, j :: 0 <= i < j < |s| ==> s[i] != s[j]
  }

  /** The position of the first occurrence of `x`. */
  function IndexOf<T(==,!new)>(s: seq<T>, x: T): (k: nat)
    requires x in s
    ensures k < |s| && s[k] == x
    ensures forall j :: 0 <= j < k ==> s[j] != x
  {
    if s[0] == x then 0 else 1 + IndexOf(s[1..], x)
  }

  /** `[...new Set(s)]`: each element once, where it first occurs. */
  function Distinct<T(==,!new)>(s: seq<T>): (r: seq<T>)
    ensures NoDuplicates(r)
    ensures forall x :: x in r <==> x in s
    decreases |s|
  {
    if s == [] then []
    else
      var d := Distinct(s[..|s| - 1]);
      var last := s[|s| - 1];
      assert s == s[..|s| - 1] + [last];
      if last in d then d else d + [last]
  }

  lemma {:induction false} IndexOfInPrefix<T(!new)>(p: seq<T>, z: T, y: T)
    requires y in p
    ensures IndexOf(p + [z], y) == IndexOf(p, y)
  {
    assert (p + [z])[IndexOf(p, y)] == y;
  }

  /** The de-duplicated list follows the order of first occurrences. */
  lemma {:induction false} DistinctInFirstOccurrenceOrder<T(!new)>(s: seq<T>)
    ensures forall i, j :: 0 <= i < j < |Distinct(s)| ==>
      IndexOf(s, Distinct(s)[i]) < IndexOf(s, Distinct(s)[j])
    decreases |s|
  {
    if s != [] {
      var p, last := s[..|s| - 1], s[|s| - 1];
      var d := Distinct(p);
      assert s == p + [last];
      DistinctInFirstOccurrenceOrder(p);
      forall y | y in p ensures IndexOf(s, y) == IndexOf(p, y) {
        IndexOfInPrefix(p, last, y);
      }
      if last !in d {
        assert IndexOf(s, last) == |p|;
        var r := d + [last];
        forall i, j | 0 <= i < j < |r| ensures IndexOf(s, r[i]) < IndexOf(s, r[j]) {
          assert r[i] == d[i] && r[i] in p;
          if j < |d| {
            assert r[j] == d[j] && r[j] in p;
          }
        }
      } else {
        forall i, j | 0 <= i < j < |d| ensures IndexOf(s, d[i]) < IndexOf(s, d[j]) {
          assert d[i] in p && d[j] in p;
        }
      }
    }
  }

  // ------------------------------------------------------------------ slice

  /** `s.slice(0, end)`: a negative `end` counts from the back. */
  function SliceFromStart<T>(s: seq<T>, end: int): (r: seq<T>)
    ensures |r| <= |s| && r == s[..|r|]
    ensures end >= 0 ==> |r| == if end < |s| then end else |s|
    ensures end < 0 ==> |r| == if |s| + end < 0 then 0 else |s| + end
  {
    if end < 0 then s[..if |s| + end < 0 then 0 else |s| + end]
    else s[..if end < |s| then end else |s|]
  }
}
