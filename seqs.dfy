/**
  Generic list operations that the store and the pages use through JavaScript's
  Array methods: findIndex/find, filter, filter(...).length, splice at the found
  index, Set-based de-duplication and the (stable) sort.
 */
module Seqs {
  import opened Wrappers

  // ---------------------------------------------------------------------------
  // findIndex / find
  // ---------------------------------------------------------------------------

  /** Array.prototype.findIndex, with None standing for -1. */
  function FindIndex<T>(s: seq<T>, p: T -> bool): (r: Option<nat>)
    ensures r.Some? ==> r.value < |s| && p(s[r.value])
    ensures r.Some? ==> forall j :: 0 <= j < r.value ==> !p(s[j])
    ensures r.None? <==> forall j :: 0 <= j < |s| ==> !p(s[j])
  {
    if |s| == 0 then None
    else if p(s[0]) then Some(0)
    else match FindIndex(s[1..], p)
      case None => None
      case Some(k) => Some(k + 1)
  }

  /** Array.prototype.find: the first element satisfying p. */
  function Find<T>(s: seq<T>, p: T -> bool): (r: Option<T>)
    ensures r.None? <==> forall j :: 0 <= j < |s| ==> !p(s[j])
    ensures r.Some? ==> exists i :: 0 <= i < |s| && s[i] == r.value && p(s[i]) &&
                                   forall j :: 0 <= j < i ==> !p(s[j])
  {
    match FindIndex(s, p)
    case None => None
    case Some(i) => Some(s[i])
  }

  // ---------------------------------------------------------------------------
  // filter and counting
  // ---------------------------------------------------------------------------

  /** Array.prototype.filter. */
  function Filter<T>(s: seq<T>, p: T -> bool): seq<T> {
    if s == [] then []
    else if p(s[0]) then [s[0]] + Filter(s[1..], p)
    else Filter(s[1..], p)
  }

  lemma {:induction false} FilterLength<T>(s: seq<T>, p: T -> bool)
    ensures |Filter(s, p)| <= |s|
  {
    if s != [] {
      FilterLength(s[1..], p);
    }
  }

  /** The filter keeps exactly the elements that satisfy p. */
  lemma {:induction false} FilterMembers<T>(s: seq<T>, p: T -> bool)
    ensures forall x :: x in Filter(s, p) ==> x in s && p(x)
    ensures forall x :: x in s && p(x) ==> x in Filter(s, p)
  {
    if s != [] {
      FilterMembers(s[1..], p);
      assert s == [s[0]] + s[1..];
    }
  }

  /** `s.filter(p).length` */
  function Count<T>(s: seq<T>, p: T -> bool): nat {
    |Filter(s, p)|
  }

  lemma {:induction false} FilterConcat<T>(a: seq<T>, b: seq<T>, p: T -> bool)
    ensures Filter(a + b, p) == Filter(a, p) + Filter(b, p)
  {
    if a == [] {
      assert a + b == b;
    } else {
      assert (a + b)[1..] == a[1..] + b;
      FilterConcat(a[1..], b, p);
    }
  }

  /** Filtering one more element at the end: what the grouping loops rely on. */
  lemma {:induction false} FilterSnoc<T>(s: seq<T>, x: T, p: T -> bool)
    ensures Filter(s + [x], p) == Filter(s, p) + (if p(x) then [x] else [])
  {
    FilterConcat(s, [x], p);
    assert [x][1..] == [];
  }

  /** A filter that keeps everything is the identity. */
  lemma {:induction false} FilterAll<T>(s: seq<T>, p: T -> bool)
    requires forall x :: x in s ==> p(x)
    ensures Filter(s, p) == s
  {
    if s != [] {
      FilterAll(s[1..], p);
    }
  }

  /** A filter that keeps nothing yields []. */
  lemma {:induction false} FilterNone<T>(s: seq<T>, p: T -> bool)
    requires forall x :: x in s ==> !p(x)
    ensures Filter(s, p) == []
  {
    if s != [] {
      FilterNone(s[1..], p);
    }
  }

  /** Filters with the same verdict on every element of s agree. */
  lemma {:induction false} FilterSameOn<T>(s: seq<T>, p: T -> bool, q: T -> bool)
    requires forall x :: x in s ==> p(x) == q(x)
    ensures Filter(s, p) == Filter(s, q)
  {
    if s != [] {
      FilterSameOn(s[1..], p, q);
    }
  }

  /** Filtering twice with the same predicate changes nothing the second time. */
  lemma {:induction false} FilterIdempotent<T>(s: seq<T>, p: T -> bool)
    ensures Filter(Filter(s, p), p) == Filter(s, p)
  {
    var f := Filter(s, p);
    FilterMembers(s, p);
    FilterAll(f, p);
  }

  /** Count of a stronger predicate is at most the count of a weaker one. */
  lemma {:induction false} CountMonotone<T>(s: seq<T>, p: T -> bool, q: T -> bool)
    requires forall x :: x in s && p(x) ==> q(x)
    ensures Count(s, p) <= Count(s, q)
  {
    if s != [] {
      CountMonotone(s[1..], p, q);
    }
  }

  /** Two predicates that no element satisfies together count at most |s| in all. */
  lemma {:induction false} CountDisjoint<T>(s: seq<T>, p: T -> bool, q: T -> bool)
    requires forall x :: x in s ==> !(p(x) && q(x))
    ensures Count(s, p) + Count(s, q) <= |s|
  {
    if s != [] {
      CountDisjoint(s[1..], p, q);
    }
  }

  /** The filter keeps every copy of an accepted element and no copy of a
      rejected one. */
  lemma {:induction false} FilterMultiset<T>(s: seq<T>, p: T -> bool)
    ensures forall x :: multiset(Filter(s, p))[x] == if p(x) then multiset(s)[x] else 0
  {
    if s != [] {
      FilterMultiset(s[1..], p);
      assert s == [s[0]] + s[1..];
      assert multiset(s) == multiset{s[0]} + multiset(s[1..]);
    }
  }

  /** The positions of s whose element satisfies p. */
  ghost function Indices<T>(s: seq<T>, p: T -> bool): set<int> {
    set i | 0 <= i < |s| && p(s[i])
  }

  /** The count is the number of positions whose element satisfies p. */
  lemma {:induction false} CountIndices<T>(s: seq<T>, p: T -> bool)
    ensures Count(s, p) == |Indices(s, p)|
    decreases |s|
  {
    if s == [] {
      assert Indices(s, p) == {};
    } else {
      var t, x := s[..|s| - 1], s[|s| - 1];
      assert s == t + [x];
      CountIndices(t, p);
      FilterSnoc(t, x, p);
      var last: set<int> := if p(x) then {|t|} else {};
      assert Indices(s, p) == Indices(t, p) + last by {
        forall i | i in Indices(s, p) ensures i in Indices(t, p) + last {
          if i < |t| {
            assert t[i] == s[i];
          }
        }
        forall i | i in Indices(t, p) ensures i in Indices(s, p) {
          assert t[i] == s[i];
        }
      }
      assert Indices(t, p) * last == {};
    }
  }

  /** Both predicates hold. */
  function Both<T>(p: T -> bool, q: T -> bool): T -> bool {
    x => p(x) && q(x)
  }

  /** Filtering twice is filtering once by both predicates. */
  lemma {:induction false} FilterFilter<T>(s: seq<T>, p: T -> bool, q: T -> bool)
    ensures Filter(Filter(s, p), q) == Filter(s, Both(p, q))
  {
    if s != [] {
      FilterFilter(s[1..], p, q);
      if p(s[0]) {
        assert Filter(s, p) == [s[0]] + Filter(s[1..], p);
        assert ([s[0]] + Filter(s[1..], p))[1..] == Filter(s[1..], p);
      }
    }
  }

  /** Counting q within p's matches counts the positions where both hold. */
  lemma {:induction false} CountWithin<T>(s: seq<T>, p: T -> bool, q: T -> bool)
    ensures Count(Filter(s, p), q) == |Indices(s, Both(p, q))|
  {
    FilterFilter(s, p, q);
    CountIndices(s, Both(p, q));
  }

  /** The count is zero exactly when no element satisfies p. */
  lemma {:induction false} CountZero<T>(s: seq<T>, p: T -> bool)
    ensures Count(s, p) <= |s|
    ensures Count(s, p) == 0 <==> forall x :: x in s ==> !p(x)
  {
    var f := Filter(s, p);
    FilterLength(s, p);
    FilterMembers(s, p);
    assert f != [] ==> f[0] in f;
  }

  /** Counting over a concatenation. */
  lemma {:induction false} CountConcat<T>(a: seq<T>, b: seq<T>, p: T -> bool)
    ensures Count(a + b, p) == Count(a, p) + Count(b, p)
  {
    FilterConcat(a, b, p);
  }

  // ---------------------------------------------------------------------------
  // order-preserving subsequences
  // ---------------------------------------------------------------------------

  /** a can be obtained from b by deleting elements (order is kept). */
  ghost predicate SubsequenceOf<T>(a: seq<T>, b: seq<T>)
    decreases |b|
  {
    if a == [] then true
    else if b == [] then false
    else (a[0] == b[0] && SubsequenceOf(a[1..], b[1..])) || SubsequenceOf(a, b[1..])
  }

  lemma {:induction false} FilterIsSubsequence<T>(s: seq<T>, p: T -> bool)
    ensures SubsequenceOf(Filter(s, p), s)
    decreases |s|
  {
    if s != [] {
      FilterIsSubsequence(s[1..], p);
      var rest := Filter(s[1..], p);
      if p(s[0]) {
        assert Filter(s, p) == [s[0]] + rest;
        assert ([s[0]] + rest)[1..] == rest;
      } else {
        assert Filter(s, p) == rest;
        if rest != [] {
          assert SubsequenceOf(rest, s[1..]);
        }
      }
    }
  }

  // ---------------------------------------------------------------------------
  // replacing / removing the first match (index assignment and splice)
  // ---------------------------------------------------------------------------

  /** `const i = s.findIndex(p); if (i !== -1) s[i] = f(s[i])` */
  function UpdateFirst<T>(s: seq<T>, p: T -> bool, f: T -> T): seq<T> {
    match FindIndex(s, p)
    case None => s
    case Some(i) => s[i := f(s[i])]
  }

  /** `const i = s.findIndex(p); if (i !== -1) s.splice(i, 1)` */
  function RemoveFirst<T>(s: seq<T>, p: T -> bool): seq<T> {
    match FindIndex(s, p)
    case None => s
    case Some(i) => s[..i] + s[i + 1..]
  }

  /** The complement of a predicate. */
  function Not<T>(p: T -> bool): T -> bool {
    x => !p(x)
  }

  /** After `push(x)`, findIndex still returns the earlier match when there is
      one: appending never shadows an existing element. */
  lemma {:induction false} FindAfterAppend<T>(s: seq<T>, x: T, p: T -> bool)
    ensures FindIndex(s + [x], p) ==
            if FindIndex(s, p).Some? then FindIndex(s, p)
            else if p(x) then Some(|s|) else None
  {
    var t := s + [x];
    assert forall j :: 0 <= j < |s| ==> t[j] == s[j];
    assert t[|s|] == x;
  }

  /** Index assignment at the found position keeps the length and every other
      element, and puts f's image of the old element there. */
  lemma {:induction false} UpdateFirstShape<T>(s: seq<T>, p: T -> bool, f: T -> T)
    ensures |UpdateFirst(s, p, f)| == |s|
    ensures FindIndex(s, p).None? ==> UpdateFirst(s, p, f) == s
    ensures FindIndex(s, p).Some? ==>
              var i := FindIndex(s, p).value;
              UpdateFirst(s, p, f)[i] == f(s[i]) &&
              forall j :: 0 <= j < |s| && j != i ==> UpdateFirst(s, p, f)[j] == s[j]
  {
  }

  /** When the updated element still satisfies p, a later lookup by p finds it
      at the same position. */
  lemma {:induction false} UpdateFirstFound<T>(s: seq<T>, p: T -> bool, f: T -> T)
    requires FindIndex(s, p).Some?
    requires p(f(s[FindIndex(s, p).value]))
    ensures FindIndex(UpdateFirst(s, p, f), p) == FindIndex(s, p)
    ensures Find(UpdateFirst(s, p, f), p) == Some(f(s[FindIndex(s, p).value]))
  {
    var i := FindIndex(s, p).value;
    var t := UpdateFirst(s, p, f);
    assert forall j :: 0 <= j < i ==> t[j] == s[j];
    assert p(t[i]);
    assert FindIndex(t, p).value == i;
  }

  /** Splitting a filter around one position. */
  lemma {:induction false} FilterAround<T>(s: seq<T>, i: nat, p: T -> bool)
    requires i < |s|
    ensures Filter(s, p) == Filter(s[..i], p) + (if p(s[i]) then [s[i]] else []) + Filter(s[i + 1..], p)
  {
    var a, c := s[..i], s[i..];
    assert s == a + c;
    FilterConcat(a, c, p);
    assert c[1..] == s[i + 1..];
  }

  /** Removing the first match lowers the number of matches by exactly one and
      keeps every non-matching element, in order. */
  lemma {:induction false} RemoveFirstCounts<T>(s: seq<T>, p: T -> bool)
    ensures FindIndex(s, p).Some? ==> Count(RemoveFirst(s, p), p) == Count(s, p) - 1
    ensures FindIndex(s, p).None? ==> RemoveFirst(s, p) == s
    ensures Filter(RemoveFirst(s, p), Not(p)) == Filter(s, Not(p))
  {
    match FindIndex(s, p)
    case None =>
    case Some(i) =>
      assert RemoveFirst(s, p) == s[..i] + s[i + 1..];
      SpliceMatch(s, i, p);
  }

  /** Splicing out a matching position i lowers the matches by one and keeps
      every non-matching element. */
  lemma {:induction false} SpliceMatch<T>(s: seq<T>, i: nat, p: T -> bool)
    requires i < |s| && p(s[i])
    ensures |Filter(s[..i] + s[i + 1..], p)| == |Filter(s, p)| - 1
    ensures Filter(s[..i] + s[i + 1..], Not(p)) == Filter(s, Not(p))
  {
    var front, back := s[..i], s[i + 1..];
    FilterAround(s, i, p);
    FilterConcat(front, back, p);
    FilterAround(s, i, Not(p));
    assert !Not(p)(s[i]);
    FilterConcat(front, back, Not(p));
  }

  /** No element of t satisfies p, so filtering out p's matches keeps t whole. */
  lemma {:induction false} FilterNoMatch<T>(t: seq<T>, p: T -> bool)
    requires forall x :: x in t ==> !p(x)
    ensures Filter(t, Not(p)) == t
  {
    assert forall x :: x in t ==> Not(p)(x);
    FilterAll(t, Not(p));
  }

  /** Filtering out the matches around the only match at i leaves the
      elements on either side of it. */
  lemma {:induction false} FilterAroundOnlyMatch<T>(s: seq<T>, p: T -> bool, i: nat)
    requires i < |s| && p(s[i])
    requires forall k :: 0 <= k < |s| && k != i ==> !p(s[k])
    ensures Filter(s, Not(p)) == s[..i] + s[i + 1..]
  {
    var q := Not(p);
    var front, back := s[..i], s[i + 1..];
    forall x | x in front ensures !p(x) {
      var k :| 0 <= k < |front| && front[k] == x;
      assert s[k] == x;
    }
    forall x | x in back ensures !p(x) {
      var k :| 0 <= k < |back| && back[k] == x;
      assert s[i + 1 + k] == x;
    }
    FilterNoMatch(front, p);
    FilterNoMatch(back, p);
    assert s == front + ([s[i]] + back);
    FilterConcat(front, [s[i]] + back, q);
    FilterConcat([s[i]], back, q);
    assert Filter([s[i]], q) == [] by {
      assert !q(s[i]);
      assert [s[i]][1..] == [];
    }
  }

  /** When at most one element matches, splicing out the first match is the
      same as filtering every match out. */
  lemma {:induction false} RemoveFirstOfUnique<T>(s: seq<T>, p: T -> bool)
    requires forall i, j :: 0 <= i < j < |s| && p(s[i]) ==> !p(s[j])
    ensures Filter(s, Not(p)) == RemoveFirst(s, p)
  {
    match FindIndex(s, p)
    case None =>
      forall x | x in s ensures !p(x) {
        var k :| 0 <= k < |s| && s[k] == x;
      }
      FilterNoMatch(s, p);
    case Some(i) =>
      FilterAroundOnlyMatch(s, p, i);
  }

  // ---------------------------------------------------------------------------
  // Set-based de-duplication: [...new Set(xs)]
  // ---------------------------------------------------------------------------

  ghost predicate NoDuplicates<T>(s: seq<T>) {
    forall i, j :: 0 <= i < j < |s| ==> s[i] != s[j]
  }

  /** The elements of xs in first-occurrence order, each once. */
  function Dedupe<T(==)>(xs: seq<T>): seq<T>
    decreases |xs|
  {
    if xs == [] then []
    else
      var init := xs[..|xs| - 1];
      var x := xs[|xs| - 1];
      Dedupe(init) + (if x in init then [] else [x])
  }

  /** The position of the first occurrence of x. */
  function IndexOf<T(==)>(xs: seq<T>, x: T): (i: nat)
    requires x in xs
    ensures i < |xs| && xs[i] == x && x !in xs[..i]
  {
    if xs[0] == x then 0 else 1 + IndexOf(xs[1..], x)
  }

  lemma {:induction false} IndexOfPrefix<T>(xs: seq<T>, n: nat, x: T)
    requires n <= |xs| && x in xs[..n]
    ensures IndexOf(xs, x) == IndexOf(xs[..n], x)
  {
    if xs[0] != x {
      assert xs[..n][1..] == xs[1..][..n - 1];
      IndexOfPrefix(xs[1..], n - 1, x);
    }
  }

  /** [...new Set(xs)]: no duplicates, the same elements, and in the order of
      their first occurrences in xs. */
  lemma {:induction false} DedupeSpec<T>(xs: seq<T>)
    ensures NoDuplicates(Dedupe(xs))
    ensures forall x :: x in Dedupe(xs) ==> x in xs
    ensures forall x :: x in xs ==> x in Dedupe(xs)
    ensures forall i, j :: 0 <= i < j < |Dedupe(xs)| ==>
              IndexOf(xs, Dedupe(xs)[i]) < IndexOf(xs, Dedupe(xs)[j])
    decreases |xs|
  {
    if xs != [] {
      var init := xs[..|xs| - 1];
      var x := xs[|xs| - 1];
      DedupeSpec(init);
      var d := Dedupe(init);
      assert xs == init + [x];
      forall y | y in xs ensures y in init || y == x { }
      forall y | y in d ensures IndexOf(xs, y) == IndexOf(init, y) {
        assert y in init;
        IndexOfPrefix(xs, |xs| - 1, y);
      }
      if x !in init {
        assert IndexOf(xs, x) == |xs| - 1 by {
          var k := IndexOf(xs, x);
          assert forall j :: 0 <= j < |xs| - 1 ==> xs[j] == init[j];
        }
        var r := d + [x];
        forall i, j | 0 <= i < j < |r| ensures IndexOf(xs, r[i]) < IndexOf(xs, r[j]) {
          if j < |d| {
            assert r[i] == d[i] && r[j] == d[j];
          } else {
            assert r[i] == d[i];
            assert IndexOf(xs, d[i]) == IndexOf(init, d[i]);
          }
        }
      } else {
        assert Dedupe(xs) == d;
      }
    }
  }

  // ---------------------------------------------------------------------------
  // stable sort by an integer key (Array.prototype.sort with `a.k - b.k`)
  // ---------------------------------------------------------------------------

  ghost predicate SortedBy<T>(s: seq<T>, key: T -> int) {
    forall i, j :: 0 <= i < j < |s| ==> key(s[i]) <= key(s[j])
  }

  /** Inserts x before the first element whose key is not smaller than x's. */
  function Insert<T>(x: T, t: seq<T>, key: T -> int): seq<T> {
    if t == [] then [x]
    else if key(x) <= key(t[0]) then [x] + t
    else [t[0]] + Insert(x, t[1..], key)
  }

  /** Insertion sort: ascending by key, equal keys kept in their input order. */
  function SortBy<T>(s: seq<T>, key: T -> int): seq<T> {
    if s == [] then [] else Insert(s[0], SortBy(s[1..], key), key)
  }

  lemma {:induction false} InsertElements<T>(x: T, t: seq<T>, key: T -> int)
    ensures multiset(Insert(x, t, key)) == multiset(t) + multiset{x}
    ensures |Insert(x, t, key)| == |t| + 1
  {
    if t != [] && key(x) > key(t[0]) {
      InsertElements(x, t[1..], key);
      assert t == [t[0]] + t[1..];
    }
  }

  /** Prepending an element no larger than every element keeps a list sorted. */
  lemma {:induction false} ConsSorted<T>(h: T, t: seq<T>, key: T -> int)
    requires SortedBy(t, key)
    requires forall j :: 0 <= j < |t| ==> key(h) <= key(t[j])
    ensures SortedBy([h] + t, key)
  {
    var r := [h] + t;
    forall i, j | 0 <= i < j < |r| ensures key(r[i]) <= key(r[j]) {
      assert r[j] == t[j - 1];
      if i > 0 {
        assert r[i] == t[i - 1];
      }
    }
  }

  lemma {:induction false} InsertSpec<T>(x: T, t: seq<T>, key: T -> int)
    requires SortedBy(t, key)
    ensures SortedBy(Insert(x, t, key), key)
    ensures multiset(Insert(x, t, key)) == multiset(t) + multiset{x}
  {
    InsertElements(x, t, key);
    if t == [] {
    } else if key(x) <= key(t[0]) {
      forall j | 0 <= j < |t| ensures key(x) <= key(t[j]) {
        if j > 0 {
          assert key(t[0]) <= key(t[j]);
        }
      }
      ConsSorted(x, t, key);
    } else {
      var t' := t[1..];
      assert SortedBy(t', key);
      InsertSpec(x, t', key);
      var r' := Insert(x, t', key);
      forall j | 0 <= j < |r'| ensures key(t[0]) <= key(r'[j]) {
        assert r'[j] in multiset(r');
        if r'[j] != x {
          assert r'[j] in multiset(t');
          var k :| 0 <= k < |t'| && t'[k] == r'[j];
          assert t'[k] == t[k + 1];
        }
      }
      ConsSorted(t[0], r', key);
    }
  }

  /** The sort yields a non-decreasing permutation of its input. */
  lemma {:induction false} SortBySpec<T>(s: seq<T>, key: T -> int)
    ensures SortedBy(SortBy(s, key), key)
    ensures multiset(SortBy(s, key)) == multiset(s)
    ensures |SortBy(s, key)| == |s|
  {
    if s != [] {
      var t := SortBy(s[1..], key);
      SortBySpec(s[1..], key);
      InsertSpec(s[0], t, key);
      InsertElements(s[0], t, key);
      assert multiset(s) == multiset(s[1..]) + multiset{s[0]} by {
        assert s == [s[0]] + s[1..];
      }
    }
  }

  /** Filtering a sorted sequence after inserting x is inserting x (when kept)
      into the filtered sequence. */
  lemma {:induction false} FilterInsert<T>(x: T, t: seq<T>, key: T -> int, p: T -> bool)
    requires SortedBy(t, key)
    ensures Filter(Insert(x, t, key), p) ==
            if p(x) then Insert(x, Filter(t, p), key) else Filter(t, p)
  {
    if t == [] {
      assert [x][1..] == [];
    } else if key(x) <= key(t[0]) {
      assert ([x] + t)[1..] == t;
      var f := Filter(t, p);
      if p(x) && f != [] {
        FilterMembers(t, p);
        assert f[0] in f;
        assert f[0] in t;
        var k :| 0 <= k < |t| && t[k] == f[0];
        assert key(t[0]) <= key(t[k]);
      }
    } else {
      assert SortedBy(t[1..], key);
      FilterInsert(x, t[1..], key, p);
      var r := Insert(x, t[1..], key);
      assert ([t[0]] + r)[1..] == r;
    }
  }

  /** Sorting commutes with filtering: the sorted sub-list of the elements kept
      by p is the sub-list of the sorted list kept by p. */
  lemma {:induction false} FilterSortBy<T>(s: seq<T>, key: T -> int, p: T -> bool)
    ensures Filter(SortBy(s, key), p) == SortBy(Filter(s, p), key)
  {
    if s != [] {
      FilterSortBy(s[1..], key, p);
      SortBySpec(s[1..], key);
      FilterInsert(s[0], SortBy(s[1..], key), key, p);
      if p(s[0]) {
        assert ([s[0]] + Filter(s[1..], p))[1..] == Filter(s[1..], p);
      }
    }
  }

  /** A sequence whose keys are all equal is left as it is. */
  lemma {:induction false} SortByConstant<T>(s: seq<T>, key: T -> int, k: int)
    requires forall i :: 0 <= i < |s| ==> key(s[i]) == k
    ensures SortBy(s, key) == s
  {
    if s != [] {
      SortByConstant(s[1..], key, k);
      assert s == [s[0]] + s[1..];
      if |s| > 1 {
        assert key(s[1]) == k;
      }
    }
  }

  /** Sorting an already sorted list changes nothing (so sorting twice is sorting once). */
  lemma {:induction false} SortBySorted<T>(s: seq<T>, key: T -> int)
    requires SortedBy(s, key)
    ensures SortBy(s, key) == s
  {
    if s != [] {
      assert SortedBy(s[1..], key);
      SortBySorted(s[1..], key);
      assert s == [s[0]] + s[1..];
      if |s| > 1 {
        assert key(s[0]) <= key(s[1]);
      }
    }
  }

  lemma {:induction false} SortByIdempotent<T>(s: seq<T>, key: T -> int)
    ensures SortBy(SortBy(s, key), key) == SortBy(s, key)
  {
    SortBySpec(s, key);
    SortBySorted(SortBy(s, key), key);
  }
}
