/** Removal from sequences: by a condition, by position, and the loops that do it. */
module Lists {
  function Filter<T>(s: seq<T>, keep: T -> bool): seq<T>
    decreases |s|
  {
    if s == [] then [] else (if keep(s[0]) then [s[0]] else []) + Filter(s[1..], keep)
  }

  /** Filtering twice is filtering by both conditions. */
  lemma {:induction false} FilterFilter<T>(s: seq<T>, first: T -> bool, second: T -> bool, both: T -> bool)
    requires forall x <- s :: both(x) <==> first(x) && second(x)
    ensures Filter(Filter(s, first), second) == Filter(s, both)
    decreases |s|
  {
    if s != [] {
      FilterFilter(s[1..], first, second, both);
      var rest := Filter(s[1..], first);
      assert s[0] in s;
      if first(s[0]) {
        assert Filter(s, first) == [s[0]] + rest && ([s[0]] + rest)[1..] == rest;
      } else {
        assert Filter(s, first) == rest;
      }
    }
  }

  lemma {:induction false} FilterSame<T>(s: seq<T>, one: T -> bool, other: T -> bool)
    requires forall x <- s :: one(x) <==> other(x)
    ensures Filter(s, one) == Filter(s, other)
    decreases |s|
  {
    if s != [] {
      FilterSame(s[1..], one, other);
    }
  }

  lemma {:induction false} FilterAll<T>(s: seq<T>, keep: T -> bool)
    requires forall x <- s :: keep(x)
    ensures Filter(s, keep) == s
    decreases |s|
  {
    if s != [] {
      FilterAll(s[1..], keep);
    }
  }

  /** A filtered sequence holds each element that is kept as often as before, and no other. */
  lemma {:induction false} FilterCounts<T>(s: seq<T>, keep: T -> bool, x: T)
    ensures multiset(Filter(s, keep))[x] == if keep(x) then multiset(s)[x] else 0
    decreases |s|
  {
    if s != [] {
      assert s == [s[0]] + s[1..];
      FilterCounts(s[1..], keep, x);
    }
  }

  lemma FilterMembers<T>(s: seq<T>, keep: T -> bool, x: T)
    ensures x in Filter(s, keep) <==> x in s && keep(x)
  {
  }

  /** A backward loop that cuts out elements one by one filters, and keeps the order. */
  method FilterBackward<T>(s: seq<T>, keep: T -> bool) returns (r: seq<T>)
    ensures r == Filter(s, keep)
  {
    r := s;
    for i := |s| downto 0
      invariant r == s[..i] + Filter(s[i..], keep)
    {
      assert s[i..][0] == s[i] && s[i..][1..] == s[i + 1..];
      if !keep(s[i]) {
        r := r[..i] + r[i + 1..];
      }
    }
  }

  /** The elements whose position, counted from `base`, is not dropped. */
  function KeepPositions<T>(s: seq<T>, drop: set<int>, base: int): seq<T>
    decreases |s|
  {
    if s == [] then [] else (if base in drop then [] else [s[0]]) + KeepPositions(s[1..], drop, base + 1)
  }

  lemma {:induction false} KeepAll<T>(s: seq<T>, drop: set<int>, base: int)
    requires forall d <- drop :: d < base || d >= base + |s|
    ensures KeepPositions(s, drop, base) == s
    decreases |s|
  {
    if s != [] {
      KeepAll(s[1..], drop, base + 1);
    }
  }

  lemma {:induction false} KeepAgrees<T>(s: seq<T>, drop: set<int>, other: set<int>, base: int)
    requires forall p :: base <= p ==> (p in drop <==> p in other)
    ensures KeepPositions(s, drop, base) == KeepPositions(s, other, base)
    decreases |s|
  {
    if s != [] {
      KeepAgrees(s[1..], drop, other, base + 1);
    }
  }

  /** Cutting out a position below all those dropped so far drops just that one too. */
  lemma {:induction false} CutOne<T>(s: seq<T>, drop: set<int>, base: int, k: nat)
    requires k < |s| && forall d <- drop :: d > base + k
    ensures
      var r := KeepPositions(s, drop, base);
      k < |r| && r[..k] + r[k + 1..] == KeepPositions(s, drop + {base + k}, base)
    decreases |s|
  {
    var rest := KeepPositions(s[1..], drop, base + 1);
    assert KeepPositions(s, drop, base) == [s[0]] + rest;
    if k == 0 {
      KeepAgrees(s[1..], drop, drop + {base}, base + 1);
    } else {
      CutOne(s[1..], drop, base + 1, k - 1);
      assert drop + {base + 1 + (k - 1)} == drop + {base + k};
      CutBehind(s[0], rest, k);
    }
  }

  lemma CutBehind<T>(x: T, rest: seq<T>, k: nat)
    requires 0 < k <= |rest|
    ensures ([x] + rest)[..k] + ([x] + rest)[k + 1..] == [x] + (rest[..k - 1] + rest[k..])
  {
  }

  /** Dropping the positions at which a condition fails is filtering by it. */
  lemma {:induction false} PositionsAreFilter<T>(s: seq<T>, drop: set<int>, base: int, keep: T -> bool)
    requires forall p :: 0 <= p < |s| ==> (base + p in drop <==> !keep(s[p]))
    ensures KeepPositions(s, drop, base) == Filter(s, keep)
    decreases |s|
  {
    if s != [] {
      assert base + 0 in drop <==> !keep(s[0]);
      forall p | 0 <= p < |s| - 1 ensures base + 1 + p in drop <==> !keep(s[1..][p]) {
        assert base + (p + 1) in drop <==> !keep(s[p + 1]);
      }
      PositionsAreFilter(s[1..], drop, base + 1, keep);
    }
  }

  // ------------------------------------------------------------------- sorting

  ghost predicate Ordered<T(!new)>(s: seq<T>, before: (T, T) -> bool) {
    forall i, j :: 0 <= i < j < |s| ==> before(s[i], s[j])
  }

  ghost predicate Total<T(!new)>(before: (T, T) -> bool) {
    && (forall x, y :: before(x, y) || before(y, x))
    && (forall x, y, z :: before(x, y) && before(y, z) ==> before(x, z))
  }

  function Insert<T>(s: seq<T>, x: T, before: (T, T) -> bool): (r: seq<T>)
    ensures multiset(r) == multiset(s) + multiset{x}
    decreases |s|
  {
    if s == [] then [x]
    else if before(x, s[0]) then [x] + s
    else
      assert s == [s[0]] + s[1..];
      [s[0]] + Insert(s[1..], x, before)
  }

  lemma {:induction false} InsertOrdered<T(!new)>(s: seq<T>, x: T, before: (T, T) -> bool)
    requires Total(before) && Ordered(s, before)
    ensures Ordered(Insert(s, x, before), before)
    decreases |s|
  {
    if s != [] && !before(x, s[0]) {
      InsertOrdered(s[1..], x, before);
      var rest := Insert(s[1..], x, before);
      forall j | 0 <= j < |rest| ensures before(s[0], rest[j]) {
        assert rest[j] in multiset(rest);
        assert rest[j] in multiset(s[1..]) || rest[j] == x;
        if rest[j] != x {
          var k :| 0 <= k < |s| - 1 && s[1..][k] == rest[j];
          assert before(s[0], s[k + 1]);
        }
      }
    }
  }

  /** The library sort: callers rely on an ordered permutation and no more. */
  method Sort<T(!new)>(s: seq<T>, before: (T, T) -> bool) returns (r: seq<T>)
    requires Total(before)
    ensures Ordered(r, before) && multiset(r) == multiset(s)
  {
    r := [];
    for i := 0 to |s|
      invariant Ordered(r, before) && multiset(r) == multiset(s[..i])
    {
      InsertOrdered(r, s[i], before);
      r := Insert(r, s[i], before);
      assert s[..i + 1] == s[..i] + [s[i]];
    }
    assert s[..|s|] == s;
  }

  function Members(s: seq<int>): set<int> {
    set i | i in s
  }

  /** removeIndexesFromArray: removing in descending order is filtering by position. */
  method RemoveIndexes<T>(s: seq<T>, indexes: seq<int>) returns (r: seq<T>)
    requires forall i <- indexes :: 0 <= i < |s|
    requires forall a, b :: 0 <= a < b < |indexes| ==> indexes[a] != indexes[b]
    ensures r == KeepPositions(s, Members(indexes), 0)
  {
    var down := Sort(indexes, (a, b) => a >= b);
    SameMembers(indexes, down);
    r := s;
    KeepAll(s, Members(down[..0]), 0);
    for k := 0 to |down|
      invariant r == KeepPositions(s, Members(down[..k]), 0)
    {
      ghost var gone := Members(down[..k]);
      assert down[k] in down;
      CutOne(s, gone, 0, down[k]);
      assert down[..k + 1] == down[..k] + [down[k]];
      assert Members(down[..k + 1]) == gone + {down[k]};
      r := r[..down[k]] + r[down[k] + 1..];
    }
    assert down[..|down|] == down;
  }

  /** A descending permutation of distinct numbers is strictly descending. */
  lemma SameMembers(s: seq<int>, r: seq<int>)
    requires multiset(r) == multiset(s) && Ordered(r, (a, b) => a >= b)
    requires forall a, b :: 0 <= a < b < |s| ==> s[a] != s[b]
    ensures (forall x :: x in r <==> x in s) && Members(r) == Members(s)
    ensures forall a, b :: 0 <= a < b < |r| ==> r[a] > r[b]
  {
    forall x ensures x in r <==> x in s {
      assert x in multiset(r) <==> x in multiset(s);
    }
    forall a, b | 0 <= a < b < |r| ensures r[a] > r[b] {
      if r[a] == r[b] {
        CountTwo(r, a, b);
        DistinctCounts(s, r[a]);
      }
    }
  }

  lemma CountTwo<T>(s: seq<T>, a: nat, b: nat)
    requires a < b < |s| && s[a] == s[b]
    ensures multiset(s)[s[a]] >= 2
  {
    assert s == s[..b] + [s[b]] + s[b + 1..];
    assert s[..b][a] == s[b];
  }

  lemma {:induction false} DistinctCounts<T>(s: seq<T>, x: T)
    requires forall a, b :: 0 <= a < b < |s| ==> s[a] != s[b]
    ensures multiset(s)[x] <= 1
    decreases |s|
  {
    if s != [] {
      assert s == [s[0]] + s[1..];
      DistinctCounts(s[1..], x);
      assert s[0] !in s[1..];
    }
  }

  // ------------------------------------------------------- keeping the first ones

  ghost predicate Distinct<T(!new)>(s: seq<T>) {
    forall a, b :: 0 <= a < b < |s| ==> s[a] != s[b]
  }

  /** `chosen` are all but `max` of the elements of a kind, and none of these comes before
      one that is not chosen. */
  ghost predicate LastOnes<T(!new)>(all: seq<T>, kind: T -> bool, before: (T, T) -> bool, max: nat, chosen: seq<T>) {
    var some := Filter(all, kind);
    && (forall x <- chosen :: x in all && kind(x))
    && |chosen| == (if |some| <= max then 0 else |some| - max)
    && Distinct(chosen)
    && (forall kept, gone :: kept in some && kept !in chosen && gone in chosen ==> before(kept, gone))
  }

  lemma PermutationDistinct<T(!new)>(all: seq<T>, kind: T -> bool, sorted: seq<T>)
    requires Distinct(all) && multiset(sorted) == multiset(Filter(all, kind))
    ensures Distinct(sorted) && |sorted| == |Filter(all, kind)| && forall x :: x in sorted <==> x in all && kind(x)
  {
    assert |multiset(sorted)| == |sorted| && |multiset(Filter(all, kind))| == |Filter(all, kind)|;
    forall x ensures x in sorted <==> x in all && kind(x) {
      FilterMembers(all, kind, x);
      assert x in multiset(sorted) <==> x in multiset(Filter(all, kind));
    }
    forall a, b | 0 <= a < b < |sorted| ensures sorted[a] != sorted[b] {
      if sorted[a] == sorted[b] {
        CountTwo(sorted, a, b);
        FilterCounts(all, kind, sorted[a]);
        DistinctCounts(all, sorted[a]);
      }
    }
  }

  /** In an ordered sequence whatever is not among the last comes before whatever is. */
  lemma CutIsOrdered<T(!new)>(sorted: seq<T>, before: (T, T) -> bool, max: nat, kept: T, gone: T)
    requires Ordered(sorted, before) && max < |sorted|
    requires kept in sorted && kept !in sorted[max..] && gone in sorted[max..]
    ensures before(kept, gone)
  {
    assert sorted == sorted[..max] + sorted[max..];
    assert kept in sorted[..max];
    var i :| 0 <= i < max && sorted[i] == kept;
    var j :| 0 <= j < |sorted| - max && sorted[max..][j] == gone;
    assert before(sorted[i], sorted[max + j]);
  }

  /** Cutting an ordered permutation at `max` chooses the last ones. */
  lemma CutIsLast<T(!new)>(all: seq<T>, kind: T -> bool, before: (T, T) -> bool, sorted: seq<T>, max: nat)
    requires Distinct(all) && multiset(sorted) == multiset(Filter(all, kind)) && Ordered(sorted, before) && |sorted| > max
    ensures LastOnes(all, kind, before, max, sorted[max..])
  {
    PermutationDistinct(all, kind, sorted);
    forall kept, gone | kept in Filter(all, kind) && kept !in sorted[max..] && gone in sorted[max..] ensures before(kept, gone) {
      FilterMembers(all, kind, kept);
      CutIsOrdered(sorted, before, max, kept, gone);
    }
  }

  lemma RestOrChosen<T(!new)>(all: seq<T>, kind: T -> bool, rest: T -> bool, before: (T, T) -> bool, max: nat, chosen: seq<T>, x: T)
    requires Distinct(all) && LastOnes(all, kind, before, max, chosen) && forall y :: rest(y) <==> y !in chosen
    ensures multiset(Filter(Filter(all, rest), kind))[x] + multiset(chosen)[x] == multiset(Filter(all, kind))[x]
  {
    FilterCounts(Filter(all, rest), kind, x);
    FilterCounts(all, rest, x);
    FilterCounts(all, kind, x);
    DistinctCounts(all, x);
    DistinctCounts(chosen, x);
    assert x in chosen <==> x in multiset(chosen);
    assert x in all <==> x in multiset(all);
  }

  /** With the last ones gone, at most `max` of the kind are left. */
  lemma RestCount<T(!new)>(all: seq<T>, kind: T -> bool, rest: T -> bool, before: (T, T) -> bool, max: nat, chosen: seq<T>)
    requires Distinct(all) && LastOnes(all, kind, before, max, chosen) && forall y :: rest(y) <==> y !in chosen
    ensures |Filter(Filter(all, rest), kind)| <= max
  {
    var some := Filter(all, kind);
    var left := Filter(Filter(all, rest), kind);
    forall x ensures multiset(left)[x] + multiset(chosen)[x] == multiset(some)[x] {
      RestOrChosen(all, kind, rest, before, max, chosen, x);
    }
    assert multiset(left) + multiset(chosen) == multiset(some);
    assert |multiset(left) + multiset(chosen)| == |left| + |chosen|;
    assert |multiset(some)| == |some|;
  }
}
