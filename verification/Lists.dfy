/** The array operations the services are written with: find, findIndex, filter, flatMap. */
module Lists {
  import opened Wrappers

  /** `s.find(p)`: the first element satisfying `p`. */
  function Find<T>(s: seq<T>, p: T -> bool): (r: Option<T>)
    ensures r.Some? ==> r.value in s && p(r.value)
    ensures r.None? <==> forall x :: x in s ==> !p(x)
  {
    if s == [] then None
    else if p(s[0]) then Some(s[0])
    else Find(s[1..], p)
  }

  /** `s.findIndex(p)`: the first index satisfying `p`, or -1. */
  function FindIndex<T>(s: seq<T>, p: T -> bool): (r: int)
    ensures -1 <= r < |s|
    ensures r >= 0 ==> p(s[r]) && forall k :: 0 <= k < r ==> !p(s[k])
    ensures r == -1 ==> forall k :: 0 <= k < |s| ==> !p(s[k])
  {
    if s == [] then -1
    else if p(s[0]) then 0
    else
      var r := FindIndex(s[1..], p);
      if r == -1 then -1 else r + 1
  }

  /** `s.filter(p)` */
  function Filter<T(!new)>(s: seq<T>, p: T -> bool): (r: seq<T>)
    ensures forall x :: x in r <==> x in s && p(x)
    ensures |r| <= |s|
  {
    if s == [] then []
    else (if p(s[0]) then [s[0]] else []) + Filter(s[1..], p)
  }

  /** `s.map(f)` */
  function Map<T, U>(s: seq<T>, f: T -> U): (r: seq<U>)
    ensures |r| == |s|
    ensures forall i :: 0 <= i < |s| ==> r[i] == f(s[i])
  {
    seq(|s|, i requires 0 <= i < |s| => f(s[i]))
  }

  /** Concatenation of a list of lists, the tail end of `flatMap`. */
  function Flatten<T(!new)>(s: seq<seq<T>>): (r: seq<T>)
    ensures forall x :: x in r <==> exists i :: 0 <= i < |s| && x in s[i]
  {
    if s == [] then [] else s[0] + Flatten(s[1..])
  }

  /** `s.find((x, i) => s.findIndex(y => key(y) === key(x)) !== i)`: the first element that repeats an earlier key. */
  function FindDuplicate<T, K(==)>(s: seq<T>, key: T -> K): (r: Option<T>)
    ensures r.None? <==> Distinct(s, key)
    ensures r.Some? ==> Repeats(s, key, r.value)
  {
    FindDuplicateFrom(s, key, 0)
  }

  function FindDuplicateFrom<T, K(==)>(s: seq<T>, key: T -> K, i: nat): (r: Option<T>)
    requires i <= |s|
    requires forall a, b :: 0 <= a < b < i ==> key(s[a]) != key(s[b])
    ensures r.None? <==> Distinct(s, key)
    ensures r.Some? ==> Repeats(s, key, r.value)
    decreases |s| - i
  {
    if i == |s| then None
    else if FindIndex(s, y => key(y) == key(s[i])) != i then Some(s[i])
    else FindDuplicateFrom(s, key, i + 1)
  }

  /** The element stands behind another one of its key. */
  ghost predicate Repeats<T, K>(s: seq<T>, key: T -> K, x: T) {
    exists i, j :: 0 <= i < j < |s| && s[j] == x && key(s[i]) == key(s[j])
  }

  /** No two positions share a key. */
  ghost predicate Distinct<T, K>(s: seq<T>, key: T -> K) {
    forall i, j :: 0 <= i < j < |s| ==> key(s[i]) != key(s[j])
  }

  /** A search with one possible answer finds it. */
  lemma {:induction false} FindUnique<T>(s: seq<T>, p: T -> bool, k: nat)
    requires k < |s| && p(s[k])
    requires forall i :: 0 <= i < k ==> !p(s[i])
    ensures Find(s, p) == Some(s[k])
  {
    if k > 0 {
      FindUnique(s[1..], p, k - 1);
    }
  }

  /** A filter with one possible answer keeps exactly it. */
  lemma {:induction false} FilterUnique<T(!new)>(s: seq<T>, p: T -> bool, k: nat)
    requires k < |s| && p(s[k])
    requires forall i :: 0 <= i < |s| && i != k ==> !p(s[i])
    ensures Filter(s, p) == [s[k]]
  {
    if k > 0 {
      FilterUnique(s[1..], p, k - 1);
    } else {
      FilterNone(s[1..], p);
    }
  }

  lemma {:induction false} FilterNone<T(!new)>(s: seq<T>, p: T -> bool)
    requires forall i :: 0 <= i < |s| ==> !p(s[i])
    ensures Filter(s, p) == []
  {
    if s != [] {
      FilterNone(s[1..], p);
    }
  }

  /** A search through concatenated lists stops in the only list that has an answer. */
  lemma {:induction false} FindFlat<T(!new)>(blocks: seq<seq<T>>, p: T -> bool, k: nat)
    requires k < |blocks|
    requires forall i, x :: 0 <= i < k && x in blocks[i] ==> !p(x)
    requires Find(blocks[k], p).Some?
    ensures Find(Flatten(blocks), p) == Find(blocks[k], p)
  {
    FindConcat(blocks[0], Flatten(blocks[1..]), p);
    if k > 0 {
      assert forall x :: x in blocks[0] ==> !p(x);
      FindFlat(blocks[1..], p, k - 1);
    }
  }

  lemma {:induction false} FindConcat<T>(a: seq<T>, b: seq<T>, p: T -> bool)
    ensures Find(a + b, p) == if Find(a, p).Some? then Find(a, p) else Find(b, p)
  {
    if a == [] {
      assert a + b == b;
    } else {
      assert (a + b)[1..] == a[1..] + b;
      FindConcat(a[1..], b, p);
    }
  }

  /** Filters commute with concatenation. */
  lemma {:induction false} FilterConcat<T(!new)>(a: seq<T>, b: seq<T>, p: T -> bool)
    ensures Filter(a + b, p) == Filter(a, p) + Filter(b, p)
  {
    if a == [] {
      assert a + b == b;
    } else {
      assert (a + b)[1..] == a[1..] + b;
      FilterConcat(a[1..], b, p);
    }
  }

  lemma {:induction false} FilterAll<T(!new)>(s: seq<T>, p: T -> bool)
    requires forall x :: x in s ==> p(x)
    ensures Filter(s, p) == s
  {
    if s != [] {
      FilterAll(s[1..], p);
    }
  }

  /** The filter depends on the predicate only through its values on the list. */
  lemma {:induction false} FilterSame<T(!new)>(s: seq<T>, p: T -> bool, q: T -> bool)
    requires forall x :: x in s ==> (p(x) <==> q(x))
    ensures Filter(s, p) == Filter(s, q)
  {
    if s != [] {
      FilterSame(s[1..], p, q);
    }
  }

  /** Filtering keeps keys apart. */
  lemma {:induction false} FilterDistinct<T(!new), K>(s: seq<T>, p: T -> bool, key: T -> K)
    requires Distinct(s, key)
    ensures Distinct(Filter(s, p), key)
  {
    if s != [] {
      FilterDistinct(s[1..], p, key);
      var rest := Filter(s[1..], p);
      forall x | x in rest ensures key(x) != key(s[0]) {
        var i :| 0 <= i < |s[1..]| && s[1..][i] == x;
        assert s[i + 1] == x;
      }
    }
  }

  /** The positions at which a predicate holds, in order. */
  function PositionsOf<T>(s: seq<T>, p: T -> bool): (at: seq<nat>)
    ensures forall n :: 0 <= n < |at| ==> at[n] < |s| && p(s[at[n]])
    ensures forall m, n :: 0 <= m < n < |at| ==> at[m] < at[n]
    ensures forall i: nat :: i < |s| && p(s[i]) ==> i in at
  {
    if s == [] then []
    else
      var n := |s| - 1;
      PositionsOf(s[..n], p) + if p(s[n]) then [n] else []
  }

  /** A filter keeps the elements at those positions. */
  lemma {:induction false} FilterPositions<T(!new)>(s: seq<T>, p: T -> bool)
    ensures At(s, PositionsOf(s, p), Filter(s, p))
  {
    hide Filter, At;
    if s == [] {
      NothingAt(s, p);
    } else {
      var n := |s| - 1;
      FilterPositions(s[..n], p);
      assert s == s[..n] + [s[n]];
      FilterConcat(s[..n], [s[n]], p);
      FilterOne(s[n], p);
      AtPush(s, n, PositionsOf(s[..n], p), Filter(s[..n], p));
      assert Filter(s[..n], p) + [] == Filter(s[..n], p) && PositionsOf(s[..n], p) + [] == PositionsOf(s[..n], p);
    }
  }

  /** The elements of r are those of s at the given positions. */
  ghost predicate At<T>(s: seq<T>, at: seq<nat>, r: seq<T>) {
    |at| == |r| && forall n :: 0 <= n < |at| ==> at[n] < |s| && r[n] == s[at[n]]
  }

  lemma NothingAt<T(!new)>(s: seq<T>, p: T -> bool)
    requires s == []
    ensures At(s, PositionsOf(s, p), Filter(s, p))
  {
  }

  lemma AtPush<T>(s: seq<T>, n: nat, at: seq<nat>, r: seq<T>)
    requires |s| == n + 1 && At(s[..n], at, r)
    ensures At(s, at, r) && At(s, at + [n], r + [s[n]])
  {
  }

  lemma FilterOne<T(!new)>(x: T, p: T -> bool)
    ensures Filter([x], p) == if p(x) then [x] else []
  {
  }

  /** Filtering a mapped list is mapping a filtered one. */
  lemma {:induction false} FilterMap<T(!new), U(!new)>(s: seq<T>, f: T -> U, p: U -> bool, g: T -> bool)
    requires forall x :: g(x) <==> p(f(x))
    ensures Filter(Map(s, f), p) == Map(Filter(s, g), f)
  {
    hide Filter, Map;
    if s == [] {
      MapOfNothing(s, f, p, g);
    } else {
      FilterMap(s[1..], f, p, g);
      MapOnePush(s, f, p, g);
    }
  }

  lemma MapOfNothing<T(!new), U(!new)>(s: seq<T>, f: T -> U, p: U -> bool, g: T -> bool)
    requires s == []
    ensures Filter(Map(s, f), p) == Map(Filter(s, g), f)
  {
  }

  lemma MapOnePush<T(!new), U(!new)>(s: seq<T>, f: T -> U, p: U -> bool, g: T -> bool)
    requires s != [] && (g(s[0]) <==> p(f(s[0])))
    requires Filter(Map(s[1..], f), p) == Map(Filter(s[1..], g), f)
    ensures Filter(Map(s, f), p) == Map(Filter(s, g), f)
  {
    hide Filter, Map;
    assert s == [s[0]] + s[1..];
    MapConcat([s[0]], s[1..], f);
    MapOne(s[0], f);
    FilterConcat([f(s[0])], Map(s[1..], f), p);
    FilterConcat([s[0]], s[1..], g);
    FilterOne(f(s[0]), p);
    FilterOne(s[0], g);
    MapConcat([s[0]], Filter(s[1..], g), f);
    assert [] + Filter(s[1..], g) == Filter(s[1..], g);
  }

  lemma MapConcat<T, U>(a: seq<T>, b: seq<T>, f: T -> U)
    ensures Map(a + b, f) == Map(a, f) + Map(b, f)
  {
  }

  lemma MapOne<T, U>(x: T, f: T -> U)
    ensures Map([x], f) == [f(x)]
  {
  }

  lemma {:induction false} FilterTwice<T(!new)>(s: seq<T>, p: T -> bool, q: T -> bool, both: T -> bool)
    requires forall x :: both(x) <==> p(x) && q(x)
    ensures Filter(Filter(s, p), q) == Filter(s, both)
  {
    if s != [] {
      FilterTwice(s[1..], p, q, both);
      FilterConcat(if p(s[0]) then [s[0]] else [], Filter(s[1..], p), q);
      FilterOne(s[0], q);
    }
  }
}
