/** A stable sort by a comparator, and the facts that make `sort` followed by `[0]` or `find` a minimum. */
module Sorting {
  import opened Wrappers
  import opened Lists

  /** A comparator in the style of Array.prototype.sort: negative, zero or positive. */
  ghost predicate Comparator<T(!new)>(cmp: (T, T) -> real) {
    && (forall a, b :: cmp(a, b) <= 0.0 || cmp(b, a) <= 0.0)
    && (forall a, b :: cmp(a, b) < 0.0 <==> cmp(b, a) > 0.0)
    && (forall a, b, c :: cmp(a, b) <= 0.0 && cmp(b, c) <= 0.0 ==> cmp(a, c) <= 0.0)
  }

  function Insert<T>(x: T, s: seq<T>, cmp: (T, T) -> real): seq<T> {
    if s == [] || cmp(x, s[0]) <= 0.0 then [x] + s else [s[0]] + Insert(x, s[1..], cmp)
  }

  /** `[...s].sort(cmp)` */
  function Sort<T>(s: seq<T>, cmp: (T, T) -> real): (r: seq<T>)
    ensures |r| == |s|
  {
    if s == [] then []
    else
      InsertLength(s[0], Sort(s[1..], cmp), cmp);
      Insert(s[0], Sort(s[1..], cmp), cmp)
  }

  lemma {:induction false} InsertLength<T>(x: T, s: seq<T>, cmp: (T, T) -> real)
    ensures |Insert(x, s, cmp)| == |s| + 1
  {
    if s != [] && cmp(x, s[0]) > 0.0 {
      InsertLength(x, s[1..], cmp);
    }
  }

  ghost predicate Sorted<T>(s: seq<T>, cmp: (T, T) -> real) {
    forall i, j :: 0 <= i < j < |s| ==> cmp(s[i], s[j]) <= 0.0
  }

  lemma {:induction false} InsertAdds<T(!new)>(x: T, s: seq<T>, cmp: (T, T) -> real)
    ensures multiset(Insert(x, s, cmp)) == multiset(s) + multiset{x}
    ensures forall y :: y in Insert(x, s, cmp) <==> y == x || y in s
  {
    if s != [] && cmp(x, s[0]) > 0.0 {
      InsertAdds(x, s[1..], cmp);
      assert s == [s[0]] + s[1..];
    }
  }

  lemma {:induction false} InsertLaws<T(!new)>(x: T, s: seq<T>, cmp: (T, T) -> real)
    requires Comparator(cmp) && Sorted(s, cmp)
    ensures Sorted(Insert(x, s, cmp), cmp)
  {
    if s != [] && cmp(x, s[0]) > 0.0 {
      var r := Insert(x, s[1..], cmp);
      InsertLaws(x, s[1..], cmp);
      InsertAdds(x, s[1..], cmp);
      forall i | 0 <= i < |r| ensures cmp(s[0], r[i]) <= 0.0 {
        assert r[i] in r;
      }
      SortedPush(s[0], r, cmp);
    } else if s != [] {
      forall i | 0 <= i < |s| ensures cmp(x, s[i]) <= 0.0 {
        assert i > 0 ==> cmp(s[0], s[i]) <= 0.0;
      }
      SortedPush(x, s, cmp);
    }
  }

  lemma SortedPush<T>(x: T, s: seq<T>, cmp: (T, T) -> real)
    requires Sorted(s, cmp) && forall i :: 0 <= i < |s| ==> cmp(x, s[i]) <= 0.0
    ensures Sorted([x] + s, cmp)
  {
  }

  /** The sort is a sorted permutation. */
  lemma {:induction false} SortIsSortedPermutation<T(!new)>(s: seq<T>, cmp: (T, T) -> real)
    requires Comparator(cmp)
    ensures Sorted(Sort(s, cmp), cmp) && multiset(Sort(s, cmp)) == multiset(s)
  {
    hide Sorted, Insert, Comparator;
    if s == [] {
      SortOfNothing(cmp);
    } else {
      SortIsSortedPermutation(s[1..], cmp);
      InsertLaws(s[0], Sort(s[1..], cmp), cmp);
      InsertAdds(s[0], Sort(s[1..], cmp), cmp);
      assert s == [s[0]] + s[1..];
    }
  }

  lemma SortOfNothing<T(!new)>(cmp: (T, T) -> real)
    ensures Sort([], cmp) == [] && Sorted([], cmp)
  {
  }

  lemma FilterHead<T(!new)>(x: T, s: seq<T>, p: T -> bool)
    ensures Filter([x] + s, p) == if p(x) then [x] + Filter(s, p) else Filter(s, p)
  {
    assert ([x] + s)[1..] == s;
  }

  lemma InsertHead<T>(x: T, y: T, s: seq<T>, cmp: (T, T) -> real)
    ensures Insert(x, [y] + s, cmp) == if cmp(x, y) <= 0.0 then [x] + ([y] + s) else [y] + Insert(x, s, cmp)
  {
    assert ([y] + s)[1..] == s;
  }

  lemma {:induction false} InsertCommutesWithFilter<T(!new)>(x: T, s: seq<T>, cmp: (T, T) -> real, p: T -> bool)
    requires Comparator(cmp) && Sorted(s, cmp)
    ensures Filter(Insert(x, s, cmp), p) == if p(x) then Insert(x, Filter(s, p), cmp) else Filter(s, p)
  {
    hide Filter, Insert;
    if s == [] {
      InsertIntoNothing(x, cmp, p);
    } else {
      var y, rest := s[0], s[1..];
      assert s == [y] + rest;
      InsertHead(x, y, rest, cmp);
      FilterHead(y, rest, p);
      if cmp(x, y) <= 0.0 {
        FilterHead(x, s, p);
        GoesFirst(x, s, cmp, p);
      } else {
        InsertCommutesWithFilter(x, rest, cmp, p);
        FilterHead(y, Insert(x, rest, cmp), p);
        InsertHead(x, y, Filter(rest, p), cmp);
      }
    }
  }

  lemma InsertIntoNothing<T(!new)>(x: T, cmp: (T, T) -> real, p: T -> bool)
    ensures Filter(Insert(x, [], cmp), p) == if p(x) then Insert(x, Filter([], p), cmp) else Filter([], p)
  {
    FilterHead(x, [], p);
  }

  lemma GoesFirst<T(!new)>(x: T, s: seq<T>, cmp: (T, T) -> real, p: T -> bool)
    requires Comparator(cmp) && Sorted(s, cmp) && s != [] && cmp(x, s[0]) <= 0.0
    ensures Insert(x, Filter(s, p), cmp) == [x] + Filter(s, p)
  {
    var kept := Filter(s, p);
    if kept != [] {
      assert kept[0] in s;
      var i :| 0 <= i < |s| && s[i] == kept[0];
      assert i > 0 ==> cmp(s[0], s[i]) <= 0.0;
    }
  }

  /** Sorting and filtering commute. */
  lemma {:induction false} SortCommutesWithFilter<T(!new)>(s: seq<T>, cmp: (T, T) -> real, p: T -> bool)
    requires Comparator(cmp)
    ensures Filter(Sort(s, cmp), p) == Sort(Filter(s, p), cmp)
  {
    if s != [] {
      SortCommutesWithFilter(s[1..], cmp, p);
      SortIsSortedPermutation(s[1..], cmp);
      SortStep(s[0], s[1..], cmp, p);
      assert s == [s[0]] + s[1..];
    }
  }

  lemma SortStep<T(!new)>(x: T, rest: seq<T>, cmp: (T, T) -> real, p: T -> bool)
    requires Comparator(cmp) && Sorted(Sort(rest, cmp), cmp)
    requires Filter(Sort(rest, cmp), p) == Sort(Filter(rest, p), cmp)
    ensures Filter(Sort([x] + rest, cmp), p) == Sort(Filter([x] + rest, p), cmp)
  {
    hide Filter, Insert, Sorted, Sort, Comparator;
    FilterHead(x, rest, p);
    InsertCommutesWithFilter(x, Sort(rest, cmp), cmp, p);
    SortHead(x, rest, cmp);
    SortHead(x, Filter(rest, p), cmp);
  }

  lemma SortHead<T>(x: T, s: seq<T>, cmp: (T, T) -> real)
    ensures Sort([x] + s, cmp) == Insert(x, Sort(s, cmp), cmp)
  {
    assert ([x] + s)[1..] == s;
  }

  /** Elements that compare equal keep their order. */
  lemma SortIsStable<T(!new)>(s: seq<T>, cmp: (T, T) -> real, x: T)
    requires Comparator(cmp)
    ensures Filter(Sort(s, cmp), (y: T) => cmp(x, y) == 0.0) == Filter(s, (y: T) => cmp(x, y) == 0.0)
  {
    var equal := (y: T) => cmp(x, y) == 0.0;
    SortCommutesWithFilter(s, cmp, equal);
    SortOfEquals(Filter(s, equal), cmp);
  }

  lemma {:induction false} SortOfEquals<T(!new)>(s: seq<T>, cmp: (T, T) -> real)
    requires Comparator(cmp)
    requires forall a, b :: a in s && b in s ==> cmp(a, b) <= 0.0
    ensures Sort(s, cmp) == s
  {
    if s != [] {
      SortOfEquals(s[1..], cmp);
      assert s == [s[0]] + s[1..];
    }
  }

  /** The first of the smallest elements. */
  function Least<T>(s: seq<T>, cmp: (T, T) -> real): (r: T)
    requires s != []
    ensures r in s
  {
    if |s| == 1 then s[0]
    else
      var rest := Least(s[1..], cmp);
      if cmp(s[0], rest) <= 0.0 then s[0] else rest
  }

  /** Nothing is smaller than the least element, and everything before it is strictly larger. */
  lemma {:induction false} LeastIsFirstSmallest<T(!new)>(s: seq<T>, cmp: (T, T) -> real) returns (i: nat)
    requires Comparator(cmp) && s != []
    ensures i < |s| && Least(s, cmp) == s[i]
    ensures forall j :: 0 <= j < |s| ==> cmp(s[i], s[j]) <= 0.0
    ensures forall j :: 0 <= j < i ==> cmp(s[j], s[i]) > 0.0
  {
    if |s| == 1 {
      i := 0;
    } else {
      var t := s[1..];
      var k := LeastIsFirstSmallest(t, cmp);
      i := if cmp(s[0], t[k]) <= 0.0 then 0 else k + 1;
      forall j | 0 <= j < |s| ensures cmp(s[i], s[j]) <= 0.0 {
        if j > 0 {
          assert cmp(t[k], t[j - 1]) <= 0.0;
        }
      }
      forall j | 0 <= j < i ensures cmp(s[j], s[i]) > 0.0 {
        if j > 0 {
          assert cmp(t[j - 1], t[k]) > 0.0;
        }
      }
    }
  }

  lemma {:induction false} HeadOfSort<T>(s: seq<T>, cmp: (T, T) -> real)
    requires s != []
    ensures Sort(s, cmp)[0] == Least(s, cmp)
  {
    if |s| > 1 {
      HeadOfSort(s[1..], cmp);
    }
  }

  lemma {:induction false} FindIsHeadOfFilter<T(!new)>(s: seq<T>, p: T -> bool)
    ensures Find(s, p) == if Filter(s, p) == [] then None else Some(Filter(s, p)[0])
  {
    if s != [] {
      FindIsHeadOfFilter(s[1..], p);
    }
  }

  /** Searching a sorted list finds the least of the elements that qualify. */
  lemma FindInSort<T(!new)>(s: seq<T>, cmp: (T, T) -> real, p: T -> bool)
    requires Comparator(cmp)
    ensures Find(Sort(s, cmp), p) == if Filter(s, p) == [] then None else Some(Least(Filter(s, p), cmp))
  {
    FindIsHeadOfFilter(Sort(s, cmp), p);
    SortCommutesWithFilter(s, cmp, p);
    if Filter(s, p) != [] {
      HeadOfSort(Filter(s, p), cmp);
    }
  }

  /** A filter that keeps everything below what it keeps does not change the least element. */
  lemma {:induction false} LeastOfLowFilter<T(!new)>(s: seq<T>, cmp: (T, T) -> real, p: T -> bool)
    requires Comparator(cmp) && Filter(s, p) != []
    requires forall a, b :: a in s && b in s && p(b) && cmp(a, b) <= 0.0 ==> p(a)
    ensures p(Least(s, cmp)) && Least(Filter(s, p), cmp) == Least(s, cmp)
  {
    hide Filter;
    var rest := s[1..];
    assert s == [s[0]] + rest;
    FilterHead(s[0], rest, p);
    if Filter(rest, p) == [] {
      if |s| > 1 {
        OnlyHeadIsLow(s, cmp, p);
      }
    } else {
      LeastOfLowFilter(rest, cmp, p);
      LeastHead(s[0], rest, cmp);
      if p(s[0]) {
        LeastHead(s[0], Filter(rest, p), cmp);
      }
    }
  }

  lemma LeastHead<T>(x: T, s: seq<T>, cmp: (T, T) -> real)
    requires s != []
    ensures Least([x] + s, cmp) == if cmp(x, Least(s, cmp)) <= 0.0 then x else Least(s, cmp)
  {
    assert ([x] + s)[1..] == s;
  }

  lemma OnlyHeadIsLow<T(!new)>(s: seq<T>, cmp: (T, T) -> real, p: T -> bool)
    requires Comparator(cmp) && |s| > 1 && p(s[0]) && Filter(s[1..], p) == []
    requires forall a, b :: a in s && b in s && p(b) && cmp(a, b) <= 0.0 ==> p(a)
    ensures Least(s, cmp) == s[0] && Filter(s, p) == [s[0]]
  {
    var rest := Least(s[1..], cmp);
    assert rest in s[1..] && !p(rest) by {
      assert rest !in Filter(s[1..], p);
    }
    assert cmp(s[0], rest) <= 0.0;
  }

  lemma {:induction false} FiltersCommute<T(!new)>(s: seq<T>, p: T -> bool, q: T -> bool)
    ensures Filter(Filter(s, p), q) == Filter(Filter(s, q), p)
  {
    if s != [] {
      FiltersCommute(s[1..], p, q);
      FilterConcat(if p(s[0]) then [s[0]] else [], Filter(s[1..], p), q);
      FilterConcat(if q(s[0]) then [s[0]] else [], Filter(s[1..], q), p);
    }
  }
}
