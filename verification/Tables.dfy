/**
 A policy table: rows upserted under a text key and looked up by columns, most recently updated first. Whether a row
 can still be found depends on no later row having taken its key.
 */
module Tables {
  import opened Wrappers
  import opened Lists

  /** The table after one more upsert, most recently updated row first. */
  function Upsert<R(==,!new)>(rows: seq<R>, row: R, key: R -> string): seq<R> {
    [row] + Filter(rows, (r: R) => key(r) != key(row))
  }

  /** The table after a history of writes. */
  function Written<R(==,!new)>(writes: seq<R>, key: R -> string): seq<R> {
    if writes == [] then [] else Upsert(Written(writes[..|writes| - 1], key), writes[|writes| - 1], key)
  }

  lemma WrittenPush<R(!new)>(writes: seq<R>, row: R, key: R -> string)
    ensures Written(writes + [row], key) == Upsert(Written(writes, key), row, key)
  {
    assert (writes + [row])[..|writes|] == writes;
  }

  /** The position of the last write with the given columns, or -1. */
  function LastWrite<R, Id(==)>(writes: seq<R>, id: R -> Id, wanted: Id): (n: int)
    ensures -1 <= n < |writes|
    ensures n >= 0 ==> id(writes[n]) == wanted
    ensures forall k :: n < k < |writes| ==> id(writes[k]) != wanted
  {
    if writes == [] then -1
    else if id(writes[|writes| - 1]) == wanted then |writes| - 1
    else LastWrite(writes[..|writes| - 1], id, wanted)
  }

  function RowFor<R, Id(==)>(rows: seq<R>, id: R -> Id, wanted: Id): Option<R> {
    Find(rows, (r: R) => id(r) == wanted)
  }

  /** Some later write, with other columns, has taken the key of the last write with these. */
  ghost predicate Overwritten<R, Id>(writes: seq<R>, key: R -> string, id: R -> Id, wanted: Id) {
    var n := LastWrite(writes, id, wanted);
    n >= 0 && exists m :: n < m < |writes| && key(writes[m]) == key(writes[n])
  }

  /** No key repeats. */
  lemma {:induction false} WrittenKeysAreDistinct<R(!new)>(writes: seq<R>, key: R -> string)
    ensures Distinct(Written(writes, key), key)
    ensures forall r :: r in Written(writes, key) ==> r in writes
  {
    if writes != [] {
      var before := Written(writes[..|writes| - 1], key);
      var last := writes[|writes| - 1];
      WrittenKeysAreDistinct(writes[..|writes| - 1], key);
      FilterDistinct(before, (r: R) => key(r) != key(last), key);
      var kept := Filter(before, (r: R) => key(r) != key(last));
      forall i | 0 <= i < |kept| ensures key(kept[i]) != key(last) {
        assert kept[i] in kept;
      }
    }
  }

  /** Filtering for something the wanted row satisfies does not change the search. */
  lemma {:induction false} FindInFilter<R(!new)>(s: seq<R>, p: R -> bool, q: R -> bool)
    requires forall r :: r in s && q(r) ==> p(r)
    ensures Find(Filter(s, p), q) == Find(s, q)
  {
    if s != [] {
      FindInFilter(s[1..], p, q);
      FindConcat(if p(s[0]) then [s[0]] else [], Filter(s[1..], p), q);
      FindConcat([s[0]], s[1..], q);
      assert [s[0]] + s[1..] == s;
    }
  }

  /** Rows with the same columns have the same key. */
  ghost predicate KeyedBy<R, Id>(writes: seq<R>, key: R -> string, id: R -> Id) {
    forall i, j :: 0 <= i < |writes| && 0 <= j < |writes| && id(writes[i]) == id(writes[j]) ==>
      key(writes[i]) == key(writes[j])
  }

  /** A lookup answers the last write with its columns, exactly unless a later write has taken that write's key. */
  lemma {:induction false} FoundUnlessOverwritten<R(!new), Id>(writes: seq<R>, key: R -> string, id: R -> Id,
                                                               wanted: Id)
    requires KeyedBy(writes, key, id)
    ensures var n := LastWrite(writes, id, wanted);
            RowFor(Written(writes, key), id, wanted) ==
            if n < 0 || Overwritten(writes, key, id, wanted) then None else Some(writes[n])
  {
    if writes != [] {
      var n := |writes| - 1;
      var last, earlier := writes[n], writes[..n];
      assert KeyedBy(earlier, key, id);
      FoundUnlessOverwritten(earlier, key, id, wanted);
      if id(last) != wanted {
        OverwrittenStep(writes, key, id, wanted);
        SearchAfterUpsert(writes, key, id, wanted);
      }
    }
  }

  /** One more write with other columns leaves the search alone, or removes its answer by taking its key. */
  lemma SearchAfterUpsert<R(!new), Id>(writes: seq<R>, key: R -> string, id: R -> Id, wanted: Id)
    requires writes != [] && KeyedBy(writes, key, id) && id(writes[|writes| - 1]) != wanted
    ensures var n := |writes| - 1; var before := RowFor(Written(writes[..n], key), id, wanted);
            RowFor(Written(writes, key), id, wanted) ==
            if before.Some? && key(before.value) == key(writes[n]) then None else before
  {
    var n := |writes| - 1;
    var last, earlier := writes[n], writes[..n];
    var rows := Written(earlier, key);
    var others := (r: R) => key(r) != key(last);
    var wants := (r: R) => id(r) == wanted;
    WrittenKeysAreDistinct(earlier, key);
    FindConcat([last], Filter(rows, others), wants);
    var before := Find(rows, wants);
    if before.Some? {
      forall r | r in rows && wants(r) ensures key(r) == key(before.value) {
        SameColumnsSameKey(writes, earlier, key, id, r, before.value);
      }
      if others(before.value) {
        FindInFilter(rows, others, wants);
      }
    }
  }

  lemma SameColumnsSameKey<R, Id>(writes: seq<R>, earlier: seq<R>, key: R -> string, id: R -> Id, a: R, b: R)
    requires KeyedBy(writes, key, id) && earlier <= writes && a in earlier && b in earlier && id(a) == id(b)
    ensures key(a) == key(b)
  {
    var i :| 0 <= i < |earlier| && earlier[i] == a;
    var j :| 0 <= j < |earlier| && earlier[j] == b;
    assert id(writes[i]) == id(writes[j]);
  }

  lemma OverwrittenStep<R(!new), Id>(writes: seq<R>, key: R -> string, id: R -> Id, wanted: Id)
    requires writes != [] && id(writes[|writes| - 1]) != wanted
    ensures var n := |writes| - 1; var k := LastWrite(writes[..n], id, wanted);
            && LastWrite(writes, id, wanted) == k
            && (Overwritten(writes, key, id, wanted) <==>
                Overwritten(writes[..n], key, id, wanted) || (k >= 0 && key(writes[k]) == key(writes[n])))
  {
    var n := |writes| - 1;
    var k := LastWrite(writes[..n], id, wanted);
    if m :| 0 <= k < m < n && key(writes[m]) == key(writes[k]) {
      assert key(writes[..n][m]) == key(writes[..n][k]);
    }
  }
}
