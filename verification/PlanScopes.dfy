/**
 One plan id used from several tenants or workspaces. The key of a snapshot has no scope in it, and the upsert leaves
 the scope of an existing row alone, so a row keeps the scope of its first writer and the content of its last.
 */
module PlanScopes {
  import opened Wrappers
  import opened History

  datatype Owner = Owner(tenantSlug: string, workspaceSlug: Option<string>)

  /** A persisted snapshot and the scope it was written from. */
  datatype Write = Write(owner: Owner, snapshot: Snapshot)

  datatype Row = Row(owner: Owner, snapshot: Snapshot)

  /** What a reader filters by. An absent or empty value filters nothing. */
  datatype ScopeFilter = ScopeFilter(tenantSlug: Option<string>, workspaceSlug: Option<string>)

  predicate Active(value: Option<string>) { value.Some? && value.value != "" }

  predicate Matches(f: ScopeFilter, owner: Owner) {
    && (Active(f.tenantSlug) ==> owner.tenantSlug == f.tenantSlug.value)
    && (Active(f.workspaceSlug) ==> owner.workspaceSlug == f.workspaceSlug)
  }

  /** The upsert: an existing row keeps its scope. */
  function Put(rows: map<SnapshotType, Row>, w: Write): map<SnapshotType, Row> {
    var kind := w.snapshot.snapshotType;
    rows[kind := if kind in rows then rows[kind].(snapshot := w.snapshot) else Row(w.owner, w.snapshot)]
  }

  /** The rows of one plan after some writes. */
  function Rows(writes: seq<Write>): map<SnapshotType, Row> {
    if writes == [] then map[] else Put(Rows(writes[..|writes| - 1]), writes[|writes| - 1])
  }

  /** What a reader gets from the row of a kind. */
  function Seen(rows: map<SnapshotType, Row>, f: ScopeFilter, kind: SnapshotType): Option<Snapshot> {
    if kind in rows && Matches(f, rows[kind].owner) then Some(rows[kind].snapshot) else None
  }

  function FirstOf(writes: seq<Write>, kind: SnapshotType): (r: Option<Write>)
    ensures r.Some? ==> r.value in writes && r.value.snapshot.snapshotType == kind
  {
    if writes == [] then None
    else if writes[0].snapshot.snapshotType == kind then Some(writes[0])
    else FirstOf(writes[1..], kind)
  }

  function LastOf(writes: seq<Write>, kind: SnapshotType): (r: Option<Write>)
    ensures r.Some? ==> r.value in writes && r.value.snapshot.snapshotType == kind
  {
    if writes == [] then None
    else
      var w := writes[|writes| - 1];
      if w.snapshot.snapshotType == kind then Some(w) else LastOf(writes[..|writes| - 1], kind)
  }

  /** What the reader would get if each scope had rows of its own: the last write of its own scope. */
  function LastOwn(writes: seq<Write>, f: ScopeFilter, kind: SnapshotType): (r: Option<Write>)
    ensures r.Some? ==> r.value in writes && r.value.snapshot.snapshotType == kind && Matches(f, r.value.owner)
    ensures r.None? ==> forall w :: w in writes && w.snapshot.snapshotType == kind ==> !Matches(f, w.owner)
  {
    if writes == [] then None
    else
      var w := writes[|writes| - 1];
      if w.snapshot.snapshotType == kind && Matches(f, w.owner) then Some(w)
      else LastOwn(writes[..|writes| - 1], f, kind)
  }

  lemma {:induction false} FirstOfPush(writes: seq<Write>, w: Write, kind: SnapshotType)
    ensures FirstOf(writes + [w], kind) ==
            if FirstOf(writes, kind).Some? || w.snapshot.snapshotType != kind then FirstOf(writes, kind) else Some(w)
  {
    if writes == [] {
      assert [w][1..] == [];
    } else {
      assert (writes + [w])[1..] == writes[1..] + [w];
      FirstOfPush(writes[1..], w, kind);
    }
  }

  /** A row has the scope of the first write of its kind and the snapshot of the last. */
  lemma {:induction false} RowIsFirstAndLast(writes: seq<Write>, kind: SnapshotType)
    ensures (kind in Rows(writes)) == FirstOf(writes, kind).Some? == LastOf(writes, kind).Some?
    ensures kind in Rows(writes) ==>
              Rows(writes)[kind] == Row(FirstOf(writes, kind).value.owner, LastOf(writes, kind).value.snapshot)
  {
    if writes != [] {
      var n := |writes| - 1;
      assert writes == writes[..n] + [writes[n]];
      RowIsFirstAndLast(writes[..n], kind);
      FirstOfPush(writes[..n], writes[n], kind);
    }
  }

  ghost predicate Increasing(writes: seq<Write>) {
    forall i, j :: 0 <= i < j < |writes| ==> writes[i].snapshot.recordedAt < writes[j].snapshot.recordedAt
  }

  /** The last write of a kind is a foreign one exactly when it is later than the last own one. */
  lemma {:induction false} OwnIsLastIff(writes: seq<Write>, f: ScopeFilter, kind: SnapshotType)
    requires Increasing(writes) && LastOwn(writes, f, kind).Some?
    ensures LastOf(writes, kind).Some?
    ensures LastOwn(writes, f, kind).value.snapshot == LastOf(writes, kind).value.snapshot <==>
            Matches(f, LastOf(writes, kind).value.owner)
  {
    var n := |writes| - 1;
    var own := LastOwn(writes, f, kind).value;
    if writes[n].snapshot.snapshotType != kind {
      OwnIsLastIff(writes[..n], f, kind);
    } else if !Matches(f, writes[n].owner) {
      assert own in writes[..n];
      assert own.snapshot.recordedAt < writes[n].snapshot.recordedAt;
    }
  }

  predicate IsOwn(w: Option<Write>, f: ScopeFilter) { w.Some? && Matches(f, w.value.owner) }

  /**
   Isolation, exactly. A reader gets the last snapshot of its own scope, or nothing if there is none, if and only if its
   scope has written no snapshot of that kind for the plan id, or has written both the first and the last of them.
   */
  lemma IsolatedIff(writes: seq<Write>, f: ScopeFilter, kind: SnapshotType)
    requires Increasing(writes)
    ensures var own := LastOwn(writes, f, kind);
            Seen(Rows(writes), f, kind) == (if own.Some? then Some(own.value.snapshot) else None) <==>
            own.None? || (IsOwn(FirstOf(writes, kind), f) && IsOwn(LastOf(writes, kind), f))
  {
    RowIsFirstAndLast(writes, kind);
    if LastOwn(writes, f, kind).Some? {
      OwnIsLastIff(writes, f, kind);
    }
  }

  /** The first scope to use a plan id reads what the second one wrote, and the second reads nothing. */
  lemma SecondScopeIsHidden(first: Owner, second: Owner, a: Snapshot, b: Snapshot)
    requires first.tenantSlug != second.tenantSlug && first.tenantSlug != "" && second.tenantSlug != ""
    requires a.snapshotType == b.snapshotType
    ensures var rows := Rows([Write(first, a), Write(second, b)]);
            && Seen(rows, ScopeFilter(Some(first.tenantSlug), None), a.snapshotType) == Some(b)
            && Seen(rows, ScopeFilter(Some(second.tenantSlug), None), a.snapshotType) == None
  {
    var writes := [Write(first, a), Write(second, b)];
    assert writes[..1] == [Write(first, a)] && writes[..1][..0] == [];
    assert Rows(writes[..1][..0]) == map[];
    assert Rows(writes[..1]) == map[a.snapshotType := Row(first, a)];
  }
}
