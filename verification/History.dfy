/**
 The persisted snapshots of one plan. A snapshot's key is its plan and its type, and it is upserted, so a plan has
 three slots that later steps overwrite. Readers take the slots newest first.
 */
module History {
  import opened Wrappers
  import opened Lists
  import opened Topology
  import opened Mutations
  import opened Effects

  datatype SnapshotType = MaterializedRuntime | ApprovalDecision | RunDispatch

  datatype Snapshot = Snapshot(snapshotType: SnapshotType, recordedAt: int, mutations: seq<Mutation>, event: Event)

  type Slots = map<SnapshotType, Snapshot>

  const DEFAULT_MUTATION_TAKE: nat := 20
  const DEFAULT_HISTORY_TAKE: nat := 10

  // Ordering.

  function InsertNewestFirst(x: Snapshot, s: seq<Snapshot>): seq<Snapshot> {
    if s == [] || s[0].recordedAt <= x.recordedAt then [x] + s
    else [s[0]] + InsertNewestFirst(x, s[1..])
  }

  function SortNewestFirst(s: seq<Snapshot>): seq<Snapshot> {
    if s == [] then [] else InsertNewestFirst(s[0], SortNewestFirst(s[1..]))
  }

  function Slot(slots: Slots, t: SnapshotType): seq<Snapshot> {
    if t in slots then [slots[t]] else []
  }

  /** `findMany({ orderBy: recordedAt desc })` over the plan's rows. */
  function Recent(slots: Slots): seq<Snapshot> {
    SortNewestFirst(Slot(slots, MaterializedRuntime) + Slot(slots, ApprovalDecision) + Slot(slots, RunDispatch))
  }

  function Window(slots: Slots, take: nat): seq<Snapshot> {
    var all := Recent(slots);
    if take < |all| then all[..take] else all
  }

  /** All records, newest snapshot first, each snapshot in its own order. */
  function Records(snapshots: seq<Snapshot>): seq<Mutation> {
    Flatten(Map(snapshots, (s: Snapshot) => s.mutations))
  }

  function Latest(snapshots: seq<Snapshot>, t: Target): Option<Mutation> {
    Find(Records(snapshots), (m: Mutation) => Hits(m, t))
  }

  /** The status a step sees for a target, when its read succeeds. */
  function Visible(slots: Slots, t: Target): Option<Status> {
    StatusIn(Records(Recent(slots)), t)
  }

  ghost predicate NewestFirst(s: seq<Snapshot>) {
    forall i, j :: 0 <= i < j < |s| ==> s[i].recordedAt >= s[j].recordedAt
  }

  lemma {:induction false} InsertNewestFirstLaws(x: Snapshot, s: seq<Snapshot>)
    requires NewestFirst(s)
    ensures NewestFirst(InsertNewestFirst(x, s)) && |InsertNewestFirst(x, s)| == |s| + 1
    ensures forall y :: y in InsertNewestFirst(x, s) <==> y == x || y in s
  {
    if s != [] && s[0].recordedAt > x.recordedAt {
      InsertNewestFirstLaws(x, s[1..]);
      var r := InsertNewestFirst(x, s[1..]);
      assert forall y :: y in s <==> y == s[0] || y in s[1..];
      forall i | 0 <= i < |r| ensures s[0].recordedAt >= r[i].recordedAt {
        assert r[i] in r;
      }
    }
  }

  lemma {:induction false} SortNewestFirstLaws(s: seq<Snapshot>)
    ensures NewestFirst(SortNewestFirst(s)) && |SortNewestFirst(s)| == |s|
    ensures forall y :: y in SortNewestFirst(s) <==> y in s
  {
    if s != [] {
      SortNewestFirstLaws(s[1..]);
      InsertNewestFirstLaws(s[0], SortNewestFirst(s[1..]));
      assert forall y :: y in s <==> y == s[0] || y in s[1..];
    }
  }

  lemma RecentLaws(slots: Slots)
    ensures NewestFirst(Recent(slots)) && |Recent(slots)| <= 3
    ensures forall y :: y in Recent(slots) <==> exists t :: t in slots && slots[t] == y
  {
    var rows := Slot(slots, MaterializedRuntime) + Slot(slots, ApprovalDecision) + Slot(slots, RunDispatch);
    SortNewestFirstLaws(rows);
    forall y | y in rows ensures exists t :: t in slots && slots[t] == y {
      var t :| t in {MaterializedRuntime, ApprovalDecision, RunDispatch} && y in Slot(slots, t);
      assert t in slots && slots[t] == y;
    }
    forall y | exists t :: t in slots && slots[t] == y ensures y in rows {
      var t :| t in slots && slots[t] == y;
      match t
      case MaterializedRuntime => assert y in Slot(slots, MaterializedRuntime);
      case ApprovalDecision => assert y in Slot(slots, ApprovalDecision);
      case RunDispatch => assert y in Slot(slots, RunDispatch);
    }
  }

  /** No default window truncates: a plan never has more than three snapshots. */
  lemma DefaultWindowsSeeEverything(slots: Slots, take: nat)
    requires take >= 3
    ensures Window(slots, take) == Recent(slots)
  {
    RecentLaws(slots);
  }

  // What is visible, slot by slot.

  lemma RecordsHead(s: seq<Snapshot>, t: Target)
    requires s != []
    ensures StatusIn(Records(s), t) ==
            if StatusIn(s[0].mutations, t).Some? then StatusIn(s[0].mutations, t) else StatusIn(Records(s[1..]), t)
  {
    assert Map(s, (x: Snapshot) => x.mutations)[1..] == Map(s[1..], (x: Snapshot) => x.mutations);
    StatusInConcat(s[0].mutations, Records(s[1..]), t);
  }

  lemma {:induction false} NewestThatSpeaks(s: seq<Snapshot>, x: Snapshot, t: Target)
    requires NewestFirst(s) && x in s && StatusIn(x.mutations, t).Some?
    requires forall y :: y in s && StatusIn(y.mutations, t).Some? ==> y == x || y.recordedAt < x.recordedAt
    ensures StatusIn(Records(s), t) == StatusIn(x.mutations, t)
  {
    hide StatusIn, Records;
    RecordsHead(s, t);
    if StatusIn(s[0].mutations, t).None? {
      NewestThatSpeaks(s[1..], x, t);
    } else {
      assert s[0] in s && s[0].recordedAt >= x.recordedAt;
    }
  }

  lemma {:induction false} NobodySpeaks(s: seq<Snapshot>, t: Target)
    requires forall y :: y in s ==> StatusIn(y.mutations, t).None?
    ensures StatusIn(Records(s), t) == None
  {
    if s != [] {
      RecordsHead(s, t);
      NobodySpeaks(s[1..], t);
    }
  }

  ghost predicate Speaks(slots: Slots, kind: SnapshotType, t: Target) {
    kind in slots && StatusIn(slots[kind].mutations, t).Some?
  }

  /** A target shows what the newest slot that mentions it says. */
  lemma VisibleIsNewest(slots: Slots, kind: SnapshotType, t: Target)
    requires Speaks(slots, kind, t)
    requires forall k :: k != kind && Speaks(slots, k, t) ==> slots[k].recordedAt < slots[kind].recordedAt
    ensures Visible(slots, t) == StatusIn(slots[kind].mutations, t)
  {
    RecentLaws(slots);
    NewestThatSpeaks(Recent(slots), slots[kind], t);
  }

  lemma VisibleNowhere(slots: Slots, t: Target)
    requires forall k :: !Speaks(slots, k, t)
    ensures Visible(slots, t) == None
  {
    RecentLaws(slots);
    forall y | y in Recent(slots) ensures StatusIn(y.mutations, t).None? {
      var k :| k in slots && slots[k] == y;
      assert !Speaks(slots, k, t);
    }
    NobodySpeaks(Recent(slots), t);
  }

  // The other reader: one snapshot, scanned from its end.

  /** `[...snapshot.mutationRecords].reverse().find(...)` */
  function LastStatusIn(ms: seq<Mutation>, t: Target): Option<Status> {
    if ms == [] then None
    else if Hits(ms[|ms| - 1], t) then Some(ms[|ms| - 1].toStatus)
    else LastStatusIn(ms[..|ms| - 1], t)
  }

  /** With one record per target the direction of the scan does not matter. */
  lemma {:induction false} ScanDirectionsAgree(ms: seq<Mutation>, t: Target)
    requires DistinctTargets(ms)
    ensures LastStatusIn(ms, t) == StatusIn(ms, t)
  {
    if ms != [] {
      var n := |ms| - 1;
      assert ms == ms[..n] + [ms[n]];
      ScanDirectionsAgree(ms[..n], t);
      StatusInConcat(ms[..n], [ms[n]], t);
      if Hits(ms[n], t) {
        SilentAbout(ms[..n], t);
      }
    }
  }

  function NewestSnapshotStatus(slots: Slots, t: Target): Option<Status> {
    if Recent(slots) == [] then None else LastStatusIn(Recent(slots)[0].mutations, t)
  }

  /** Reading only the newest snapshot is enough exactly when it mentions the target or no snapshot does. */
  lemma NewestSnapshotAloneSuffices(slots: Slots, t: Target)
    requires forall k :: k in slots ==> DistinctTargets(slots[k].mutations)
    ensures NewestSnapshotStatus(slots, t) == Visible(slots, t) <==>
            (Recent(slots) != [] && StatusIn(Recent(slots)[0].mutations, t).Some?) || Visible(slots, t).None?
  {
    RecentLaws(slots);
    var s := Recent(slots);
    if s != [] {
      assert s[0] in s;
      ScanDirectionsAgree(s[0].mutations, t);
      RecordsHead(s, t);
    }
  }

  /** The store, as the runtime history service keeps it for one plan. */
  class RuntimeHistory {
    var slots: Slots

    constructor ()
      ensures slots == map[]
    {
      slots := map[];
    }

    /** Upserts the snapshot's slot. A failing write is logged and reported as null, and changes nothing. */
    method PersistSnapshot(snapshot: Snapshot, writeSucceeds: bool) returns (persisted: Option<Snapshot>)
      modifies this
      ensures writeSucceeds ==> persisted == Some(snapshot) && slots == old(slots)[snapshot.snapshotType := snapshot]
      ensures !writeSucceeds ==> persisted == None && slots == old(slots)
    {
      if writeSucceeds {
        slots := slots[snapshot.snapshotType := snapshot];
        persisted := Some(snapshot);
      } else {
        persisted := None;
      }
    }

    /** The batch lookup: one pass over the records, dropping each key when it is answered. */
    method FindLatestMutations(targets: seq<Target>, take: nat, readSucceeds: bool)
      returns (result: map<Target, Option<Mutation>>)
      ensures result.Keys == set t | t in targets
      ensures forall t :: t in targets ==>
                result[t] == if readSucceeds then Latest(Window(slots, take), t) else None
    {
      result := map t | t in targets :: None;
      if !readSucceeds {
        return;
      }
      var snapshots := Window(slots, take);
      var remaining := set t | t in targets;
      ghost var done: seq<Mutation> := [];
      for n := 0 to |snapshots|
        invariant result.Keys == set t | t in targets
        invariant done == Records(snapshots[..n])
        invariant Answered(result, remaining, done)
      {
        RecordsPush(snapshots, n);
        var records := snapshots[n].mutations;
        if remaining != {} {
          result, remaining := AnswerFrom(records, result, remaining, done);
        } else {
          AllAnswered(result, done, records);
        }
        done := done + records;
      }
      assert snapshots[..|snapshots|] == snapshots;
    }

    /** The inner loop of the batch lookup, over the records of one snapshot. */
    static method AnswerFrom(records: seq<Mutation>, result: map<Target, Option<Mutation>>,
                             remaining: set<Target>, ghost done: seq<Mutation>)
      returns (result': map<Target, Option<Mutation>>, remaining': set<Target>)
      requires Answered(result, remaining, done)
      ensures result'.Keys == result.Keys
      ensures Answered(result', remaining', done + records)
    {
      hide Answered;
      result', remaining' := result, remaining;
      ghost var seen := done;
      assert done + records[..0] == done;
      for k := 0 to |records|
        invariant result'.Keys == result.Keys
        invariant seen == done + records[..k]
        invariant Answered(result', remaining', seen)
      {
        var m := records[k];
        AnswerOne(result', remaining', seen, m);
        if m.targetKey.Some? && Target(m.kind, m.targetKey.value) in remaining' {
          result' := result'[Target(m.kind, m.targetKey.value) := Some(m)];
          remaining' := remaining' - {Target(m.kind, m.targetKey.value)};
        }
        OneMoreRecord(done, records, k);
        seen := seen + [m];
      }
      assert records[..|records|] == records;
    }

    method FindLatestMutation(t: Target, take: nat, readSucceeds: bool) returns (result: Option<Mutation>)
      ensures result == if readSucceeds then Latest(Window(slots, take), t) else None
    {
      var results := FindLatestMutations([t], take, readSucceeds);
      assert t in [t];
      result := results[t];
    }

    /** The history view: the slots newest first, the newest, and for each key the first record met. */
    method ReadRuntimeHistory(take: nat, readSucceeds: bool)
      returns (latestSnapshot: Option<Snapshot>, latest: map<(TargetType, Option<Key>), Mutation>,
               snapshots: seq<Snapshot>)
      ensures !readSucceeds ==> latestSnapshot == None && latest == map[] && snapshots == []
      ensures readSucceeds ==> snapshots == Window(slots, take) && NewestFirst(snapshots)
      ensures latestSnapshot.Some? <==> snapshots != []
      ensures latestSnapshot.Some? ==>
                latestSnapshot.value in snapshots
                && forall s :: s in snapshots ==> s.recordedAt <= latestSnapshot.value.recordedAt
      ensures readSucceeds ==> forall t: Target ::
                (if (t.kind, Some(t.key)) in latest then Some(latest[(t.kind, Some(t.key))]) else None)
                == Latest(Window(slots, take), t)
    {
      latestSnapshot, latest, snapshots := None, map[], [];
      if !readSucceeds {
        return;
      }
      snapshots := Window(slots, take);
      WindowIsNewestFirst(slots, take);
      if snapshots != [] {
        latestSnapshot := Some(snapshots[0]);
      }
      ghost var done: seq<Mutation> := [];
      for n := 0 to |snapshots|
        invariant done == Records(snapshots[..n])
        invariant Collected(latest, done)
      {
        RecordsPush(snapshots, n);
        var records := snapshots[n].mutations;
        ghost var seen := done;
        for k := 0 to |records|
          invariant seen == done + records[..k]
          invariant Collected(latest, seen)
        {
          var m := records[k];
          CollectOne(latest, seen, m);
          seen := seen + [m];
          if (m.kind, m.targetKey) !in latest {
            latest := latest[(m.kind, m.targetKey) := m];
          }
        }
        assert records[..|records|] == records;
        done := seen;
      }
      assert snapshots[..|snapshots|] == snapshots;
    }
  }

  lemma WindowIsNewestFirst(slots: Slots, take: nat)
    ensures NewestFirst(Window(slots, take))
    ensures forall s :: s in Window(slots, take) ==> s.recordedAt <= Window(slots, take)[0].recordedAt
  {
    RecentLaws(slots);
    var w := Window(slots, take);
    forall i, j | 0 <= i < j < |w| ensures w[i].recordedAt >= w[j].recordedAt {
      assert w[i] == Recent(slots)[i] && w[j] == Recent(slots)[j];
    }
    assert NewestFirst(w);
  }

  lemma RecordsPush(s: seq<Snapshot>, n: nat)
    requires n < |s|
    ensures Records(s[..n + 1]) == Records(s[..n]) + s[n].mutations
  {
    var lists := Map(s, (x: Snapshot) => x.mutations);
    assert Map(s[..n], (x: Snapshot) => x.mutations) == lists[..n];
    assert Map(s[..n + 1], (x: Snapshot) => x.mutations) == lists[..n] + [lists[n]];
    FlattenPush(lists[..n], lists[n]);
  }

  lemma {:induction false} FlattenPush<T(!new)>(lists: seq<seq<T>>, last: seq<T>)
    ensures Flatten(lists + [last]) == Flatten(lists) + last
  {
    if lists == [] {
      assert lists + [last] == [last];
      assert Flatten([last][1..]) == [];
    } else {
      assert (lists + [last])[1..] == lists[1..] + [last];
      FlattenPush(lists[1..], last);
    }
  }

  function FirstHit(records: seq<Mutation>, t: Target): Option<Mutation> {
    Find(records, (m: Mutation) => Hits(m, t))
  }

  /** The batch lookup half way: answered keys hold the first hit so far, remaining keys have had none. */
  ghost predicate Answered(result: map<Target, Option<Mutation>>, remaining: set<Target>, done: seq<Mutation>) {
    && remaining <= result.Keys
    && forall t :: t in result.Keys ==>
         result[t] == FirstHit(done, t) && (t in remaining <==> result[t].None?)
  }

  lemma OneMoreRecord(done: seq<Mutation>, records: seq<Mutation>, k: nat)
    requires k < |records|
    ensures done + records[..k] + [records[k]] == done + records[..k + 1]
  {
  }

  /** One record answers the key it hits, if that key is still open. */
  lemma AnswerOne(result: map<Target, Option<Mutation>>, remaining: set<Target>, done: seq<Mutation>, m: Mutation)
    requires Answered(result, remaining, done)
    ensures if m.targetKey.Some? && Target(m.kind, m.targetKey.value) in remaining then
              var t := Target(m.kind, m.targetKey.value);
              t in result && Answered(result[t := Some(m)], remaining - {t}, done + [m])
            else Answered(result, remaining, done + [m])
  {
    hide FirstHit;
    forall t | t in result.Keys
      ensures FirstHit(done + [m], t) == if t in remaining && Hits(m, t) then Some(m) else result[t]
    {
      AnswersKey(result, remaining, done, m, t);
    }
  }

  lemma AnswersKey(result: map<Target, Option<Mutation>>, remaining: set<Target>, done: seq<Mutation>, m: Mutation,
                   t: Target)
    requires Answered(result, remaining, done) && t in result.Keys
    ensures FirstHit(done + [m], t) == if t in remaining && Hits(m, t) then Some(m) else result[t]
  {
    FindConcat(done, [m], (x: Mutation) => Hits(x, t));
  }

  lemma AllAnswered(result: map<Target, Option<Mutation>>, done: seq<Mutation>, records: seq<Mutation>)
    requires Answered(result, {}, done)
    ensures Answered(result, {}, done + records)
  {
    forall t | t in result.Keys ensures FirstHit(done + records, t) == FirstHit(done, t) {
      FindConcat(done, records, (x: Mutation) => Hits(x, t));
    }
  }

  ghost predicate Collected(latest: map<(TargetType, Option<Key>), Mutation>, done: seq<Mutation>) {
    forall t: Target ::
      (if (t.kind, Some(t.key)) in latest then Some(latest[(t.kind, Some(t.key))]) else None) == FirstHit(done, t)
  }

  lemma CollectOne(latest: map<(TargetType, Option<Key>), Mutation>, done: seq<Mutation>, m: Mutation)
    requires Collected(latest, done)
    ensures forall t: Target ::
              FirstHit(done + [m], t) == if FirstHit(done, t).None? && Hits(m, t) then Some(m) else FirstHit(done, t)
  {
    forall t: Target
      ensures FirstHit(done + [m], t) == if FirstHit(done, t).None? && Hits(m, t) then Some(m) else FirstHit(done, t)
    {
      FindConcat(done, [m], (x: Mutation) => Hits(x, t));
    }
  }
}
