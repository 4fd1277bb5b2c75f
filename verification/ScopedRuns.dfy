/**
 Runs of one plan id from several tenants and workspaces: every step reads through the filter of its own scope and
 writes rows that keep the scope of their first writer.
 */
module ScopedRuns {
  import opened Wrappers
  import opened Contracts
  import opened Topology
  import opened Mutations
  import opened Effects
  import opened Plans
  import opened History
  import opened Runtime
  import opened PlanScopes
  import Traces

  datatype ScopedStep = ScopedStep(owner: Owner, step: Step)

  type Table = map<SnapshotType, Row>

  function FilterOf(owner: Owner): ScopeFilter { ScopeFilter(Some(owner.tenantSlug), owner.workspaceSlug) }

  function View(rows: Table, f: ScopeFilter): Slots {
    map kind | kind in rows && Matches(f, rows[kind].owner) :: rows[kind].snapshot
  }

  function Answer(p: Plan, rows: Table, s: ScopedStep): Result<Snapshot, Refusal> {
    Attempt(p, View(rows, FilterOf(s.owner)), s.step)
  }

  /** The writes of a run that reach the table. */
  function Writes(p: Plan, run: seq<ScopedStep>): seq<Write> {
    if run == [] then []
    else
      var before, s := Writes(p, run[..|run| - 1]), run[|run| - 1];
      match Answer(p, Rows(before), s)
      case Failure(_) => before
      case Success(snapshot) => if s.step.writeSucceeds then before + [Write(s.owner, snapshot)] else before
  }

  function TableAfter(p: Plan, run: seq<ScopedStep>): Table { Rows(Writes(p, run)) }

  predicate Accepts(p: Plan, run: seq<ScopedStep>, n: nat)
    requires n < |run|
  {
    Answer(p, TableAfter(p, run[..n]), run[n]).Success?
  }

  predicate Lands(p: Plan, run: seq<ScopedStep>, n: nat)
    requires n < |run|
  {
    Accepts(p, run, n) && run[n].step.writeSucceeds
  }

  /** The table that a step leaves. */
  function Landed(p: Plan, rows: Table, s: ScopedStep): Table {
    if Answer(p, rows, s).Success? && s.step.writeSucceeds then Put(rows, Write(s.owner, Answer(p, rows, s).value))
    else rows
  }

  lemma TableStep(p: Plan, run: seq<ScopedStep>, n: nat)
    requires n < |run|
    ensures TableAfter(p, run[..n + 1]) == Landed(p, TableAfter(p, run[..n]), run[n])
  {
    hide Attempt, Put;
    assert run[..n + 1][..n] == run[..n] && run[..n + 1][n] == run[n];
    var before := Writes(p, run[..n]);
    if Lands(p, run, n) {
      var w := Write(run[n].owner, Answer(p, Rows(before), run[n]).value);
      assert Writes(p, run[..n + 1]) == before + [w];
      assert (before + [w])[..|before|] == before;
    }
  }

  // One scope.

  function StepsOf(run: seq<ScopedStep>): seq<Step> { seq(|run|, n requires 0 <= n < |run| => run[n].step) }

  ghost predicate OwnedBy(rows: Table, run: seq<ScopedStep>) {
    forall kind :: kind in rows ==> exists n :: 0 <= n < |run| && rows[kind].owner == run[n].owner
  }

  lemma {:induction false} RowsAreOwned(p: Plan, run: seq<ScopedStep>)
    ensures OwnedBy(TableAfter(p, run), run)
  {
    hide Attempt, TableAfter, Lands;
    if run == [] {
      EmptyTable(p);
    } else {
      var n := |run| - 1;
      RowsAreOwned(p, run[..n]);
      assert run[..n + 1] == run;
      TableStep(p, run, n);
    }
  }

  lemma EmptyTable(p: Plan)
    ensures TableAfter(p, []) == map[]
  {
  }

  /**
   Scopes that see each other's rows share one history: to each of them the table is the store of the run without its
   scopes, so every theorem about runs holds for them.
   */
  lemma {:induction false} ScopesThatMatchShareTheRun(p: Plan, run: seq<ScopedStep>, f: ScopeFilter)
    requires Sound(p)
    requires forall n :: 0 <= n < |run| ==> Matches(f, run[n].owner)
    requires forall m, n :: 0 <= m < |run| && 0 <= n < |run| ==> Matches(FilterOf(run[m].owner), run[n].owner)
    ensures View(TableAfter(p, run), f) == Exec(p, StepsOf(run))
  {
    hide Attempt, TableAfter, Lands, Matches, FilterOf, View, Sound;
    if run == [] {
      EmptyTable(p);
      EmptyView(f);
    } else {
      var n := |run| - 1;
      var before := TableAfter(p, run[..n]);
      ScopesThatMatchShareTheRun(p, run[..n], f);
      ScopesThatMatchShareTheRun(p, run[..n], FilterOf(run[n].owner));
      assert run[..n + 1] == run && StepsOf(run)[..n] == StepsOf(run[..n]);
      TableStep(p, run, n);
      RowsAreOwned(p, run[..n]);
      SharedStep(p, run, n, f, before);
    }
  }

  lemma EmptyView(f: ScopeFilter)
    ensures View(map[], f) == map[]
  {
  }

  lemma SharedStep(p: Plan, run: seq<ScopedStep>, n: nat, f: ScopeFilter, before: Table)
    requires Sound(p) && n < |run| && before == TableAfter(p, run[..n]) && OwnedBy(before, run[..n])
    requires forall m :: 0 <= m <= n ==> Matches(f, run[m].owner)
    requires View(before, f) == View(before, FilterOf(run[n].owner))
    ensures View(Landed(p, before, run[n]), f) == Next(p, View(before, f), run[n].step)
  {
    hide Attempt, Sound, FilterOf, TableAfter, Matches;
    if Lands(p, run, n) {
      PutIsVisible(before, Write(run[n].owner, Answer(p, before, run[n]).value), f, run[..n]);
    }
  }

  lemma PutIsVisible(rows: Table, w: Write, f: ScopeFilter, run: seq<ScopedStep>)
    requires OwnedBy(rows, run) && Matches(f, w.owner) && forall m :: 0 <= m < |run| ==> Matches(f, run[m].owner)
    ensures View(Put(rows, w), f) == View(rows, f)[w.snapshot.snapshotType := w.snapshot]
  {
    hide Matches;
  }

  // Several scopes.

  /** The last step of a kind that landed, or -1. */
  function LastLanded(p: Plan, run: seq<ScopedStep>, kind: SnapshotType): (r: int)
    ensures -1 <= r < |run|
    ensures r >= 0 ==> Traces.TypeOf(run[r].step) == kind
  {
    if run == [] then -1
    else if Traces.TypeOf(run[|run| - 1].step) == kind && Lands(p, run, |run| - 1) then |run| - 1
    else LastLanded(p, run[..|run| - 1], kind)
  }

  lemma LandsInPrefix(p: Plan, run: seq<ScopedStep>, n: nat, m: nat)
    requires m < n <= |run|
    ensures Lands(p, run[..n], m) <==> Lands(p, run, m)
  {
    hide Attempt, TableAfter;
    assert run[..n][..m] == run[..m];
  }

  lemma {:induction false} LastLandedIsLast(p: Plan, run: seq<ScopedStep>, kind: SnapshotType)
    ensures var r := LastLanded(p, run, kind);
            && (r >= 0 ==> Lands(p, run, r))
            && forall m :: r < m < |run| && Traces.TypeOf(run[m].step) == kind ==> !Lands(p, run, m)
  {
    hide Lands;
    if run != [] {
      var n := |run| - 1;
      LastLandedIsLast(p, run[..n], kind);
      forall m | 0 <= m < n ensures Lands(p, run[..n], m) <==> Lands(p, run, m) {
        LandsInPrefix(p, run, n, m);
      }
    }
  }

  /** Each row reports the last landed step of its kind, whichever scope took it. */
  ghost predicate RowsMirror(p: Plan, run: seq<ScopedStep>, rows: Table) {
    forall kind ::
      && (kind in rows <==> LastLanded(p, run, kind) >= 0)
      && (kind in rows ==> Traces.Reports(p, rows[kind].snapshot, run[LastLanded(p, run, kind)].step))
  }

  lemma {:induction false} RowsMirrorTheRun(p: Plan, run: seq<ScopedStep>)
    requires Sound(p)
    ensures RowsMirror(p, run, TableAfter(p, run))
  {
    hide Attempt, Traces.Reports, Sound, TableAfter, Put, RowsMirror;
    if run == [] {
      EmptyTable(p);
      EmptyMirror(p);
    } else {
      var n := |run| - 1;
      RowsMirrorTheRun(p, run[..n]);
      assert run[..n + 1] == run;
      TableStep(p, run, n);
      MirrorStep(p, run, n, TableAfter(p, run[..n]));
    }
  }

  lemma EmptyMirror(p: Plan)
    ensures RowsMirror(p, [], map[])
  {
  }

  lemma MirrorStep(p: Plan, run: seq<ScopedStep>, n: nat, before: Table)
    requires Sound(p) && |run| == n + 1 && before == TableAfter(p, run[..n]) && RowsMirror(p, run[..n], before)
    ensures RowsMirror(p, run, Landed(p, before, run[n]))
  {
    hide Attempt, Traces.Reports, Sound, TableAfter, View;
    if Lands(p, run, n) {
      var slots := View(before, FilterOf(run[n].owner));
      Traces.AcceptedStepReports(p, slots, run[n].step);
      Traces.ReportsTime(p, Attempt(p, slots, run[n].step).value, run[n].step);
    }
  }

  /** What is visible is said by some slot. */
  lemma VisibleIsSaid(slots: Slots, t: Target) returns (kind: SnapshotType)
    requires Visible(slots, t).Some?
    ensures kind in slots && StatusIn(slots[kind].mutations, t) == Visible(slots, t)
  {
    RecentLaws(slots);
    var snapshot := SomeoneSays(Recent(slots), t);
    kind :| kind in slots && slots[kind] == snapshot;
  }

  lemma {:induction false} SomeoneSays(s: seq<Snapshot>, t: Target) returns (snapshot: Snapshot)
    requires StatusIn(Records(s), t).Some?
    ensures snapshot in s && StatusIn(snapshot.mutations, t) == StatusIn(Records(s), t)
  {
    if s == [] {
      NobodySpeaks(s, t);
    }
    RecordsHead(s, t);
    if StatusIn(s[0].mutations, t).Some? {
      snapshot := s[0];
    } else {
      snapshot := SomeoneSays(s[1..], t);
    }
  }

  /**
   Whatever scopes use a plan id, and with no assumption on the clock, an accepted dispatch of a gated run has behind it
   an approval of its task by some scope, the last decision that anyone took under the plan id.
   */
  lemma ScopedDispatchFollowsApproval(p: Plan, run: seq<ScopedStep>, n: nat, i: nat) returns (k: nat)
    requires Sound(p) && n < |run| && run[n].step.Dispatch? && Accepts(p, run, n)
    requires i < |p.contract.children| && run[n].step.runKey == RunKey(i) && Gated(p.contract, i)
    ensures k < n && Lands(p, run, k) && Traces.IsApprovalOf(run[k].step, GateOf(p.contract, i))
    ensures forall m :: k < m < n && Lands(p, run, m) ==> !run[m].step.Decide?
  {
    hide Attempt, Sound, Visible, TableAfter, Writes, Gated, GateOf;
    var rows := TableAfter(p, run[..n]);
    var slots := View(rows, FilterOf(run[n].owner));
    Traces.SoundVerdict(p);
    RunIsFound(p, i);
    Traces.DispatchVerdict(p, slots, run[n].step, i, p.queue[i]);
    var kind := VisibleIsSaid(slots, Part(i, RunTarget));
    RowsMirrorTheRun(p, run[..n]);
    var r := LastLanded(p, run[..n], kind);
    QueuedMeansApproved(p, slots[kind], run[r].step, i);
    LastLandedIsLast(p, run[..n], kind);
    k := r;
    forall m | 0 <= m < n ensures Lands(p, run[..n], m) <==> Lands(p, run, m) {
      LandsInPrefix(p, run, n, m);
    }
  }

  /** A snapshot says that a gated run is queued exactly when its step approved the task. */
  lemma QueuedMeansApproved(p: Plan, snapshot: Snapshot, s: Step, i: nat)
    requires Traces.Reports(p, snapshot, s) && i < |p.contract.children| && Gated(p.contract, i)
    ensures StatusIn(snapshot.mutations, Part(i, RunTarget)) == Some(QueuedForDispatch) <==>
            Traces.IsApprovalOf(s, GateOf(p.contract, i))
  {
    hide StatusIn, Faithful;
    Traces.ReportsSayPart(p, snapshot, s, i, RunTarget);
  }

  // When the approval is the scope's own.

  /** Every accepted dispatch of run i by a has behind it an approval of a's own, the last decision among its own. */
  ghost predicate ApprovedByOwn(p: Plan, run: seq<ScopedStep>, a: Owner, i: nat)
    requires i < |p.contract.children|
  {
    forall n :: 0 <= n < |run| && run[n].owner == a && run[n].step.Dispatch? && run[n].step.runKey == RunKey(i)
                && Accepts(p, run, n) ==>
      exists k :: 0 <= k < n && OwnApproval(p, run, a, i, k, n)
  }

  ghost predicate OwnApproval(p: Plan, run: seq<ScopedStep>, a: Owner, i: nat, k: nat, n: nat)
    requires i < |p.contract.children| && k < n <= |run|
  {
    && Lands(p, run, k) && Matches(FilterOf(a), run[k].owner)
    && Traces.IsApprovalOf(run[k].step, GateOf(p.contract, i))
    && forall m :: k < m < n && Lands(p, run, m) && Matches(FilterOf(a), run[m].owner) ==> !run[m].step.Decide?
  }

  ghost predicate Among(run: seq<ScopedStep>, a: Owner, b: Owner) {
    Runtime.Increasing(StepsOf(run)) && forall n :: 0 <= n < |run| ==> run[n].owner == a || run[n].owner == b
  }

  /** b activates and approves what a rejected, and a's run is dispatched. */
  function ForeignApproval(a: Owner, b: Owner, i: nat, j: nat): seq<ScopedStep> {
    [ScopedStep(a, Decide(0, TaskKey(j), Reject, true, true, true, true)), ScopedStep(b, Activate(1, true)),
     ScopedStep(b, Decide(2, TaskKey(j), Approve, true, true, true, true)),
     ScopedStep(a, Dispatch(3, RunKey(i), true, true, true))]
  }

  /**
   When two scopes share a plan id, the gated runs of the one are dispatched on its own approval, on every run of the
   two, if and only if its filter lets the other's rows through.
   */
  lemma SharedPlanIsSafeIff(p: Plan, a: Owner, b: Owner, i: nat)
    requires Sound(p) && i < |p.contract.children| && Gated(p.contract, i)
    ensures (forall run :: Among(run, a, b) ==> ApprovedByOwn(p, run, a, i)) <==> SeesRowsOf(a, b)
  {
    SeesIffMatches(a, b);
    hide Sound, Among, ApprovedByOwn, Gated, GateOf, Matches;
    Traces.GatesExist(p);
    if Matches(FilterOf(a), b) {
      forall run | Among(run, a, b) ensures ApprovedByOwn(p, run, a, i) {
        MatchingScopeIsSafe(p, run, a, b, i);
      }
    } else {
      ForeignApprovalIsUsed(p, a, b, i);
      ForeignRunIsAmong(a, b, i, GateOf(p.contract, i));
    }
  }

  /** The scope reads the rows of the other: of its own tenant, and of its own workspace if it names one. */
  predicate SeesRowsOf(a: Owner, b: Owner) {
    && (a.tenantSlug == "" || b.tenantSlug == a.tenantSlug)
    && (a.workspaceSlug == None || a.workspaceSlug == Some("") || b.workspaceSlug == a.workspaceSlug)
  }

  lemma SeesIffMatches(a: Owner, b: Owner)
    ensures Matches(FilterOf(a), b) <==> SeesRowsOf(a, b)
  {
  }

  lemma OwnMatches(a: Owner)
    ensures Matches(FilterOf(a), a)
  {
  }

  lemma MatchingScopeIsSafe(p: Plan, run: seq<ScopedStep>, a: Owner, b: Owner, i: nat)
    requires Sound(p) && i < |p.contract.children| && Gated(p.contract, i)
    requires Among(run, a, b) && Matches(FilterOf(a), b)
    ensures ApprovedByOwn(p, run, a, i)
  {
    hide Sound, Gated, GateOf, Accepts, Lands, Matches, Runtime.Increasing;
    OwnMatches(a);
    forall n | 0 <= n < |run| && run[n].owner == a && run[n].step.Dispatch? && run[n].step.runKey == RunKey(i)
               && Accepts(p, run, n)
      ensures exists k :: 0 <= k < n && OwnApproval(p, run, a, i, k, n)
    {
      var k := ScopedDispatchFollowsApproval(p, run, n, i);
      assert OwnApproval(p, run, a, i, k, n);
    }
  }

  lemma ForeignRunIsAmong(a: Owner, b: Owner, i: nat, j: nat)
    ensures Among(ForeignApproval(a, b, i, j), a, b)
  {
  }

  lemma DecisionIsTaken(p: Plan, slots: Slots, s: Step, j: nat)
    requires Sound(p) && s.Decide? && s.readsTask && j < |p.contract.approvals| && s.taskKey == TaskKey(j)
    requires Visible(slots, End(j, TaskTarget)).GetOr(AwaitingDecision) == AwaitingDecision
    ensures Attempt(p, slots, s).Success? && Traces.Reports(p, Attempt(p, slots, s).value, s)
  {
    hide Attempt, Sound, Visible, Traces.Reports;
    Traces.SoundVerdict(p);
    TaskIsFound(p, j);
    Traces.DecisionVerdict(p, slots, s, j, p.tasks[j]);
    Traces.AcceptedStepReports(p, slots, s);
  }

  lemma RunIsTaken(p: Plan, slots: Slots, s: Step, i: nat)
    requires Sound(p) && s.Dispatch? && s.readsRun && i < |p.contract.children| && s.runKey == RunKey(i)
    requires Visible(slots, Part(i, RunTarget)) == Some(QueuedForDispatch)
    ensures Attempt(p, slots, s).Success?
  {
    hide Attempt, Sound, Visible;
    Traces.SoundVerdict(p);
    RunIsFound(p, i);
    Traces.DispatchVerdict(p, slots, s, i, p.queue[i]);
  }

  /** A slot newer than all others decides. */
  lemma NewestSays(slots: Slots, kind: SnapshotType, t: Target, said: Option<Status>)
    requires kind in slots && said.Some? && StatusIn(slots[kind].mutations, t) == said
    requires forall k :: k in slots && k != kind ==> slots[k].recordedAt < slots[kind].recordedAt
    ensures Visible(slots, t) == said
  {
    hide StatusIn, Visible;
    VisibleIsNewest(slots, kind, t);
  }

  lemma NothingIsVisible(t: Target)
    ensures Visible(map[], t) == None
  {
    hide StatusIn, Visible;
    VisibleNowhere(map[], t);
  }

  /** The first three steps leave a row of a that says what b approved, and a row of b that a cannot see. */
  lemma ForeignTable(p: Plan, a: Owner, b: Owner, i: nat, j: nat) returns (approved: Snapshot, activated: Snapshot)
    requires Sound(p) && j < |p.contract.approvals|
    ensures var run := ForeignApproval(a, b, i, j);
            && Traces.Reports(p, approved, run[2].step)
            && TableAfter(p, run[..3]) ==
               map[ApprovalDecision := Row(a, approved), MaterializedRuntime := Row(b, activated)]
  {
    hide Attempt, Sound, Visible, StatusIn, Traces.Reports, TableAfter, Matches, FilterOf;
    var run := ForeignApproval(a, b, i, j);
    var t := End(j, TaskTarget);
    assert run[..0] == [];
    EmptyTable(p);
    EmptyView(FilterOf(a));
    NothingIsVisible(t);
    DecisionIsTaken(p, map[], run[0].step, j);
    TableStep(p, run, 0);
    var rejected := Attempt(p, map[], run[0].step).value;
    Traces.ReportsTime(p, rejected, run[0].step);
    assert TableAfter(p, run[..1]) == map[ApprovalDecision := Row(a, rejected)];
    activated := ForeignActivation(p, a, b, rejected, run, j);
    var slots := View(TableAfter(p, run[..2]), FilterOf(b));
    OwnMatches(b);
    NewestSays(slots, MaterializedRuntime, t, Some(AwaitingDecision));
    DecisionIsTaken(p, slots, run[2].step, j);
    TableStep(p, run, 2);
    approved := Attempt(p, slots, run[2].step).value;
    Traces.ReportsTime(p, approved, run[2].step);
  }

  lemma ForeignActivation(p: Plan, a: Owner, b: Owner, rejected: Snapshot, run: seq<ScopedStep>, j: nat)
    returns (activated: Snapshot)
    requires Sound(p) && j < |p.contract.approvals| && |run| >= 2 && run[1] == ScopedStep(b, Activate(1, true))
    requires TableAfter(p, run[..1]) == map[ApprovalDecision := Row(a, rejected)]
    ensures activated.recordedAt == 1
    ensures StatusIn(activated.mutations, End(j, TaskTarget)) == Some(AwaitingDecision)
    ensures TableAfter(p, run[..2]) ==
            map[ApprovalDecision := Row(a, rejected), MaterializedRuntime := Row(b, activated)]
  {
    hide Sound, StatusIn, Traces.Reports, TableAfter, View;
    var slots := View(TableAfter(p, run[..1]), FilterOf(b));
    Traces.AcceptedActivationReports(p, slots, run[1].step);
    activated := Attempt(p, slots, run[1].step).value;
    Traces.ReportsTime(p, activated, run[1].step);
    Traces.ReportsSayEnd(p, activated, run[1].step, j, TaskTarget);
    TableStep(p, run, 1);
  }

  /** The run of the other direction: a has only ever rejected its task, and its run is dispatched. */
  lemma ForeignApprovalIsUsed(p: Plan, a: Owner, b: Owner, i: nat)
    requires Sound(p) && i < |p.contract.children| && Gated(p.contract, i) && !Matches(FilterOf(a), b)
    ensures !ApprovedByOwn(p, ForeignApproval(a, b, i, GateOf(p.contract, i)), a, i)
  {
    hide Attempt, Sound, Visible, StatusIn, Traces.Reports, TableAfter, Matches, FilterOf, Gated, GateOf;
    Traces.GatesExist(p);
    var j := GateOf(p.contract, i);
    var run := ForeignApproval(a, b, i, j);
    var approved, activated := ForeignTable(p, a, b, i, j);
    var slots := View(TableAfter(p, run[..3]), FilterOf(a));
    OwnMatches(a);
    QueuedMeansApproved(p, approved, run[2].step, i);
    NewestSays(slots, ApprovalDecision, Part(i, RunTarget), Some(QueuedForDispatch));
    RunIsTaken(p, slots, run[3].step, i);
    assert Accepts(p, run, 3);
    forall k: nat | k < 3 ensures !OwnApproval(p, run, a, i, k, 3) {
      assert k == 0 || k == 1 || k == 2;
    }
  }
}
