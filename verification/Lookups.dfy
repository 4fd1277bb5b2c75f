/**
 The readers of the persisted history compared on every store a run can reach: the batch scan, the single lookup and
 the history view always agree, and the reader of the newest snapshot alone is right exactly when the last step to
 speak of the target is also the newest one persisted.
 */
module Lookups {
  import opened Wrappers
  import opened Lists
  import opened Contracts
  import opened Validation
  import opened Topology
  import opened Mutations
  import opened Effects
  import opened Plans
  import opened Activation
  import opened History
  import opened Runtime
  import opened Traces

  ghost predicate AllDistinct(slots: Slots) {
    forall kind :: kind in slots ==> DistinctTargets(slots[kind].mutations)
  }

  lemma AcceptedStepIsDistinct(p: Plan, slots: Slots, s: Step)
    requires Sound(p) && Attempt(p, slots, s).Success?
    ensures DistinctTargets(Attempt(p, slots, s).value.mutations)
  {
    hide DistinctTargets, DecideTask, DispatchRun, ActivationMutations;
    match s
    case Activate(_, _) => ActivationIsDistinct(p.contract, p.approvals, p.integrations);
    case Decide(_, taskKey, decision, _, _, _, _) =>
      var j := TaskFound(p, taskKey);
      AcceptedDecisionIsDistinct(p, slots, s, j);
    case Dispatch(_, runKey, _, _, _) =>
      var i := RunFound(p, runKey);
      AcceptedDispatchIsDistinct(p, slots, s, p.queue[i]);
  }

  lemma AcceptedDecisionIsDistinct(p: Plan, slots: Slots, s: Step, j: nat)
    requires Sound(p) && s.Decide? && j < |p.tasks| && DecideTask(p, slots, s, p.tasks[j]).Success?
    ensures DistinctTargets(DecideTask(p, slots, s, p.tasks[j]).value.mutations)
  {
    hide DistinctTargets, DecisionMutations, TaskShaped, Visible;
    var task := p.tasks[j];
    assert TaskSound(p.contract, task, j);
    var status := See(slots, Target(TaskTarget, task.taskKey), s.readsTask).GetOr(InitialTaskStatus(task));
    var dispatchSeen := See(slots, Target(DispatchTarget, task.dispatchKey), s.readsDispatch);
    DecisionIsDistinct(p.contract, p.integrations, task, j, s.decision, status, dispatchSeen.GetOr(Dispatched),
                       SeenIn(slots, s.readsRuns));
  }

  lemma AcceptedDispatchIsDistinct(p: Plan, slots: Slots, s: Step, q: QueueEntry)
    requires s.Dispatch? && DispatchRun(p, slots, s, q).Success?
    ensures DistinctTargets(DispatchRun(p, slots, s, q).value.mutations)
  {
    hide DistinctTargets, DispatchMutations, Visible, ActionKeyOf;
    DispatchIsDistinct(q, ActionKeyOf(p, s.runKey), See(slots, Target(RunTarget, s.runKey), s.readsRun),
                       SeenIn(slots, s.readsParts));
  }

  /** No snapshot of a reachable store speaks of one target twice. */
  lemma {:induction false} ReachableStoresAreDistinct(p: Plan, run: seq<Step>)
    requires Sound(p)
    ensures AllDistinct(Exec(p, run))
  {
    hide Attempt;
    if run != [] {
      var n := |run| - 1;
      ReachableStoresAreDistinct(p, run[..n]);
      if Accepted(p, run, n) {
        AcceptedStepIsDistinct(p, Exec(p, run[..n]), run[n]);
      }
    }
  }

  function StatusOf(m: Option<Mutation>): Option<Status> {
    match m
    case None => None
    case Some(x) => Some(x.toStatus)
  }

  /** Scanning every snapshot backwards, newest snapshot first. */
  function BackwardStatus(snapshots: seq<Snapshot>, t: Target): Option<Status> {
    if snapshots == [] then None
    else if LastStatusIn(snapshots[0].mutations, t).Some? then LastStatusIn(snapshots[0].mutations, t)
    else BackwardStatus(snapshots[1..], t)
  }

  lemma {:induction false} BackwardAgrees(snapshots: seq<Snapshot>, t: Target)
    requires forall x :: x in snapshots ==> DistinctTargets(x.mutations)
    ensures BackwardStatus(snapshots, t) == StatusIn(Records(snapshots), t)
  {
    if snapshots != [] {
      RecordsHead(snapshots, t);
      ScanDirectionsAgree(snapshots[0].mutations, t);
      BackwardAgrees(snapshots[1..], t);
    }
  }

  /**
   On every reachable store the lookups by batch and by target, the history view with its shorter window, and a scan
   of the snapshots from their ends all answer the visible status.
   */
  lemma LookupsAgree(p: Plan, run: seq<Step>, t: Target, take: nat)
    requires Sound(p) && take >= 3
    ensures StatusOf(Latest(Window(Exec(p, run), take), t)) == Visible(Exec(p, run), t)
    ensures BackwardStatus(Window(Exec(p, run), take), t) == Visible(Exec(p, run), t)
    ensures Window(Exec(p, run), DEFAULT_HISTORY_TAKE) == Window(Exec(p, run), DEFAULT_MUTATION_TAKE)
  {
    var slots := Exec(p, run);
    ReachableStoresAreDistinct(p, run);
    DefaultWindowsSeeEverything(slots, take);
    DefaultWindowsSeeEverything(slots, DEFAULT_HISTORY_TAKE);
    DefaultWindowsSeeEverything(slots, DEFAULT_MUTATION_TAKE);
    RecentLaws(slots);
    BackwardAgrees(Recent(slots), t);
  }

  // The reader that looks at the newest snapshot only.

  /** The newest persisted step, or -1. */
  function Newest(p: Plan, run: seq<Step>): int {
    Latest2(Latest2(LastOf(p, run, MaterializedRuntime), LastOf(p, run, ApprovalDecision)),
            LastOf(p, run, RunDispatch))
  }

  lemma EmptyStoreHasNoSnapshot(slots: Slots)
    requires forall kind :: kind !in slots
    ensures Recent(slots) == []
  {
  }

  lemma NewestSnapshot(p: Plan, run: seq<Step>)
    requires Sound(p) && Increasing(run)
    ensures Newest(p, run) < 0 <==> Recent(Exec(p, run)) == []
    ensures Newest(p, run) >= 0 ==> Reports(p, Recent(Exec(p, run))[0], run[Newest(p, run)])
  {
    hide Attempt, Exec, LastOf, Recent, Reports;
    var slots := Exec(p, run);
    SlotsMirrorTheRun(p, run);
    RecentLaws(slots);
    var w := Newest(p, run);
    if w >= 0 {
      var kind := TypeOf(run[w]);
      assert kind in slots && slots[kind] in Recent(slots);
      var first := Recent(slots)[0];
      assert first in Recent(slots) && first.recordedAt >= slots[kind].recordedAt;
      var other :| other in slots && slots[other] == first;
      ReportsTime(p, first, run[LastOf(p, run, other)]);
      ReportsTime(p, slots[kind], run[w]);
      assert LastOf(p, run, other) == w;
    } else {
      EmptyStoreHasNoSnapshot(slots);
    }
  }

  /** For a part of a child, the newest snapshot alone is enough exactly when no later step hides its last word. */
  lemma NewestReaderOfPart(p: Plan, run: seq<Step>, i: nat, kind: TargetType)
    requires Sound(p) && Increasing(run) && i < |p.contract.children| && IsPart(kind)
    ensures NewestSnapshotStatus(Exec(p, run), Part(i, kind)) == Visible(Exec(p, run), Part(i, kind)) <==>
            LastWordOnRun(p, run, i) < 0 || LastWordOnRun(p, run, i) == Newest(p, run)
  {
    hide Attempt, Exec, LastOf, Sound, Reports, Visible, Recent, PartSays, NewestSnapshotStatus, StatusIn;
    var slots := Exec(p, run);
    ReachableStoresAreDistinct(p, run);
    NewestSnapshotAloneSuffices(slots, Part(i, kind));
    NewestSnapshot(p, run);
    VisiblePart(p, run, i, kind);
    LastWordSpeaks(p, run, i, kind);
    NewestSpeaksIff(p, run, i, kind);
    if Newest(p, run) >= 0 {
      ReportsSayPart(p, Recent(slots)[0], run[Newest(p, run)], i, kind);
    }
  }

  /** The newest persisted step speaks of a run exactly when it has the last word on it. */
  lemma NewestSpeaksIff(p: Plan, run: seq<Step>, i: nat, kind: TargetType)
    requires Sound(p) && i < |p.contract.children| && IsPart(kind)
    ensures var n := Newest(p, run); n >= 0 ==>
              (PartSays(p.contract, EventOf(run[n]), i, kind).Some? <==> LastWordOnRun(p, run, i) == n)
  {
    hide Attempt, Exec, LastOf, Sound;
  }
}
