/**
 The run transition policies that submission emits, against the changes that decisions and dispatches really record.
 With one approval the records follow the policies on every run; with more, exactly one pattern of history breaks them.
 */
module Policies {
  import opened Wrappers
  import opened Lists
  import opened Contracts
  import opened Validation
  import opened Topology
  import opened Mutations
  import opened Effects
  import opened Plans
  import opened History
  import opened Runtime
  import opened Traces

  /** Runs are emitted in these statuses only, so only these have a policy. */
  predicate HasPolicy(status: Status) { status == Blocked || status == AwaitingApproval || status == QueuedForDispatch }

  /** The change is an edge of a run transition policy. */
  predicate FollowsPolicy(from: Status, to: Status) {
    || (from == Blocked && to == QueuedForDispatch)
    || (from == AwaitingApproval && (to == QueuedForDispatch || to == Cancelled))
    || (from == QueuedForDispatch && (to == Dispatched || to == DispatchFailed || to == Cancelled))
  }

  /** The emitted lists of next statuses, as a table. */
  lemma AllowedNextIs(from: Status, to: Status)
    requires HasPolicy(from)
    ensures to in AllowedNext(from) <==> FollowsPolicy(from, to)
  {
  }

  function RecordIn(ms: seq<Mutation>, t: Target): Option<Mutation> {
    Find(ms, (m: Mutation) => Hits(m, t))
  }

  /** The record a snapshot holds for a part of child i. */
  function PartRecord(snapshot: Snapshot, i: nat, kind: TargetType): Option<Mutation>
    requires IsPart(kind)
  {
    RecordIn(snapshot.mutations, Part(i, kind))
  }

  function RunRecord(snapshot: Snapshot, i: nat): Option<Mutation> { PartRecord(snapshot, i, RunTarget) }

  function PartChange(i: nat, kind: TargetType, from: Status, to: Status): Mutation
    requires IsPart(kind)
  {
    Mutation(kind, Some(Part(i, kind).key), from, to, AppliedMutation)
  }

  /** The status a run is in: the visible one, or the one it was emitted with. */
  function CurrentStatus(p: Plan, run: seq<Step>, i: nat): Status
    requires i < |p.contract.children|
  {
    Visible(Exec(p, run), Part(i, RunTarget)).GetOr(EmittedRunStatus(p.contract, i))
  }

  // The record of each part in each kind of snapshot.

  function PositionOf(kind: TargetType): nat
    requires IsPart(kind)
  {
    match kind
    case RunTarget => 0
    case RunnerTarget => 1
    case ActionTarget => 2
    case TransitionTarget => 3
  }

  /** A part that nothing is known of counts as activated and waiting for its approval. */
  lemma RecordInDecisionBlock(i: nat, gated: bool, decision: Decision, seen: Target -> Option<Status>, kind: TargetType)
    requires IsPart(kind)
    ensures RecordIn(DecisionBlock(RunKey(i), Some(ExpectedIntegration(i, gated)), decision, seen), Part(i, kind)) ==
            Some(PartChange(i, kind, seen(Part(i, kind)).GetOr(ActivatedStatus(true, kind)),
                            DecidedStatus(decision, kind)))
  {
    FindUnique(DecisionBlock(RunKey(i), Some(ExpectedIntegration(i, gated)), decision, seen),
               (m: Mutation) => Hits(m, Part(i, kind)), PositionOf(kind));
  }

  lemma RecordInDecisionParts(d: Draft, rs: seq<RunnerIntegration>, keys: seq<Key>, decision: Decision,
                              seen: Target -> Option<Status>, i: nat, kind: TargetType)
    requires RunnersShaped(d, rs) && RunKey(i) in keys && i < |rs| && IsPart(kind)
    requires forall b :: 0 <= b < |keys| ==> Owner(keys[b]) < |rs| && keys[b] == RunKey(Owner(keys[b]))
    ensures RecordIn(DecisionParts(rs, keys, decision, seen), Part(i, kind)) ==
            Some(PartChange(i, kind, seen(Part(i, kind)).GetOr(ActivatedStatus(true, kind)),
                            DecidedStatus(decision, kind)))
  {
    hide DecisionBlock, DecidedStatus, ActivatedStatus, Gated, Part;
    var t := Part(i, kind);
    var blocks := DecisionBlocks(rs, keys, decision, seen);
    DecisionBlockShapes(d, rs, keys, decision, seen);
    var k := FirstPosition(keys, i);
    FindUnique(rs, (r: RunnerIntegration) => r.runKey == RunKey(i), i);
    RecordInDecisionBlock(i, Gated(d, i), decision, seen, kind);
    forall b, m | 0 <= b < k && m in blocks[b] ensures !Hits(m, t) {
      AboutAnother(blocks[b], OwnersOf(keys)[b], DecidedStatuses(|keys|, decision)[b], i, kind, m);
    }
    FindFlat(blocks, (m: Mutation) => Hits(m, t), k);
  }

  lemma AboutAnother(block: seq<Mutation>, owner: nat, status: TargetType -> Status, i: nat, kind: TargetType,
                     m: Mutation)
    requires ChildBlock(block, owner, status) && owner != i && IsPart(kind) && m in block
    ensures !Hits(m, Part(i, kind))
  {
    assert AboutPart(m, owner);
  }

  lemma RecordInDecision(d: Draft, rs: seq<RunnerIntegration>, task: Task, j: nat, decision: Decision,
                         taskFrom: Status, dispatchFrom: Status, seen: Target -> Option<Status>, i: nat,
                         kind: TargetType)
    requires RunnersShaped(d, rs) && TaskShaped(d, task, j) && i < |d.children| && GatedBy(d, i, j) && IsPart(kind)
    ensures RecordIn(DecisionEnds(task, decision, taskFrom, dispatchFrom)
                     + DecisionParts(rs, task.linkedRunKeys, decision, seen), Part(i, kind)) ==
            Some(PartChange(i, kind, seen(Part(i, kind)).GetOr(ActivatedStatus(true, kind)),
                            DecidedStatus(decision, kind)))
  {
    hide DecisionParts, DecidedStatus, ActivatedStatus, GatedBy;
    RecordInDecisionParts(d, rs, task.linkedRunKeys, decision, seen, i, kind);
    FindConcat(DecisionEnds(task, decision, taskFrom, dispatchFrom),
               DecisionParts(rs, task.linkedRunKeys, decision, seen), (m: Mutation) => Hits(m, Part(i, kind)));
  }

  /** An accepted decision records, for each part of each run it settles, the status its read answered. */
  lemma RecordOfDecision(p: Plan, slots: Slots, s: Step, i: nat, j: nat, kind: TargetType)
    requires Sound(p) && s.Decide? && s.taskKey == TaskKey(j) && GatedBy(p.contract, i, j) && IsPart(kind)
    requires Attempt(p, slots, s).Success?
    ensures PartRecord(Attempt(p, slots, s).value, i, kind) ==
            Some(PartChange(i, kind, See(slots, Part(i, kind), s.readsRuns).GetOr(ActivatedStatus(true, kind)),
                            DecidedStatus(s.decision, kind)))
  {
    hide Sound, DecideTask, PartRecord, Visible, Find;
    SoundVerdict(p);
    TaskIsFound(p, j);
    assert AttemptDecision(p, slots, s) == DecideTask(p, slots, s, p.tasks[j]);
    RecordOfTaskDecision(p, slots, s, i, j, kind);
  }

  lemma RecordOfTaskDecision(p: Plan, slots: Slots, s: Step, i: nat, j: nat, kind: TargetType)
    requires Sound(p) && s.Decide? && GatedBy(p.contract, i, j) && IsPart(kind) && j < |p.tasks|
    requires DecideTask(p, slots, s, p.tasks[j]).Success?
    ensures PartRecord(DecideTask(p, slots, s, p.tasks[j]).value, i, kind) ==
            Some(PartChange(i, kind, See(slots, Part(i, kind), s.readsRuns).GetOr(ActivatedStatus(true, kind)),
                            DecidedStatus(s.decision, kind)))
  {
    hide Visible, DecisionEnds, DecisionParts, DecidedStatus, ActivatedStatus, Gated, GateOf, TaskShaped, RunnersShaped;
    var task := p.tasks[j];
    assert TaskSound(p.contract, task, j);
    var status := See(slots, Target(TaskTarget, task.taskKey), s.readsTask).GetOr(InitialTaskStatus(task));
    var dispatchSeen := See(slots, Target(DispatchTarget, task.dispatchKey), s.readsDispatch);
    RecordInDecision(p.contract, p.integrations, task, j, s.decision, status, dispatchSeen.GetOr(Dispatched),
                     SeenIn(slots, s.readsRuns), i, kind);
  }

  /** The task changes from awaiting a decision, and its dispatch from what was read of it. */
  predicate SettlesEnds(snapshot: Snapshot, slots: Slots, s: Step, j: nat)
    requires s.Decide?
  {
    var to := SettledStatus(s.decision);
    && RecordIn(snapshot.mutations, End(j, TaskTarget)) ==
       Some(Mutation(TaskTarget, Some(TaskKey(j)), AwaitingDecision, to, AppliedMutation))
    && RecordIn(snapshot.mutations, End(j, DispatchTarget)) ==
       Some(Mutation(DispatchTarget, Some(ApprovalKey(j + 1)),
                     See(slots, End(j, DispatchTarget), s.readsDispatch).GetOr(Dispatched), to, AppliedMutation))
  }

  /** An accepted decision always records its task's change from awaiting a decision. */
  lemma RecordOfEnds(p: Plan, slots: Slots, s: Step, j: nat)
    requires Sound(p) && s.Decide? && s.taskKey == TaskKey(j) && j < |p.tasks| && Attempt(p, slots, s).Success?
    ensures SettlesEnds(Attempt(p, slots, s).value, slots, s, j)
  {
    hide Sound, DecideTask, SettlesEnds, Visible, Find, AttemptActivation, AttemptDispatch;
    SoundVerdict(p);
    TaskIsFound(p, j);
    assert AttemptDecision(p, slots, s) == DecideTask(p, slots, s, p.tasks[j]);
    RecordOfTaskEnds(p, slots, s, j, p.tasks[j]);
  }

  lemma RecordOfTaskEnds(p: Plan, slots: Slots, s: Step, j: nat, task: Task)
    requires s.Decide? && task.taskKey == TaskKey(j) && task.dispatchKey == ApprovalKey(j + 1)
    requires DecideTask(p, slots, s, task).Success?
    ensures SettlesEnds(DecideTask(p, slots, s, task).value, slots, s, j)
  {
    hide Visible, DecisionParts, RunnerIntegrations;
    var ms := DecideTask(p, slots, s, task).value.mutations;
    FindUnique(ms, (m: Mutation) => Hits(m, End(j, TaskTarget)), 1);
    FindUnique(ms, (m: Mutation) => Hits(m, End(j, DispatchTarget)), 0);
  }

  /** What a dispatch takes a part to be when nothing is known of it. */
  function DispatchFallback(kind: TargetType): Status {
    match kind
    case RunTarget => QueuedForDispatch
    case RunnerTarget => Pending
    case ActionTarget => Dispatched
    case _ => Applied
  }

  /** An accepted dispatch always records its run's change from queued, and for the other parts what it read. */
  lemma RecordOfDispatch(p: Plan, slots: Slots, s: Step, i: nat, kind: TargetType)
    requires Sound(p) && s.Dispatch? && i < |p.contract.children| && s.runKey == RunKey(i)
    requires Attempt(p, slots, s).Success? && IsPart(kind)
    ensures PartRecord(Attempt(p, slots, s).value, i, kind) ==
            Some(PartChange(i, kind, if kind == RunTarget then QueuedForDispatch
                                     else See(slots, Part(i, kind), s.readsParts).GetOr(DispatchFallback(kind)),
                            DispatchedStatus(kind)))
    ensures var seen := See(slots, Part(i, RunTarget), s.readsRun);
            seen == Some(QueuedForDispatch) || (seen == None && !Gated(p.contract, i))
  {
    hide Visible, PartRecord, DispatchRun, Sound, Gated, Find, FindIndex, ActionKeyOf;
    SoundVerdict(p);
    RunIsFound(p, i);
    ActionKeyIsFound(p, i);
    DispatchVerdict(p, slots, s, i, p.queue[i]);
    RecordOfQueuedDispatch(p, slots, s, p.queue[i], i, kind);
  }

  lemma RecordOfQueuedDispatch(p: Plan, slots: Slots, s: Step, q: QueueEntry, i: nat, kind: TargetType)
    requires s.Dispatch? && s.runKey == RunKey(i) && DispatchRun(p, slots, s, q).Success? && IsPart(kind)
    requires q.runKey == RunKey(i) && q.runnerKey == RunnerKey(i) && q.nextTransitionKey == Some(TransitionKey(i))
    requires ActionKeyOf(p, s.runKey) == Some(ActionKey(i + 1))
    ensures PartRecord(DispatchRun(p, slots, s, q).value, i, kind) ==
            Some(PartChange(i, kind, if kind == RunTarget then QueuedForDispatch
                                     else See(slots, Part(i, kind), s.readsParts).GetOr(DispatchFallback(kind)),
                            DispatchedStatus(kind)))
  {
    hide Visible, ActionKeyOf;
    FindUnique(DispatchRun(p, slots, s, q).value.mutations, (m: Mutation) => Hits(m, Part(i, kind)), PositionOf(kind));
  }

  // Against the policies.

  /** The status a run is emitted with. */
  function EmittedRunStatus(d: Draft, i: nat): Status
    requires i < |d.children|
  {
    if Gated(d, i) then AwaitingApproval else QueuedForDispatch
  }

  /** Every run is emitted with the policy of its status. */
  lemma EmittedPolicy(d: Draft, i: nat)
    requires WellFormed(d) && i < |d.children|
    ensures RunPolicies(d)[i].runKey == RunKey(i) && RunPolicies(d)[i].currentStatus == EmittedRunStatus(d, i)
    ensures forall to :: to in RunPolicies(d)[i].allowedNext <==> FollowsPolicy(EmittedRunStatus(d, i), to)
  {
    hide WellFormed, AllowedNext, FollowsPolicy;
    RunShape(d, i);
    PolicyAt(d, i);
    forall to ensures to in AllowedNext(EmittedRunStatus(d, i)) <==> FollowsPolicy(EmittedRunStatus(d, i), to) {
      AllowedNextIs(EmittedRunStatus(d, i), to);
    }
  }

  lemma PolicyAt(d: Draft, i: nat)
    requires i < |d.children|
    ensures RunPolicies(d)[i] == RunPolicy(Runs(d)[i].runKey, Runs(d)[i].runStatus, AllowedNext(Runs(d)[i].runStatus))
  {
  }

  /** With no decision since the last activation, a gated run is waiting, unless it was dispatched since. */
  lemma UndecidedStatus(p: Plan, run: seq<Step>, i: nat)
    requires Sound(p) && Increasing(run) && i < |p.contract.children| && Gated(p.contract, i)
    requires DecisionOn(p, run, GateOf(p.contract, i)) <= ActivationIn(p, run)
    ensures Visible(Exec(p, run), Part(i, RunTarget)).GetOr(AwaitingApproval) ==
            if DispatchOf(p, run, i) <= ActivationIn(p, run) then AwaitingApproval else Dispatched
  {
    hide Attempt, Exec, Visible, LastOf, Sound, Gated, GateOf;
    VisiblePart(p, run, i, RunTarget);
    LastWordCases(p, run, i);
  }

  /**
   A decision that reads the store records the true status of every run it settles. The change follows the run's
   policy exactly when the run has not been dispatched since the last activation.
   */
  lemma DecisionFollowsPolicyIff(p: Plan, run: seq<Step>, s: Step, i: nat, j: nat)
    requires Sound(p) && Increasing(run) && s.Decide? && s.taskKey == TaskKey(j) && GatedBy(p.contract, i, j)
    requires s.readsTask && s.readsRuns && Attempt(p, Exec(p, run), s).Success?
    ensures var record := RunRecord(Attempt(p, Exec(p, run), s).value, i);
            && record.Some? && record.value.fromStatus == CurrentStatus(p, run, i)
            && record.value.toStatus == DecidedRunStatus(s.decision)
            && (FollowsPolicy(record.value.fromStatus, record.value.toStatus) <==>
                DispatchOf(p, run, i) <= ActivationIn(p, run))
  {
    hide Attempt, Exec, Visible, LastOf, Sound, PartRecord, DecisionOn, DispatchOf, ActivationIn, Increasing, Part;
    RecordOfDecision(p, Exec(p, run), s, i, j, RunTarget);
    DecisionAcceptedIff(p, run, s, j);
    UndecidedStatus(p, run, i);
  }

  /** A dispatch that reads the store records the true status of its run, and always follows the policy. */
  lemma DispatchFollowsPolicy(p: Plan, run: seq<Step>, s: Step, i: nat)
    requires Sound(p) && s.Dispatch? && i < |p.contract.children| && s.runKey == RunKey(i)
    requires s.readsRun && Attempt(p, Exec(p, run), s).Success?
    ensures var record := RunRecord(Attempt(p, Exec(p, run), s).value, i);
            && record.Some? && record.value.fromStatus == CurrentStatus(p, run, i)
            && FollowsPolicy(record.value.fromStatus, record.value.toStatus)
  {
    hide Attempt, Exec, Visible, Sound, PartRecord, Gated, Part;
    RecordOfDispatch(p, Exec(p, run), s, i, RunTarget);
  }

  /** A dispatch of a gated run that reads everything records the true status of every part: as the approval left it. */
  lemma GatedDispatchRecordsTrueStatus(p: Plan, run: seq<Step>, s: Step, i: nat, kind: TargetType)
    requires Sound(p) && Increasing(run) && s.Dispatch? && i < |p.contract.children| && s.runKey == RunKey(i)
    requires Gated(p.contract, i)
    requires s.readsRun && s.readsParts && Attempt(p, Exec(p, run), s).Success? && IsPart(kind)
    ensures var record := PartRecord(Attempt(p, Exec(p, run), s).value, i, kind);
            && record.Some? && Visible(Exec(p, run), Part(i, kind)) == Some(record.value.fromStatus)
            && record.value.fromStatus == DecidedStatus(Approve, kind)
  {
    hide Attempt, Exec, LastOf, Sound, PartRecord, Visible, Gated, GateOf;
    RecordOfDispatch(p, Exec(p, run), s, i, kind);
    DispatchAcceptedIff(p, run, s, i);
    VisiblePart(p, run, i, kind);
  }

  /** A gated run dispatched since the last activation has a decision since the last activation. */
  lemma DispatchedMeansDecided(p: Plan, run: seq<Step>, i: nat)
    requires Sound(p) && Increasing(run) && i < |p.contract.children| && Gated(p.contract, i)
    requires DispatchOf(p, run, i) > ActivationIn(p, run)
    ensures LastOf(p, run, ApprovalDecision) > ActivationIn(p, run)
  {
    hide Attempt, Exec, Sound;
    var n := DispatchOf(p, run, i);
    LastOfIsLast(p, run, RunDispatch);
    LastOfIsLast(p, run, MaterializedRuntime);
    LastOfIsLast(p, run, ApprovalDecision);
    var k := GatedDispatchFollowsApproval(p, run, n, i);
    assert TypeOf(run[k]) == ApprovalDecision;
    var a := ActivationIn(p, run);
    if a >= k {
      assert Persisted(p, run, a) && k < a < n;
    }
  }

  /**
   With one approval in the plan, on every run with any number of activations and any failed writes, every decision
   and dispatch that reads the store moves its runs along the emitted policies.
   */
  lemma OneApprovalFollowsPolicies(p: Plan, run: seq<Step>, n: nat, i: nat)
    requires Sound(p) && Increasing(run) && n < |run| && Accepted(p, run, n)
    requires |p.contract.approvals| == 1 && i < |p.contract.children|
    requires match run[n]
             case Activate(_, _) => false
             case Decide(_, _, _, readsTask, _, readsRuns, _) => Gated(p.contract, i) && readsTask && readsRuns
             case Dispatch(_, runKey, readsRun, _, _) => runKey == RunKey(i) && readsRun
    ensures var record := RunRecord(Attempt(p, Exec(p, run[..n]), run[n]).value, i);
            && record.Some? && record.value.fromStatus == CurrentStatus(p, run[..n], i)
            && FollowsPolicy(record.value.fromStatus, record.value.toStatus)
  {
    hide Attempt, Exec, RunRecord, CurrentStatus;
    AcceptedStepsAreReal(p, run, n);
    PrefixIncreasing(run, n);
    if run[n].Dispatch? {
      DispatchFollowsPolicy(p, run[..n], run[n], i);
    } else {
      DecisionFollowsPolicyIff(p, run[..n], run[n], i, 0);
      DecisionAcceptedIff(p, run[..n], run[n], 0);
      if DispatchOf(p, run[..n], i) > ActivationIn(p, run[..n]) {
        DispatchedMeansDecided(p, run[..n], i);
        OnlyTask(p, run[..n]);
        assert false;
      }
    }
  }

  /** With one approval, the last decision is on its task. */
  lemma OnlyTask(p: Plan, run: seq<Step>)
    requires Sound(p) && |p.contract.approvals| == 1
    ensures DecisionOn(p, run, 0) == LastOf(p, run, ApprovalDecision)
  {
    hide Attempt, Exec;
    LastOfIsLast(p, run, ApprovalDecision);
    var r := LastOf(p, run, ApprovalDecision);
    if r >= 0 {
      AcceptedStepsAreReal(p, run, r);
    }
  }

  function DispatchThenReject(i: nat, j: nat, other: nat): seq<Step> {
    [Decide(0, TaskKey(j), Approve, true, true, true, true), Dispatch(1, RunKey(i), true, true, true),
     Decide(2, TaskKey(other), Approve, true, true, true, true)]
  }

  /** With two approvals a run that is already dispatched can be cancelled, which no policy allows. */
  lemma TwoApprovalsBreakPolicy(p: Plan, i: nat, j: nat, other: nat)
    requires Sound(p) && GatedBy(p.contract, i, j) && other < |p.contract.approvals| && other != j
    ensures var run := DispatchThenReject(i, j, other);
            var s := Decide(3, TaskKey(j), Reject, true, true, true, true);
            && Increasing(run) && Persisted(p, run, 0) && Persisted(p, run, 1) && Persisted(p, run, 2)
            && Attempt(p, Exec(p, run), s).Success?
            && RunRecord(Attempt(p, Exec(p, run), s).value, i) ==
               Some(PartChange(i, RunTarget, Dispatched, Cancelled))
            && !FollowsPolicy(Dispatched, Cancelled)
  {
    hide Attempt, Exec, Sound, PartRecord, Visible, Gated, GateOf, GatedBy;
    var run := DispatchThenReject(i, j, other);
    var s := Decide(3, TaskKey(j), Reject, true, true, true, true);
    assert run[..3] == run;
    DispatchedUnderAnotherDecision(p, i, j, other);
    GatedByGate(p, i, j);
    DecisionAcceptedIff(p, run, s, j);
    RecordOfDecision(p, Exec(p, run), s, i, j, RunTarget);
    UndecidedStatus(p, run, i);
  }

  lemma DispatchedUnderAnotherDecision(p: Plan, i: nat, j: nat, other: nat)
    requires Sound(p) && GatedBy(p.contract, i, j) && other < |p.contract.approvals| && other != j
    ensures var run := DispatchThenReject(i, j, other);
            && Increasing(run) && Persisted(p, run, 0) && Persisted(p, run, 1) && Persisted(p, run, 2)
            && LastOf(p, run, ApprovalDecision) == 2 && LastOf(p, run, RunDispatch) == 1
            && LastOf(p, run, MaterializedRuntime) == -1
  {
    hide Attempt, Exec, Sound, Gated, GateOf, GatedBy;
    var run := DispatchThenReject(i, j, other);
    assert run[..0] == [] && run[..1] == [run[0]] && run[..2] == [run[0], run[1]] && run[..3] == run;
    GatedByGate(p, i, j);
    DecisionAcceptedIff(p, run[..0], run[0], j);
    LastOfPush(p, run, 0);
    DispatchAcceptedIff(p, run[..1], run[1], i);
    LastOfPush(p, run, 1);
    DecisionAcceptedIff(p, run[..2], run[2], other);
    LastOfPush(p, run, 2);
  }
}
