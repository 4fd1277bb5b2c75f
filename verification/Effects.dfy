/** What each kind of step says about each target of an accepted plan, read off the mutation records it writes. */
module Effects {
  import opened Wrappers
  import opened Lists
  import opened Contracts
  import opened Validation
  import opened Topology
  import opened Mutations

  /** The event recorded with a snapshot. */
  datatype Event = Activated | Decided(taskKey: Key, decision: Decision) | RunDispatched(runKey: Key)

  predicate IsPart(kind: TargetType) {
    kind == RunTarget || kind == RunnerTarget || kind == ActionTarget || kind == TransitionTarget
  }

  /** The target of the given kind that belongs to child i. */
  function Part(i: nat, kind: TargetType): Target
    requires IsPart(kind)
  {
    Target(kind, if kind == RunTarget then RunKey(i)
                 else if kind == RunnerTarget then RunnerKey(i)
                 else if kind == ActionTarget then ActionKey(i + 1)
                 else TransitionKey(i))
  }

  /** The target of the given kind that belongs to approval j: its dispatch or its task. */
  function End(j: nat, kind: TargetType): Target
    requires !IsPart(kind)
  {
    Target(kind, if kind == DispatchTarget then ApprovalKey(j + 1) else TaskKey(j))
  }

  function ActivatedStatus(gated: bool, kind: TargetType): Status
    requires IsPart(kind)
  {
    match kind
    case RunTarget => if gated then AwaitingApproval else Dispatched
    case RunnerTarget => if gated then Pending else Dispatched
    case ActionTarget => if gated then AwaitingApprovalDecision else Dispatched
    case TransitionTarget => if gated then AwaitingApprovalDecision else Applied
  }

  function DecidedStatus(decision: Decision, kind: TargetType): Status {
    match decision
    case Approve => if kind == RunTarget then QueuedForDispatch else Pending
    case Reject => Cancelled
    case RequestChanges => Cancelled
  }

  /** How a decision settles its task and the dispatch of it. */
  function SettledStatus(decision: Decision): Status {
    match decision
    case Approve => Status.Approved
    case Reject => Rejected
    case RequestChanges => ChangesRequested
  }

  function DispatchedStatus(kind: TargetType): Status {
    if kind == RunTarget || kind == RunnerTarget then Dispatched else Completed
  }

  /** What an event says about a part of child i. */
  function PartSays(d: Draft, e: Event, i: nat, kind: TargetType): Option<Status>
    requires i < |d.children| && IsPart(kind)
  {
    match e
    case Activated => Some(ActivatedStatus(Gated(d, i), kind))
    case Decided(taskKey, decision) =>
      if Gated(d, i) && GateOf(d, i) >= 0 && taskKey == TaskKey(GateOf(d, i)) then Some(DecidedStatus(decision, kind))
      else None
    case RunDispatched(runKey) => if runKey == RunKey(i) then Some(DispatchedStatus(kind)) else None
  }

  /** What an event says about an end of approval j. */
  function EndSays(e: Event, j: nat, kind: TargetType): Option<Status>
    requires !IsPart(kind)
  {
    match e
    case Activated => Some(if kind == DispatchTarget then Dispatched else AwaitingDecision)
    case Decided(taskKey, decision) => if taskKey == TaskKey(j) then Some(SettledStatus(decision)) else None
    case RunDispatched(_) => None
  }

  /** The records say exactly what the event says, about every target of the plan. */
  ghost predicate Faithful(d: Draft, ms: seq<Mutation>, e: Event) {
    && (forall i: nat, kind :: i < |d.children| && IsPart(kind) ==>
          StatusIn(ms, Part(i, kind)) == PartSays(d, e, i, kind))
    && (forall j: nat, kind :: j < |d.approvals| && !IsPart(kind) ==> StatusIn(ms, End(j, kind)) == EndSays(e, j, kind))
  }

  /** No two records of one list speak of the same target. */
  ghost predicate DistinctTargets(ms: seq<Mutation>) {
    forall a, b :: 0 <= a < b < |ms| ==> (ms[a].kind, ms[a].targetKey) != (ms[b].kind, ms[b].targetKey)
  }

  /** Every record's target is a part of some child or an end of some approval. */
  predicate AboutPart(m: Mutation, i: nat) { IsPart(m.kind) && m.targetKey == Some(Part(i, m.kind).key) }
  predicate AboutEnd(m: Mutation, j: nat) { !IsPart(m.kind) && m.targetKey == Some(End(j, m.kind).key) }

  lemma SilentAbout(ms: seq<Mutation>, t: Target)
    requires forall m :: m in ms ==> !Hits(m, t)
    ensures StatusIn(ms, t) == None
  {
  }

  lemma StatusInConcat(a: seq<Mutation>, b: seq<Mutation>, t: Target)
    ensures StatusIn(a + b, t) == if StatusIn(a, t).Some? then StatusIn(a, t) else StatusIn(b, t)
  {
    FindConcat(a, b, (m: Mutation) => Hits(m, t));
  }

  /** The records of one child: one for each part, in order, with the given statuses. */
  ghost predicate ChildBlock(block: seq<Mutation>, i: nat, status: TargetType -> Status) {
    && |block| == 4
    && block[0].kind == RunTarget && block[1].kind == RunnerTarget
    && block[2].kind == ActionTarget && block[3].kind == TransitionTarget
    && forall m :: m in block ==> AboutPart(m, i) && m.toStatus == status(m.kind)
  }

  lemma ChildBlockSays(block: seq<Mutation>, i: nat, status: TargetType -> Status, kind: TargetType)
    requires ChildBlock(block, i, status) && IsPart(kind)
    ensures StatusIn(block, Part(i, kind)) == Some(status(kind))
  {
    var hits := (m: Mutation) => Hits(m, Part(i, kind));
    var k := if kind == RunTarget then 0 else if kind == RunnerTarget then 1 else if kind == ActionTarget then 2 else 3;
    assert block[k] in block && hits(block[k]);
    var found := Find(block, hits);
    assert AboutPart(found.value, i);
  }

  /** Blocks of distinct children, one after the other. */
  lemma ChildBlocksSay(blocks: seq<seq<Mutation>>, owner: seq<nat>, statuses: seq<TargetType -> Status>, k: nat,
                       kind: TargetType)
    requires |owner| == |blocks| == |statuses| && k < |blocks| && IsPart(kind)
    requires forall b :: 0 <= b < |blocks| ==> ChildBlock(blocks[b], owner[b], statuses[b])
    requires forall b :: 0 <= b < k ==> owner[b] != owner[k]
    ensures StatusIn(Flatten(blocks), Part(owner[k], kind)) == Some(statuses[k](kind))
  {
    var t := Part(owner[k], kind);
    forall b, m | 0 <= b < k && m in blocks[b] ensures !Hits(m, t) {
      assert AboutPart(m, owner[b]);
    }
    ChildBlockSays(blocks[k], owner[k], statuses[k], kind);
    FindFlat(blocks, (m: Mutation) => Hits(m, t), k);
  }

  lemma ChildBlocksSilent(blocks: seq<seq<Mutation>>, owner: seq<nat>, statuses: seq<TargetType -> Status>, t: Target)
    requires |owner| == |blocks| == |statuses|
    requires forall b :: 0 <= b < |blocks| ==> ChildBlock(blocks[b], owner[b], statuses[b])
    requires forall b :: 0 <= b < |blocks| && IsPart(t.kind) ==> t != Part(owner[b], t.kind)
    ensures StatusIn(Flatten(blocks), t) == None
  {
    forall m | m in Flatten(blocks) ensures !Hits(m, t) {
      var b :| 0 <= b < |blocks| && m in blocks[b];
      assert AboutPart(m, owner[b]);
    }
    SilentAbout(Flatten(blocks), t);
  }

  // The shapes that the emitted lists of an accepted contract have.

  ghost predicate RunnersShaped(d: Draft, rs: seq<RunnerIntegration>) {
    && |rs| == |d.children|
    && forall i :: 0 <= i < |rs| ==> rs[i] == ExpectedIntegration(i, Gated(d, i))
  }

  function ExpectedIntegration(i: nat, gated: bool): RunnerIntegration {
    RunnerIntegration(RunKey(i), RunnerKey(i), Some(ActionKey(i + 1)), Some(TransitionKey(i)),
                      if gated then AwaitingApprovalClearance else RunnerDispatched)
  }

  ghost predicate ApprovalsShaped(rs: seq<ApprovalIntegration>) {
    forall j :: 0 <= j < |rs| ==> rs[j] == ApprovalIntegration(ApprovalKey(j + 1), TaskKey(j), true)
  }

  ghost predicate TaskShaped(d: Draft, task: Task, j: nat) {
    && task.taskKey == TaskKey(j) && task.dispatchKey == ApprovalKey(j + 1) && j < |d.approvals|
    && (forall i: nat :: i < |d.children| ==> (RunKey(i) in task.linkedRunKeys <==> GatedBy(d, i, j)))
    && (forall b :: 0 <= b < |task.linkedRunKeys| ==>
          Owner(task.linkedRunKeys[b]) < |d.children|
          && task.linkedRunKeys[b] == RunKey(Owner(task.linkedRunKeys[b])))
  }

  /** The child a run key belongs to. */
  function Owner(runKey: Key): nat {
    if runKey.RunOf? && runKey.runner.RunnerOf? && runKey.runner.contract.ChildKey? && runKey.runner.contract.n > 0
    then runKey.runner.contract.n - 1 else 0
  }

  lemma EmittedRunnersAreShaped(d: Draft)
    requires WellFormed(d)
    ensures RunnersShaped(d, RunnerIntegrations(d))
  {
    forall i | 0 <= i < |d.children| ensures RunnerIntegrations(d)[i] == ExpectedIntegration(i, Gated(d, i)) {
      IntegrationShape(d, i);
    }
  }

  lemma EmittedApprovalsAreShaped(d: Draft)
    requires WellFormed(d)
    ensures ApprovalsShaped(ApprovalIntegrations(d)) && |ApprovalIntegrations(d)| == |d.approvals|
  {
    forall j | 0 <= j < |d.approvals|
      ensures ApprovalIntegrations(d)[j] == ApprovalIntegration(ApprovalKey(j + 1), TaskKey(j), true)
    {
      ApprovalIntegrationShape(d, j);
    }
  }

  lemma EmittedTaskIsShaped(d: Draft, j: nat)
    requires WellFormed(d) && j < |d.approvals|
    ensures TaskShaped(d, Tasks(d)[j], j)
  {
    TaskAt(d, j);
    EmittedTaskListsItsRuns(d, j, Tasks(d)[j].linkedRunKeys);
  }

  lemma EmittedTaskListsItsRuns(d: Draft, j: nat, keys: seq<Key>)
    requires WellFormed(d) && j < |d.approvals| && keys == Tasks(d)[j].linkedRunKeys
    ensures forall i: nat :: i < |d.children| ==> (RunKey(i) in keys <==> GatedBy(d, i, j))
    ensures forall b :: 0 <= b < |keys| ==> Owner(keys[b]) < |d.children| && keys[b] == RunKey(Owner(keys[b]))
  {
    forall i: nat | i < |d.children| ensures RunKey(i) in keys <==> GatedBy(d, i, j) {
      EmittedTaskListsRun(d, j, keys, i);
    }
    forall b | 0 <= b < |keys| ensures Owner(keys[b]) < |d.children| && keys[b] == RunKey(Owner(keys[b])) {
      EmittedTaskListsOnlyRuns(d, j, keys, keys[b]);
    }
  }

  lemma EmittedTaskListsRun(d: Draft, j: nat, keys: seq<Key>, i: nat)
    requires WellFormed(d) && j < |d.approvals| && keys == Tasks(d)[j].linkedRunKeys && i < |d.children|
    ensures RunKey(i) in keys <==> GatedBy(d, i, j)
  {
    hide WellFormed, GatedBy, Runs, Tasks;
    RunAndTaskLinksAgree(d, i, j);
  }

  lemma EmittedTaskListsOnlyRuns(d: Draft, j: nat, keys: seq<Key>, key: Key)
    requires WellFormed(d) && j < |d.approvals| && keys == Tasks(d)[j].linkedRunKeys && key in keys
    ensures Owner(key) < |d.children| && key == RunKey(Owner(key))
  {
    hide WellFormed, GatedBy, Tasks;
    var i := TaskListsGatedRuns(d, j, key);
  }

  // Activation.

  ghost function ActivationStatuses(d: Draft): seq<TargetType -> Status> {
    seq(|d.children|, i requires 0 <= i < |d.children| =>
      kind => if IsPart(kind) then ActivatedStatus(Gated(d, i), kind) else Pending)
  }

  lemma RunnerBlockShape(i: nat, gated: bool)
    ensures ChildBlock(RunnerBlock(ExpectedIntegration(i, gated)), i,
                       kind => if IsPart(kind) then ActivatedStatus(gated, kind) else Pending)
  {
  }

  lemma RunnerRecordsSay(d: Draft, rs: seq<RunnerIntegration>, i: nat, kind: TargetType)
    requires RunnersShaped(d, rs) && i < |rs| && IsPart(kind)
    ensures StatusIn(RunnerMutations(rs), Part(i, kind)) == Some(ActivatedStatus(Gated(d, i), kind))
  {
    var blocks := Map(rs, RunnerBlock);
    forall b | 0 <= b < |blocks| ensures ChildBlock(blocks[b], b, ActivationStatuses(d)[b]) {
      RunnerBlockShape(b, Gated(d, b));
    }
    ChildBlocksSay(blocks, seq(|rs|, b => b), ActivationStatuses(d), i, kind);
  }

  lemma ApprovalBlockSays(j: nat, kind: TargetType)
    requires !IsPart(kind)
    ensures StatusIn(ApprovalBlock(ApprovalIntegration(ApprovalKey(j + 1), TaskKey(j), true)), End(j, kind)) ==
            EndSays(Activated, j, kind)
  {
    var block := ApprovalBlock(ApprovalIntegration(ApprovalKey(j + 1), TaskKey(j), true));
    FindUnique(block, (m: Mutation) => Hits(m, End(j, kind)), if kind == DispatchTarget then 0 else 1);
  }

  lemma ApprovalRecordsSay(rs: seq<ApprovalIntegration>, j: nat, kind: TargetType)
    requires ApprovalsShaped(rs) && j < |rs| && !IsPart(kind)
    ensures StatusIn(ApprovalMutations(rs), End(j, kind)) == EndSays(Activated, j, kind)
  {
    var t := End(j, kind);
    ApprovalBlockSays(j, kind);
    FindFlat(Map(rs, ApprovalBlock), (m: Mutation) => Hits(m, t), j);
  }

  lemma ApprovalRecordsSilent(rs: seq<ApprovalIntegration>, t: Target)
    requires IsPart(t.kind)
    ensures StatusIn(ApprovalMutations(rs), t) == None
  {
    forall m | m in ApprovalMutations(rs) ensures !Hits(m, t) {
      var b :| 0 <= b < |rs| && m in ApprovalBlock(rs[b]);
    }
    SilentAbout(ApprovalMutations(rs), t);
  }

  /** An activation announces every dispatch and task, and shows every run as its gating demands. */
  lemma ActivationIsFaithful(d: Draft, approvals: seq<ApprovalIntegration>, runners: seq<RunnerIntegration>)
    requires ApprovalsShaped(approvals) && |approvals| == |d.approvals| && RunnersShaped(d, runners)
    ensures Faithful(d, ActivationMutations(approvals, runners), Activated)
  {
    var a, r := ApprovalMutations(approvals), RunnerMutations(runners);
    forall i: nat, kind | i < |d.children| && IsPart(kind)
      ensures StatusIn(a + r, Part(i, kind)) == PartSays(d, Activated, i, kind)
    {
      ApprovalRecordsSilent(approvals, Part(i, kind));
      RunnerRecordsSay(d, runners, i, kind);
      StatusInConcat(a, r, Part(i, kind));
    }
    forall j: nat, kind | j < |d.approvals| && !IsPart(kind)
      ensures StatusIn(a + r, End(j, kind)) == EndSays(Activated, j, kind)
    {
      ApprovalRecordsSay(approvals, j, kind);
      StatusInConcat(a, r, End(j, kind));
    }
  }

  // A decision.

  lemma DecisionBlockShape(d: Draft, rs: seq<RunnerIntegration>, i: nat, decision: Decision,
                           seen: Target -> Option<Status>)
    requires RunnersShaped(d, rs) && i < |rs|
    ensures ChildBlock(DecisionBlockIn(rs, RunKey(i), decision, seen), i, kind => DecidedStatus(decision, kind))
  {
    hide DecisionBlock, DecidedStatus, Gated;
    FindUnique(rs, (r: RunnerIntegration) => r.runKey == RunKey(i), i);
    DecisionBlockIsChildBlock(i, Gated(d, i), decision, seen);
  }

  lemma DecisionBlockIsChildBlock(i: nat, gated: bool, decision: Decision, seen: Target -> Option<Status>)
    ensures ChildBlock(DecisionBlock(RunKey(i), Some(ExpectedIntegration(i, gated)), decision, seen), i,
                       kind => DecidedStatus(decision, kind))
  {
    hide SeenOr;
  }

  ghost function OwnersOf(keys: seq<Key>): seq<nat> {
    seq(|keys|, b requires 0 <= b < |keys| => Owner(keys[b]))
  }

  ghost function DecidedStatuses(n: nat, decision: Decision): seq<TargetType -> Status> {
    seq(n, _ => (kind: TargetType) => DecidedStatus(decision, kind))
  }

  ghost function DecisionBlocks(rs: seq<RunnerIntegration>, keys: seq<Key>, decision: Decision,
                                seen: Target -> Option<Status>): seq<seq<Mutation>> {
    Map(keys, (k: Key) => DecisionBlockIn(rs, k, decision, seen))
  }

  lemma DecisionBlockShapes(d: Draft, rs: seq<RunnerIntegration>, keys: seq<Key>, decision: Decision,
                            seen: Target -> Option<Status>)
    requires RunnersShaped(d, rs)
    requires forall b :: 0 <= b < |keys| ==> Owner(keys[b]) < |rs| && keys[b] == RunKey(Owner(keys[b]))
    ensures forall b :: 0 <= b < |keys| ==>
              ChildBlock(DecisionBlocks(rs, keys, decision, seen)[b], OwnersOf(keys)[b],
                         DecidedStatuses(|keys|, decision)[b])
  {
    forall b | 0 <= b < |keys|
      ensures ChildBlock(DecisionBlocks(rs, keys, decision, seen)[b], OwnersOf(keys)[b],
                         DecidedStatuses(|keys|, decision)[b])
    {
      DecisionBlockShape(d, rs, Owner(keys[b]), decision, seen);
    }
  }

  lemma DecisionPartsSay(d: Draft, rs: seq<RunnerIntegration>, task: Task, j: nat, decision: Decision,
                         seen: Target -> Option<Status>, i: nat, kind: TargetType)
    requires RunnersShaped(d, rs) && TaskShaped(d, task, j) && i < |d.children| && IsPart(kind)
    ensures StatusIn(DecisionParts(rs, task.linkedRunKeys, decision, seen), Part(i, kind)) ==
            if GatedBy(d, i, j) then Some(DecidedStatus(decision, kind)) else None
  {
    if GatedBy(d, i, j) {
      ListedPartSays(d, rs, task.linkedRunKeys, decision, seen, i, kind);
    } else {
      UnlistedPartSilent(d, rs, task.linkedRunKeys, decision, seen, i, kind);
    }
  }

  lemma ListedPartSays(d: Draft, rs: seq<RunnerIntegration>, keys: seq<Key>, decision: Decision,
                       seen: Target -> Option<Status>, i: nat, kind: TargetType)
    requires RunnersShaped(d, rs) && IsPart(kind) && RunKey(i) in keys
    requires forall b :: 0 <= b < |keys| ==> Owner(keys[b]) < |rs| && keys[b] == RunKey(Owner(keys[b]))
    ensures StatusIn(DecisionParts(rs, keys, decision, seen), Part(i, kind)) == Some(DecidedStatus(decision, kind))
  {
    DecisionBlockShapes(d, rs, keys, decision, seen);
    var k := FirstPosition(keys, i);
    ChildBlocksSay(DecisionBlocks(rs, keys, decision, seen), OwnersOf(keys),
                   DecidedStatuses(|keys|, decision), k, kind);
  }

  lemma UnlistedPartSilent(d: Draft, rs: seq<RunnerIntegration>, keys: seq<Key>, decision: Decision,
                           seen: Target -> Option<Status>, i: nat, kind: TargetType)
    requires RunnersShaped(d, rs) && IsPart(kind) && RunKey(i) !in keys
    requires forall b :: 0 <= b < |keys| ==> Owner(keys[b]) < |rs| && keys[b] == RunKey(Owner(keys[b]))
    ensures StatusIn(DecisionParts(rs, keys, decision, seen), Part(i, kind)) == None
  {
    DecisionBlockShapes(d, rs, keys, decision, seen);
    ChildBlocksSilent(DecisionBlocks(rs, keys, decision, seen), OwnersOf(keys), DecidedStatuses(|keys|, decision),
                      Part(i, kind));
  }

  lemma FirstPosition(keys: seq<Key>, i: nat) returns (k: nat)
    requires RunKey(i) in keys
    requires forall b :: 0 <= b < |keys| ==> keys[b] == RunKey(Owner(keys[b]))
    ensures k < |keys| && OwnersOf(keys)[k] == i
    ensures forall b :: 0 <= b < k ==> OwnersOf(keys)[b] != i
  {
    k := FindIndex(keys, (key: Key) => key == RunKey(i));
  }

  lemma DecisionPartsSilent(d: Draft, rs: seq<RunnerIntegration>, task: Task, j: nat, decision: Decision,
                            seen: Target -> Option<Status>, t: Target)
    requires RunnersShaped(d, rs) && TaskShaped(d, task, j) && !IsPart(t.kind)
    ensures StatusIn(DecisionParts(rs, task.linkedRunKeys, decision, seen), t) == None
  {
    var keys := task.linkedRunKeys;
    DecisionBlockShapes(d, rs, keys, decision, seen);
    ChildBlocksSilent(DecisionBlocks(rs, keys, decision, seen), OwnersOf(keys), DecidedStatuses(|keys|, decision), t);
  }

  lemma DecisionEndsSay(task: Task, j: nat, decision: Decision, taskFrom: Status, dispatchFrom: Status, k: nat,
                        kind: TargetType)
    requires task.taskKey == TaskKey(j) && task.dispatchKey == ApprovalKey(j + 1) && !IsPart(kind)
    ensures StatusIn(DecisionEnds(task, decision, taskFrom, dispatchFrom), End(k, kind)) ==
            EndSays(Decided(TaskKey(j), decision), k, kind)
  {
    var ends := DecisionEnds(task, decision, taskFrom, dispatchFrom);
    if k == j {
      FindUnique(ends, (m: Mutation) => Hits(m, End(k, kind)), if kind == DispatchTarget then 0 else 1);
    } else {
      SilentAbout(ends, End(k, kind));
    }
  }

  /** A decision settles its own dispatch and task, frees or cancels every run the task gates, and nothing else. */
  lemma DecisionIsFaithful(d: Draft, rs: seq<RunnerIntegration>, task: Task, j: nat, decision: Decision,
                           taskFrom: Status, dispatchFrom: Status, seen: Target -> Option<Status>)
    requires RunnersShaped(d, rs) && TaskShaped(d, task, j)
    ensures Faithful(d, DecisionMutations(rs, task, decision, taskFrom, dispatchFrom, seen),
                     Decided(TaskKey(j), decision))
  {
    var e := Decided(TaskKey(j), decision);
    var ends := DecisionEnds(task, decision, taskFrom, dispatchFrom);
    var parts := DecisionParts(rs, task.linkedRunKeys, decision, seen);
    forall i: nat, kind | i < |d.children| && IsPart(kind)
      ensures StatusIn(ends + parts, Part(i, kind)) == PartSays(d, e, i, kind)
    {
      DecisionPartsSay(d, rs, task, j, decision, seen, i, kind);
      SilentAbout(ends, Part(i, kind));
      StatusInConcat(ends, parts, Part(i, kind));
    }
    forall k: nat, kind | k < |d.approvals| && !IsPart(kind)
      ensures StatusIn(ends + parts, End(k, kind)) == EndSays(e, k, kind)
    {
      DecisionPartsSilent(d, rs, task, j, decision, seen, End(k, kind));
      DecisionEndsSay(task, j, decision, taskFrom, dispatchFrom, k, kind);
      StatusInConcat(ends, parts, End(k, kind));
    }
  }

  // A dispatch.

  lemma DispatchBlockShape(q: QueueEntry, i: nat, runSeen: Option<Status>, seen: Target -> Option<Status>)
    requires q.runKey == RunKey(i) && q.runnerKey == RunnerKey(i) && q.nextTransitionKey == Some(TransitionKey(i))
    ensures ChildBlock(DispatchMutations(q, Some(ActionKey(i + 1)), runSeen, seen), i,
                       (kind: TargetType) => DispatchedStatus(kind))
  {
  }

  /** A dispatch moves its own run's parts and nothing else. */
  lemma DispatchIsFaithful(d: Draft, q: QueueEntry, i: nat, runSeen: Option<Status>, seen: Target -> Option<Status>)
    requires q.runKey == RunKey(i) && q.runnerKey == RunnerKey(i) && q.nextTransitionKey == Some(TransitionKey(i))
    ensures Faithful(d, DispatchMutations(q, Some(ActionKey(i + 1)), runSeen, seen), RunDispatched(RunKey(i)))
  {
    var ms := DispatchMutations(q, Some(ActionKey(i + 1)), runSeen, seen);
    DispatchBlockShape(q, i, runSeen, seen);
    forall k: nat, kind | k < |d.children| && IsPart(kind)
      ensures StatusIn(ms, Part(k, kind)) == PartSays(d, RunDispatched(RunKey(i)), k, kind)
    {
      if k == i {
        ChildBlockSays(ms, i, (kind: TargetType) => DispatchedStatus(kind), kind);
      } else {
        SilentAbout(ms, Part(k, kind));
      }
    }
    forall j: nat, kind | j < |d.approvals| && !IsPart(kind)
      ensures StatusIn(ms, End(j, kind)) == EndSays(RunDispatched(RunKey(i)), j, kind)
    {
      SilentAbout(ms, End(j, kind));
    }
  }
}
