/** The mutation records that activation, a decision and a dispatch write, and what each says about its targets. */
module Mutations {
  import opened Wrappers
  import opened Lists
  import opened Contracts
  import opened Validation
  import opened Topology

  datatype TargetType =
    | DispatchTarget | TaskTarget | RunTarget | RunnerTarget | ActionTarget | TransitionTarget

  /** The lookup key `${targetType}:${targetKey}`. */
  datatype Target = Target(kind: TargetType, key: Key)

  datatype MutationStatus = AppliedMutation | PendingApprovalMutation | BlockedMutation

  datatype Mutation = Mutation(kind: TargetType, targetKey: Option<Key>, fromStatus: Status, toStatus: Status,
                               mutationStatus: MutationStatus)

  datatype Decision = Approve | Reject | RequestChanges

  datatype RunnerState = RunnerDispatched | AwaitingApprovalClearance | AwaitingRuntimeBinding

  datatype ApprovalIntegration = ApprovalIntegration(dispatchKey: Key, taskKey: Key, required: bool)
  datatype RunnerIntegration = RunnerIntegration(runKey: Key, runnerKey: Key, actionKey: Option<Key>,
                                                 transitionKey: Option<Key>, state: RunnerState)

  predicate Hits(m: Mutation, t: Target) { m.kind == t.kind && m.targetKey == Some(t.key) }

  /** What a list of mutations says about a target: its first record. */
  function StatusIn(ms: seq<Mutation>, t: Target): Option<Status> {
    match Find(ms, (m: Mutation) => Hits(m, t))
    case None => None
    case Some(m) => Some(m.toStatus)
  }

  // Activation.

  function ApprovalIntegrations(d: Draft): seq<ApprovalIntegration> {
    Map(Tasks(d), (t: Task) => ApprovalIntegration(t.dispatchKey, t.taskKey, t.required))
  }

  function StateOf(readiness: DispatchReadiness): RunnerState {
    match readiness
    case Dispatchable => RunnerDispatched
    case BlockedByApproval => AwaitingApprovalClearance
    case BlockedByBinding => AwaitingRuntimeBinding
  }

  function IntegrationFor(q: QueueEntry, actions: seq<Action>, transitions: seq<Transition>): RunnerIntegration {
    var action := Find(actions, (a: Action) => a.runnerKey == q.runnerKey);
    var transition := Find(transitions, (t: Transition) => t.sourceRunnerKey == q.runnerKey);
    RunnerIntegration(q.runKey, q.runnerKey,
                      match action case None => None case Some(a) => Some(a.actionKey),
                      match transition case None => None case Some(t) => Some(t.transitionKey),
                      StateOf(q.readiness))
  }

  function RunnerIntegrations(d: Draft): seq<RunnerIntegration> {
    Map(DispatchQueue(d), (q: QueueEntry) => IntegrationFor(q, Actions(d), Transitions(d)))
  }

  function ApprovalBlock(a: ApprovalIntegration): seq<Mutation> {
    [Mutation(DispatchTarget, Some(a.dispatchKey), Pending, if a.required then Dispatched else OptionalReview,
              AppliedMutation),
     Mutation(TaskTarget, Some(a.taskKey), PendingApproval, if a.required then AwaitingDecision else ReviewRequested,
              AppliedMutation)]
  }

  function RunnerBlock(r: RunnerIntegration): seq<Mutation> {
    match r.state
    case AwaitingRuntimeBinding => [Mutation(TransitionTarget, r.transitionKey, Blocked, Blocked, BlockedMutation)]
    case RunnerDispatched =>
      [Mutation(RunTarget, Some(r.runKey), QueuedForDispatch, Dispatched, AppliedMutation),
       Mutation(RunnerTarget, Some(r.runnerKey), Pending, Dispatched, AppliedMutation),
       Mutation(ActionTarget, r.actionKey, Pending, Dispatched, AppliedMutation),
       Mutation(TransitionTarget, r.transitionKey, Pending, Applied, AppliedMutation)]
    case AwaitingApprovalClearance =>
      [Mutation(RunTarget, Some(r.runKey), AwaitingApproval, AwaitingApproval, PendingApprovalMutation),
       Mutation(RunnerTarget, Some(r.runnerKey), Pending, Pending, PendingApprovalMutation),
       Mutation(ActionTarget, r.actionKey, Pending, AwaitingApprovalDecision, PendingApprovalMutation),
       Mutation(TransitionTarget, r.transitionKey, Pending, AwaitingApprovalDecision, PendingApprovalMutation)]
  }

  function ApprovalMutations(integrations: seq<ApprovalIntegration>): seq<Mutation> {
    Flatten(Map(integrations, ApprovalBlock))
  }

  function RunnerMutations(integrations: seq<RunnerIntegration>): seq<Mutation> {
    Flatten(Map(integrations, RunnerBlock))
  }

  function ActivationMutations(approvals: seq<ApprovalIntegration>, runners: seq<RunnerIntegration>): seq<Mutation> {
    ApprovalMutations(approvals) + RunnerMutations(runners)
  }

  datatype BatchStatus = PartiallyApplied | BatchBlocked | BatchPendingApproval

  function LiveBatchStatus(d: Draft): BatchStatus {
    if Some?(RunnerIntegrations(d), (r: RunnerIntegration) => r.state == RunnerDispatched) then PartiallyApplied
    else if Some?(RunnerIntegrations(d), (r: RunnerIntegration) => r.state == AwaitingRuntimeBinding) then BatchBlocked
    else BatchPendingApproval
  }

  function CountIn(ms: seq<Mutation>, status: MutationStatus): nat {
    |Filter(ms, (m: Mutation) => m.mutationStatus == status)|
  }

  /** The summary counters of the live runtime. */
  function CountMutations(d: Draft, status: MutationStatus): nat {
    CountIn(ActivationMutations(ApprovalIntegrations(d), RunnerIntegrations(d)), status)
  }

  // A decision on a task.

  function DecidedTaskStatus(decision: Decision): Status {
    match decision
    case Approve => Status.Approved
    case Reject => Rejected
    case RequestChanges => ChangesRequested
  }

  function DecidedRunStatus(decision: Decision): Status {
    if decision == Approve then QueuedForDispatch else Cancelled
  }

  function DecidedPartStatus(decision: Decision): Status {
    if decision == Approve then Pending else Cancelled
  }

  /** The persisted status of a target, or the fallback when there is none or no key. */
  function SeenOr(seen: Target -> Option<Status>, kind: TargetType, key: Option<Key>, fallback: Status): Status {
    match key
    case None => fallback
    case Some(k) => seen(Target(kind, k)).GetOr(fallback)
  }

  function DecisionBlock(runKey: Key, integration: Option<RunnerIntegration>, decision: Decision,
                         seen: Target -> Option<Status>): seq<Mutation> {
    var runnerKey := match integration case None => None case Some(r) => Some(r.runnerKey);
    var actionKey := match integration case None => None case Some(r) => r.actionKey;
    var transitionKey := match integration case None => None case Some(r) => r.transitionKey;
    [Mutation(RunTarget, Some(runKey), SeenOr(seen, RunTarget, Some(runKey), AwaitingApproval),
              DecidedRunStatus(decision), AppliedMutation),
     Mutation(RunnerTarget, runnerKey, SeenOr(seen, RunnerTarget, runnerKey, Pending),
              DecidedPartStatus(decision), AppliedMutation),
     Mutation(ActionTarget, actionKey, SeenOr(seen, ActionTarget, actionKey, AwaitingApprovalDecision),
              DecidedPartStatus(decision), AppliedMutation),
     Mutation(TransitionTarget, transitionKey, SeenOr(seen, TransitionTarget, transitionKey, AwaitingApprovalDecision),
              DecidedPartStatus(decision), AppliedMutation)]
  }

  function DecisionBlockIn(integrations: seq<RunnerIntegration>, runKey: Key, decision: Decision,
                           seen: Target -> Option<Status>): seq<Mutation> {
    DecisionBlock(runKey, Find(integrations, (r: RunnerIntegration) => r.runKey == runKey), decision, seen)
  }

  function DecisionEnds(task: Task, decision: Decision, taskFrom: Status, dispatchFrom: Status): seq<Mutation> {
    [Mutation(DispatchTarget, Some(task.dispatchKey), dispatchFrom, DecidedTaskStatus(decision), AppliedMutation),
     Mutation(TaskTarget, Some(task.taskKey), taskFrom, DecidedTaskStatus(decision), AppliedMutation)]
  }

  function DecisionParts(integrations: seq<RunnerIntegration>, runKeys: seq<Key>, decision: Decision,
                         seen: Target -> Option<Status>): seq<Mutation> {
    Flatten(Map(runKeys, (k: Key) => DecisionBlockIn(integrations, k, decision, seen)))
  }

  function DecisionMutations(integrations: seq<RunnerIntegration>, task: Task, decision: Decision, taskFrom: Status,
                             dispatchFrom: Status, seen: Target -> Option<Status>): seq<Mutation> {
    DecisionEnds(task, decision, taskFrom, dispatchFrom)
    + DecisionParts(integrations, task.linkedRunKeys, decision, seen)
  }

  // A dispatch of a run.

  function DispatchMutations(q: QueueEntry, actionKey: Option<Key>, runSeen: Option<Status>,
                             seen: Target -> Option<Status>): seq<Mutation> {
    [Mutation(RunTarget, Some(q.runKey), runSeen.GetOr(QueuedForDispatch), Dispatched, AppliedMutation),
     Mutation(RunnerTarget, Some(q.runnerKey), SeenOr(seen, RunnerTarget, Some(q.runnerKey), Pending), Dispatched,
              AppliedMutation),
     Mutation(ActionTarget, actionKey, SeenOr(seen, ActionTarget, actionKey, Dispatched), Completed, AppliedMutation),
     Mutation(TransitionTarget, q.nextTransitionKey, SeenOr(seen, TransitionTarget, q.nextTransitionKey, Applied),
              Completed, AppliedMutation)]
  }

  // The shape of the integrations of an accepted contract.

  lemma IntegrationShape(d: Draft, i: nat)
    requires WellFormed(d) && i < |d.children|
    ensures RunnerIntegrations(d)[i] == RunnerIntegration(RunKey(i), RunnerKey(i), Some(ActionKey(i + 1)),
                                                          Some(TransitionKey(i)),
                                                          if Gated(d, i) then AwaitingApprovalClearance
                                                          else RunnerDispatched)
  {
    QueueShape(d, i);
    IntegrationLinks(d, DispatchQueue(d)[i], i);
    IntegrationAt(d, i);
  }

  lemma IntegrationAt(d: Draft, i: nat)
    requires i < |d.children|
    ensures RunnerIntegrations(d)[i] == IntegrationFor(DispatchQueue(d)[i], Actions(d), Transitions(d))
  {
  }

  lemma IntegrationLinks(d: Draft, q: QueueEntry, i: nat)
    requires WellFormed(d) && i < |d.children| && q.runnerKey == RunnerKey(i)
    ensures IntegrationFor(q, Actions(d), Transitions(d)) ==
            RunnerIntegration(q.runKey, q.runnerKey, Some(ActionKey(i + 1)), Some(TransitionKey(i)),
                              StateOf(q.readiness))
  {
    ActionKeys(d);
    TransitionKeys(d);
    IntegrationFinds(q, Actions(d), Transitions(d), i);
  }

  lemma TransitionKeys(d: Draft)
    requires WellFormed(d)
    ensures forall k :: 0 <= k < |Transitions(d)| ==>
              Transitions(d)[k].transitionKey == TransitionKey(k) && Transitions(d)[k].sourceRunnerKey == RunnerKey(k)
  {
    forall k | 0 <= k < |d.children|
      ensures Transitions(d)[k].transitionKey == TransitionKey(k) && Transitions(d)[k].sourceRunnerKey == RunnerKey(k)
    {
      TransitionShape(d, k);
    }
  }

  lemma IntegrationFinds(q: QueueEntry, actions: seq<Action>, transitions: seq<Transition>, i: nat)
    requires i < |actions| && i < |transitions| && q.runnerKey == RunnerKey(i)
    requires forall k :: 0 <= k < |actions| ==>
               actions[k].runnerKey == RunnerKey(k) && actions[k].actionKey == ActionKey(k + 1)
    requires forall k :: 0 <= k < |transitions| ==>
               transitions[k].transitionKey == TransitionKey(k) && transitions[k].sourceRunnerKey == RunnerKey(k)
    ensures IntegrationFor(q, actions, transitions).actionKey == Some(ActionKey(i + 1))
    ensures IntegrationFor(q, actions, transitions).transitionKey == Some(TransitionKey(i))
  {
    FindUnique(actions, (a: Action) => a.runnerKey == q.runnerKey, i);
    FindUnique(transitions, (t: Transition) => t.sourceRunnerKey == q.runnerKey, i);
  }

  lemma ApprovalIntegrationShape(d: Draft, j: nat)
    requires WellFormed(d) && j < |d.approvals|
    ensures ApprovalIntegrations(d)[j] == ApprovalIntegration(ApprovalKey(j + 1), TaskKey(j), true)
  {
    TaskAt(d, j);
    assert d.approvals[j] in d.approvals;
  }
}
