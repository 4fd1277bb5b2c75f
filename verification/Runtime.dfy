/**
 The three steps of the execution runtime. Each derives the plan afresh from the contract, reads the latest persisted
 status of its targets, accepts or refuses, and on acceptance overwrites its own slot. Reads and writes may fail
 without an error: a failed read answers null, a failed write leaves the slot as it was.
 */
module Runtime {
  import opened Wrappers
  import opened Lists
  import opened Contracts
  import opened Validation
  import opened Topology
  import opened Mutations
  import opened Effects
  import opened Plans
  import opened History

  datatype Step =
    | Activate(at: int, writeSucceeds: bool)
    | Decide(at: int, taskKey: Key, decision: Decision, readsTask: bool, readsDispatch: bool, readsRuns: bool,
             writeSucceeds: bool)
    | Dispatch(at: int, runKey: Key, readsRun: bool, readsParts: bool, writeSucceeds: bool)

  datatype Refusal =
    | ContractRefused(rejection: Rejection)
    | UnknownTask
    | NotAwaitingDecision(status: Status)
    | UnknownRun
    | RunInStatus(status: Status)
    | RunNotReady(readiness: DispatchReadiness)

  /** What a read of one target answers. */
  function See(slots: Slots, t: Target, readSucceeds: bool): Option<Status> {
    if readSucceeds then Visible(slots, t) else None
  }

  function SeenIn(slots: Slots, readSucceeds: bool): Target -> Option<Status> {
    t => See(slots, t, readSucceeds)
  }

  function AttemptActivation(p: Plan, at: int): Result<Snapshot, Refusal> {
    match p.verdict
    case Some(r) => Failure(ContractRefused(r))
    case None =>
      Success(Snapshot(MaterializedRuntime, at, ActivationMutations(p.approvals, p.integrations), Activated))
  }

  function AttemptDecision(p: Plan, slots: Slots, s: Step): Result<Snapshot, Refusal>
    requires s.Decide?
  {
    match p.verdict
    case Some(r) => Failure(ContractRefused(r))
    case None =>
      match Find(p.tasks, (t: Task) => t.taskKey == s.taskKey)
      case None => Failure(UnknownTask)
      case Some(task) => DecideTask(p, slots, s, task)
  }

  function DecideTask(p: Plan, slots: Slots, s: Step, task: Task): Result<Snapshot, Refusal>
    requires s.Decide?
  {
    var status := See(slots, Target(TaskTarget, task.taskKey), s.readsTask).GetOr(InitialTaskStatus(task));
    var dispatchSeen := See(slots, Target(DispatchTarget, task.dispatchKey), s.readsDispatch);
    if status != AwaitingDecision then Failure(NotAwaitingDecision(status))
    else Success(Snapshot(ApprovalDecision, s.at,
                          DecisionMutations(p.integrations, task, s.decision, status, dispatchSeen.GetOr(Dispatched),
                                            SeenIn(slots, s.readsRuns)),
                          Decided(task.taskKey, s.decision)))
  }

  function AttemptDispatch(p: Plan, slots: Slots, s: Step): Result<Snapshot, Refusal>
    requires s.Dispatch?
  {
    match p.verdict
    case Some(r) => Failure(ContractRefused(r))
    case None =>
      match Find(p.queue, (q: QueueEntry) => q.runKey == s.runKey)
      case None => Failure(UnknownRun)
      case Some(q) => DispatchRun(p, slots, s, q)
  }

  function EffectiveReadiness(readiness: DispatchReadiness, seen: Option<Status>): DispatchReadiness {
    if readiness == BlockedByApproval && seen == Some(QueuedForDispatch) then Dispatchable else readiness
  }

  function DispatchRun(p: Plan, slots: Slots, s: Step, q: QueueEntry): Result<Snapshot, Refusal>
    requires s.Dispatch?
  {
    var seen := See(slots, Target(RunTarget, s.runKey), s.readsRun);
    var readiness := EffectiveReadiness(q.readiness, seen);
    if seen.Some? && seen.value != QueuedForDispatch then Failure(RunInStatus(seen.value))
    else if readiness != Dispatchable then Failure(RunNotReady(readiness))
    else Success(Snapshot(RunDispatch, s.at,
                          DispatchMutations(q, ActionKeyOf(p, s.runKey), seen, SeenIn(slots, s.readsParts)),
                          RunDispatched(s.runKey)))
  }

  /** The answer of a step in a store. */
  function Attempt(p: Plan, slots: Slots, s: Step): Result<Snapshot, Refusal> {
    match s
    case Activate(at, _) => AttemptActivation(p, at)
    case Decide(_, _, _, _, _, _, _) => AttemptDecision(p, slots, s)
    case Dispatch(_, _, _, _, _) => AttemptDispatch(p, slots, s)
  }

  /** The store a step leaves. */
  function Next(p: Plan, slots: Slots, s: Step): Slots {
    match Attempt(p, slots, s)
    case Failure(_) => slots
    case Success(snapshot) => if s.writeSucceeds then slots[snapshot.snapshotType := snapshot] else slots
  }

  /** The store after a whole run, from a plan with no history. */
  function Exec(p: Plan, run: seq<Step>): Slots {
    if run == [] then map[]
    else Next(p, Exec(p, run[..|run| - 1]), run[|run| - 1])
  }

  /** The clock never repeats. */
  ghost predicate Increasing(run: seq<Step>) {
    forall i, j :: 0 <= i < j < |run| ==> run[i].at < run[j].at
  }

  // The batch of targets a decision asks about, and why asking about them is enough.

  function AskedOf(runKey: Key, integration: Option<RunnerIntegration>): seq<Target> {
    [Target(RunTarget, runKey)]
    + (match integration
       case None => []
       case Some(r) =>
         (match r.actionKey case None => [] case Some(k) => [Target(ActionTarget, k)])
         + (match r.transitionKey case None => [] case Some(k) => [Target(TransitionTarget, k)])
         + [Target(RunnerTarget, r.runnerKey)])
  }

  function Asked(integrations: seq<RunnerIntegration>, runKeys: seq<Key>): seq<Target> {
    Flatten(Map(runKeys, (k: Key) => AskedOf(k, Find(integrations, (r: RunnerIntegration) => r.runKey == k))))
  }

  lemma DecisionBlockNeedsOnlyAsked(integrations: seq<RunnerIntegration>, k: Key, decision: Decision,
                                    seen: Target -> Option<Status>, seen': Target -> Option<Status>)
    requires forall t :: t in AskedOf(k, Find(integrations, (r: RunnerIntegration) => r.runKey == k)) ==>
               seen(t) == seen'(t)
    ensures DecisionBlockIn(integrations, k, decision, seen) == DecisionBlockIn(integrations, k, decision, seen')
  {
    var integration := Find(integrations, (r: RunnerIntegration) => r.runKey == k);
    var asked := AskedOf(k, integration);
    assert Target(RunTarget, k) in asked;
    if integration.Some? {
      var r := integration.value;
      assert Target(RunnerTarget, r.runnerKey) in asked;
      assert r.actionKey.Some? ==> Target(ActionTarget, r.actionKey.value) in asked;
      assert r.transitionKey.Some? ==> Target(TransitionTarget, r.transitionKey.value) in asked;
    }
  }

  lemma DecisionNeedsOnlyAsked(integrations: seq<RunnerIntegration>, runKeys: seq<Key>, decision: Decision,
                               seen: Target -> Option<Status>, seen': Target -> Option<Status>)
    requires forall t :: t in Asked(integrations, runKeys) ==> seen(t) == seen'(t)
    ensures DecisionParts(integrations, runKeys, decision, seen) ==
            DecisionParts(integrations, runKeys, decision, seen')
  {
    var asked := Map(runKeys, (k: Key) => AskedOf(k, Find(integrations, (r: RunnerIntegration) => r.runKey == k)));
    forall b | 0 <= b < |runKeys|
      ensures DecisionBlockIn(integrations, runKeys[b], decision, seen) ==
              DecisionBlockIn(integrations, runKeys[b], decision, seen')
    {
      assert forall t :: t in asked[b] ==> t in Flatten(asked);
      DecisionBlockNeedsOnlyAsked(integrations, runKeys[b], decision, seen, seen');
    }
    assert Map(runKeys, (k: Key) => DecisionBlockIn(integrations, k, decision, seen)) ==
           Map(runKeys, (k: Key) => DecisionBlockIn(integrations, k, decision, seen'));
  }

  function AskedByDispatch(q: QueueEntry, actionKey: Option<Key>): seq<Target> {
    [Target(RunnerTarget, q.runnerKey)]
    + (if actionKey.Some? then [Target(ActionTarget, actionKey.value)] else [])
    + (if q.nextTransitionKey.Some? then [Target(TransitionTarget, q.nextTransitionKey.value)] else [])
  }

  lemma DispatchNeedsOnlyAsked(q: QueueEntry, actionKey: Option<Key>, runSeen: Option<Status>,
                               seen: Target -> Option<Status>, seen': Target -> Option<Status>)
    requires forall t :: t in AskedByDispatch(q, actionKey) ==> seen(t) == seen'(t)
    ensures DispatchMutations(q, actionKey, runSeen, seen) == DispatchMutations(q, actionKey, runSeen, seen')
  {
    var asked := AskedByDispatch(q, actionKey);
    assert Target(RunnerTarget, q.runnerKey) in asked;
    assert actionKey.Some? ==> Target(ActionTarget, actionKey.value) in asked;
    assert q.nextTransitionKey.Some? ==> Target(TransitionTarget, q.nextTransitionKey.value) in asked;
  }

  /** The service for one plan: its contract, its store, and the steps taken so far. */
  class OrchestrationRuntime {
    const submission: Submission
    const history: RuntimeHistory
    ghost var trace: seq<Step>

    ghost function Submitted(): Plan { PlanOf(NormalForm(submission)) }

    /** The store is always the outcome of the steps taken. */
    ghost predicate Valid()
      reads this, history
    {
      history.slots == Exec(Submitted(), trace) && Increasing(trace)
    }

    /** A time later than every step taken. */
    ghost predicate Later(now: int)
      reads this
    {
      trace != [] ==> trace[|trace| - 1].at < now
    }

    constructor (submission: Submission)
      ensures Valid() && fresh(history) && trace == [] && this.submission == submission
    {
      this.submission := submission;
      this.history := new RuntimeHistory();
      this.trace := [];
    }

    /** Every step submits the contract again. */
    method SubmitExecutionContract() returns (p: Plan)
      ensures p == Submitted()
    {
      var d := Normalize(submission);
      p := PlanOf(d);
    }

    method MaterializeExecutionRuntime(now: int, writeSucceeds: bool) returns (answer: Result<Snapshot, Refusal>)
      requires Valid() && Later(now)
      modifies this, history
      ensures Valid() && trace == old(trace) + [Activate(now, writeSucceeds)]
      ensures answer == Attempt(Submitted(), old(history.slots), Activate(now, writeSucceeds))
    {
      var p := SubmitExecutionContract();
      answer := AttemptActivation(p, now);
      Finish(answer, writeSucceeds, Activate(now, writeSucceeds));
    }

    /** Every step ends the same way: an accepted snapshot is persisted if the write succeeds. */
    method Finish(answer: Result<Snapshot, Refusal>, writeSucceeds: bool, ghost s: Step)
      requires Valid() && Later(s.at) && s.writeSucceeds == writeSucceeds
      requires answer == Attempt(Submitted(), history.slots, s)
      modifies this, history
      ensures Valid() && trace == old(trace) + [s]
    {
      hide Attempt, Exec, Increasing, Submitted;
      Recorded(s);
      if answer.Success? {
        var _ := history.PersistSnapshot(answer.value, writeSucceeds);
      }
      trace := trace + [s];
    }

    method ApplyApprovalDecision(now: int, taskKey: Key, decision: Decision, readsTask: bool, readsDispatch: bool,
                                 readsRuns: bool, writeSucceeds: bool)
      returns (answer: Result<Snapshot, Refusal>)
      requires Valid() && Later(now)
      modifies this, history
      ensures Valid()
      ensures var s := Decide(now, taskKey, decision, readsTask, readsDispatch, readsRuns, writeSucceeds);
              trace == old(trace) + [s] && answer == Attempt(Submitted(), old(history.slots), s)
    {
      ghost var s := Decide(now, taskKey, decision, readsTask, readsDispatch, readsRuns, writeSucceeds);
      answer := AnswerDecision(now, taskKey, decision, readsTask, readsDispatch, readsRuns, s);
      Finish(answer, writeSucceeds, s);
    }

    method AnswerDecision(now: int, taskKey: Key, decision: Decision, readsTask: bool, readsDispatch: bool,
                          readsRuns: bool, ghost s: Step)
      returns (answer: Result<Snapshot, Refusal>)
      requires s.Decide? && s.at == now && s.taskKey == taskKey && s.decision == decision
      requires s.readsTask == readsTask && s.readsDispatch == readsDispatch && s.readsRuns == readsRuns
      ensures answer == AttemptDecision(Submitted(), history.slots, s)
    {
      var p := SubmitExecutionContract();
      if p.verdict.Some? {
        return Failure(ContractRefused(p.verdict.value));
      }
      var task := Find(p.tasks, (t: Task) => t.taskKey == taskKey);
      if task.None? {
        return Failure(UnknownTask);
      }
      answer := DecideOn(p, now, task.value, decision, readsTask, readsDispatch, readsRuns, s);
    }

    /** The part of a decision that reads: the task and its dispatch one by one, the linked runs in one batch. */
    method DecideOn(p: Plan, now: int, task: Task, decision: Decision, readsTask: bool, readsDispatch: bool,
                    readsRuns: bool, ghost s: Step)
      returns (answer: Result<Snapshot, Refusal>)
      requires s.Decide? && s.at == now && s.decision == decision && s.readsTask == readsTask
      requires s.readsDispatch == readsDispatch && s.readsRuns == readsRuns
      ensures answer == DecideTask(p, history.slots, s, task)
    {
      var taskSeen := Read(Target(TaskTarget, task.taskKey), readsTask);
      var dispatchSeen := Read(Target(DispatchTarget, task.dispatchKey), readsDispatch);
      var status := taskSeen.GetOr(InitialTaskStatus(task));
      if status != AwaitingDecision {
        return Failure(NotAwaitingDecision(status));
      }
      var integrations := p.integrations;
      var asked := Asked(integrations, task.linkedRunKeys);
      var found := ReadAll(asked, readsRuns);
      var seen := (t: Target) => if t in found then found[t] else None;
      var parts := DecisionParts(integrations, task.linkedRunKeys, decision, seen);
      DecisionNeedsOnlyAsked(integrations, task.linkedRunKeys, decision, seen, SeenIn(history.slots, readsRuns));
      answer := Success(Snapshot(ApprovalDecision, now,
                                 DecisionEnds(task, decision, status, dispatchSeen.GetOr(Dispatched)) + parts,
                                 Decided(task.taskKey, decision)));
    }

    method DispatchExecutionRun(now: int, runKey: Key, readsRun: bool, readsParts: bool, writeSucceeds: bool)
      returns (answer: Result<Snapshot, Refusal>)
      requires Valid() && Later(now)
      modifies this, history
      ensures Valid()
      ensures var s := Dispatch(now, runKey, readsRun, readsParts, writeSucceeds);
              trace == old(trace) + [s] && answer == Attempt(Submitted(), old(history.slots), s)
    {
      ghost var s := Dispatch(now, runKey, readsRun, readsParts, writeSucceeds);
      answer := AnswerDispatch(now, runKey, readsRun, readsParts, s);
      Finish(answer, writeSucceeds, s);
    }

    method AnswerDispatch(now: int, runKey: Key, readsRun: bool, readsParts: bool, ghost s: Step)
      returns (answer: Result<Snapshot, Refusal>)
      requires s.Dispatch? && s.at == now && s.runKey == runKey && s.readsRun == readsRun && s.readsParts == readsParts
      ensures answer == AttemptDispatch(Submitted(), history.slots, s)
    {
      var p := SubmitExecutionContract();
      if p.verdict.Some? {
        return Failure(ContractRefused(p.verdict.value));
      }
      var q := Find(p.queue, (q: QueueEntry) => q.runKey == runKey);
      if q.None? {
        return Failure(UnknownRun);
      }
      answer := DispatchQueued(p, now, q.value, runKey, readsRun, readsParts, s);
    }

    method DispatchQueued(p: Plan, now: int, q: QueueEntry, runKey: Key, readsRun: bool, readsParts: bool,
                          ghost s: Step)
      returns (answer: Result<Snapshot, Refusal>)
      requires s.Dispatch? && s.at == now && s.runKey == runKey && s.readsRun == readsRun && s.readsParts == readsParts
      requires q.runKey == runKey
      ensures answer == DispatchRun(p, history.slots, s, q)
    {
      var runSeen := Read(Target(RunTarget, runKey), readsRun);
      if runSeen.Some? && runSeen.value != QueuedForDispatch {
        return Failure(RunInStatus(runSeen.value));
      }
      var readiness := EffectiveReadiness(q.readiness, runSeen);
      if readiness != Dispatchable {
        return Failure(RunNotReady(readiness));
      }
      var actionKey := ActionKeyOf(p, runKey);
      var asked := AskedByDispatch(q, actionKey);
      var found := ReadAll(asked, readsParts);
      var seen := (t: Target) => if t in found then found[t] else None;
      DispatchNeedsOnlyAsked(q, actionKey, runSeen, seen, SeenIn(history.slots, readsParts));
      answer := Success(Snapshot(RunDispatch, now, DispatchMutations(q, actionKey, runSeen, seen),
                                 RunDispatched(runKey)));
    }

    method Read(t: Target, readSucceeds: bool) returns (seen: Option<Status>)
      ensures seen == See(history.slots, t, readSucceeds)
    {
      var m := history.FindLatestMutation(t, DEFAULT_MUTATION_TAKE, readSucceeds);
      DefaultWindowsSeeEverything(history.slots, DEFAULT_MUTATION_TAKE);
      seen := match m case None => None case Some(x) => Some(x.toStatus);
    }

    method ReadAll(targets: seq<Target>, readSucceeds: bool) returns (seen: map<Target, Option<Status>>)
      ensures seen.Keys == set t | t in targets
      ensures forall t :: t in targets ==> seen[t] == See(history.slots, t, readSucceeds)
    {
      var found := history.FindLatestMutations(targets, DEFAULT_MUTATION_TAKE, readSucceeds);
      DefaultWindowsSeeEverything(history.slots, DEFAULT_MUTATION_TAKE);
      seen := map t | t in found :: match found[t] case None => None case Some(x) => Some(x.toStatus);
    }

    lemma Recorded(s: Step)
      ensures Exec(Submitted(), trace + [s]) == Next(Submitted(), Exec(Submitted(), trace), s)
      ensures Increasing(trace) && Later(s.at) ==> Increasing(trace + [s])
    {
      assert (trace + [s])[..|trace|] == trace;
      if Increasing(trace) && Later(s.at) {
        forall i, j | 0 <= i < j < |trace + [s]| ensures (trace + [s])[i].at < (trace + [s])[j].at {
          if j == |trace| && i < |trace| - 1 {
            assert trace[i].at < trace[|trace| - 1].at;
          }
        }
      }
    }
  }
}
