/** What contract submission hands to the runtime, and what the runtime relies on: the specification of the compiler. */
module Plans {
  import opened Wrappers
  import opened Lists
  import opened Contracts
  import opened Validation
  import opened Topology
  import opened Mutations
  import opened Effects
  import opened Activation

  /** A submitted contract: the verdict on it, and the emitted lists that the steps of the runtime use. */
  datatype Plan = Plan(contract: Draft, verdict: Option<Rejection>, tasks: seq<Task>, queue: seq<QueueEntry>,
                       approvals: seq<ApprovalIntegration>, integrations: seq<RunnerIntegration>)

  function PlanOf(d: Draft): Plan {
    Plan(d, Check(d), Tasks(d), DispatchQueue(d), ApprovalIntegrations(d), RunnerIntegrations(d))
  }

  function InitialTaskStatus(task: Task): Status {
    if task.taskStatus == PendingApproval then AwaitingDecision else task.taskStatus
  }

  ghost predicate TaskSound(d: Draft, task: Task, j: nat) {
    && TaskShaped(d, task, j) && InitialTaskStatus(task) == AwaitingDecision
    && forall b, c :: 0 <= b < c < |task.linkedRunKeys| ==> task.linkedRunKeys[b] != task.linkedRunKeys[c]
  }

  function ExpectedEntry(d: Draft, i: nat): QueueEntry
    requires i < |d.children|
  {
    QueueEntry(RunKey(i), RunnerKey(i), if Gated(d, i) then BlockedByApproval else Dispatchable, Some(TransitionKey(i)))
  }

  /** The lists belong to an accepted contract: every entry in its place, with the links its gating demands. */
  ghost predicate Sound(p: Plan) {
    && p.verdict.None?
    && (forall i :: 0 <= i < |p.contract.children| && Gated(p.contract, i) ==> GateOf(p.contract, i) >= 0)
    && |p.tasks| == |p.contract.approvals|
    && (forall j :: 0 <= j < |p.tasks| ==> TaskSound(p.contract, p.tasks[j], j))
    && |p.queue| == |p.contract.children|
    && (forall i :: 0 <= i < |p.queue| ==> p.queue[i] == ExpectedEntry(p.contract, i))
    && ApprovalsShaped(p.approvals) && |p.approvals| == |p.contract.approvals|
    && RunnersShaped(p.contract, p.integrations)
  }

  /** Compiling a contract gives a sound plan if and only if the contract is well-formed, and else a refusal. */
  lemma PlanIsSoundIff(d: Draft)
    ensures Sound(PlanOf(d)) <==> WellFormed(d)
    ensures PlanOf(d).verdict.Some? <==> !WellFormed(d)
  {
    CheckAcceptsExactlyTheWellFormed(d);
    if WellFormed(d) {
      WellFormedPlanIsSound(d);
    }
  }

  lemma WellFormedPlanIsSound(d: Draft)
    requires WellFormed(d) && Check(d).None?
    ensures Sound(PlanOf(d))
  {
    hide Check, WellFormed, Tasks, DispatchQueue, ApprovalIntegrations, RunnerIntegrations, TaskSound, ExpectedEntry,
         Gated, GateOf;
    var p := PlanOf(d);
    EmittedTasksAreSound(d);
    EmittedQueueIsSound(d);
    EmittedApprovalsAreShaped(d);
    EmittedRunnersAreShaped(d);
    forall i | 0 <= i < |d.children| && Gated(d, i) ensures GateOf(d, i) >= 0 {
      GateExists(d, i);
    }
  }

  lemma EmittedTasksAreSound(d: Draft)
    requires WellFormed(d)
    ensures |Tasks(d)| == |d.approvals|
    ensures forall j :: 0 <= j < |Tasks(d)| ==> TaskSound(d, Tasks(d)[j], j)
  {
    hide WellFormed, TaskSound;
    forall j | 0 <= j < |d.approvals| ensures TaskSound(d, Tasks(d)[j], j) {
      EmittedTaskIsSound(d, j);
    }
  }

  lemma EmittedTaskIsSound(d: Draft, j: nat)
    requires WellFormed(d) && j < |d.approvals|
    ensures TaskSound(d, Tasks(d)[j], j)
  {
    hide TaskShaped;
    EmittedTaskIsShaped(d, j);
    RunKeys(d);
    LinkedRunsAreDistinct(ApprovalDispatches(d)[j], Runs(d));
    TaskAt(d, j);
    assert d.approvals[j] in d.approvals;
  }

  lemma EmittedQueueIsSound(d: Draft)
    requires WellFormed(d)
    ensures |DispatchQueue(d)| == |d.children|
    ensures forall i :: 0 <= i < |DispatchQueue(d)| ==> DispatchQueue(d)[i] == ExpectedEntry(d, i)
  {
    hide WellFormed;
    forall i | 0 <= i < |d.children| ensures DispatchQueue(d)[i] == ExpectedEntry(d, i) {
      QueueShape(d, i);
    }
  }

  // Finding tasks, runs and actions in a sound plan.

  lemma TaskFound(p: Plan, taskKey: Key) returns (j: nat)
    requires Sound(p) && Find(p.tasks, (t: Task) => t.taskKey == taskKey).Some?
    ensures j < |p.tasks| && taskKey == TaskKey(j)
    ensures Find(p.tasks, (t: Task) => t.taskKey == taskKey) == Some(p.tasks[j])
  {
    var task := Find(p.tasks, (t: Task) => t.taskKey == taskKey).value;
    j :| 0 <= j < |p.tasks| && p.tasks[j] == task;
    assert TaskSound(p.contract, p.tasks[j], j);
  }

  lemma TaskIsFound(p: Plan, j: nat)
    requires Sound(p) && j < |p.tasks|
    ensures Find(p.tasks, (t: Task) => t.taskKey == TaskKey(j)) == Some(p.tasks[j])
    ensures p.tasks[j].taskKey == TaskKey(j) && p.tasks[j].dispatchKey == ApprovalKey(j + 1)
    ensures InitialTaskStatus(p.tasks[j]) == AwaitingDecision
  {
    forall k | 0 <= k < |p.tasks| ensures p.tasks[k].taskKey == TaskKey(k) {
      assert TaskSound(p.contract, p.tasks[k], k);
    }
    assert TaskSound(p.contract, p.tasks[j], j);
    FindUnique(p.tasks, (t: Task) => t.taskKey == TaskKey(j), j);
  }

  lemma RunFound(p: Plan, runKey: Key) returns (i: nat)
    requires Sound(p) && Find(p.queue, (q: QueueEntry) => q.runKey == runKey).Some?
    ensures i < |p.queue| && runKey == RunKey(i)
    ensures Find(p.queue, (q: QueueEntry) => q.runKey == runKey) == Some(p.queue[i])
  {
    var q := Find(p.queue, (q: QueueEntry) => q.runKey == runKey).value;
    i :| 0 <= i < |p.queue| && p.queue[i] == q;
  }

  lemma RunIsFound(p: Plan, i: nat)
    requires Sound(p) && i < |p.queue|
    ensures Find(p.queue, (q: QueueEntry) => q.runKey == RunKey(i)) == Some(p.queue[i])
    ensures p.queue[i] == ExpectedEntry(p.contract, i)
  {
    FindUnique(p.queue, (q: QueueEntry) => q.runKey == RunKey(i), i);
  }

  function ActionKeyOf(p: Plan, runKey: Key): Option<Key> {
    match Find(p.integrations, (r: RunnerIntegration) => r.runKey == runKey)
    case None => None
    case Some(r) => r.actionKey
  }

  lemma ActionKeyIsFound(p: Plan, i: nat)
    requires Sound(p) && i < |p.queue|
    ensures ActionKeyOf(p, RunKey(i)) == Some(ActionKey(i + 1))
  {
    FindUnique(p.integrations, (r: RunnerIntegration) => r.runKey == RunKey(i), i);
  }
}
