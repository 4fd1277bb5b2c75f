/**
 What contract submission emits for an accepted contract: bindings, child records, approval dispatches, rollbacks,
 runners, actions, runs, approval tasks and transitions, linked by keys made from list positions.
 */
module Topology {
  import opened Wrappers
  import opened Lists
  import opened Contracts
  import opened Validation

  /** The keys of one plan. The plan's own id is the common prefix of all of them and is left out. */
  datatype Key =
    | BindingKey(n: nat)
    | ChildKey(n: nat)
    | ApprovalKey(n: nat)
    | EscalationKey(n: nat)
    | RollbackKey(n: nat)
    | ActionKey(n: nat)
    | RunnerOf(contract: Key)
    | RunOf(runner: Key)
    | TaskOf(dispatch: Key)
    | TransitionOf(action: Key)

  datatype Status =
    | Pending | Blocked | PendingApproval | OptionalPending | AwaitingApproval | QueuedForDispatch
    | Dispatched | DispatchFailed | OptionalReview | AwaitingDecision | ReviewRequested
    | AwaitingApprovalDecision | PendingRuntimeResolution | Applied | Completed
    | Approved | Rejected | ChangesRequested | Cancelled

  datatype Readiness = BlockedMissingBinding | AwaitingRequiredApproval | ReadyForDispatch
  datatype ActionType = DispatchRequiredApproval | DispatchChildWorkflow | ResolveRuntimeBinding
  datatype DispatchReadiness = Dispatchable | BlockedByApproval | BlockedByBinding

  datatype StoredBinding = StoredBinding(bindingKey: Key, binding: Binding)
  datatype ChildRecord = ChildRecord(contractKey: Key, runtimeBindingKey: Option<Key>, child: Child)
  datatype ApprovalDispatch = ApprovalDispatch(dispatchKey: Key, approval: Approval, linkedChildKeys: seq<Key>)
  datatype EscalationRecord = EscalationRecord(recordKey: Key, escalation: Escalation, linkedDispatchKeys: seq<Key>)
  datatype RollbackRecord = RollbackRecord(recordKey: Key, rollback: Rollback, linkedChildKeys: seq<Key>)
  datatype Runner = Runner(runnerKey: Key, contractKey: Key, runtimeBindingKey: Option<Key>, readiness: Readiness,
                           linkedDispatchKeys: seq<Key>, linkedRollbackKeys: seq<Key>)
  datatype Linkage = Linkage(contractKey: Key, linkedDispatchKeys: seq<Key>, linkedRunnerKey: Option<Key>,
                             linkedRollbackKeys: seq<Key>)
  datatype Action = Action(actionKey: Key, actionType: ActionType, actionStatus: Status, targetKey: Key,
                           runnerKey: Key, contractKey: Key)
  datatype Run = Run(runKey: Key, runnerKey: Key, contractKey: Key, runStatus: Status, nextActionKey: Option<Key>,
                     approvalTaskKeys: seq<Key>, rollbackKeys: seq<Key>)
  datatype Task = Task(taskKey: Key, dispatchKey: Key, required: bool, taskStatus: Status, linkedChildKeys: seq<Key>,
                       linkedRunKeys: seq<Key>)
  datatype Transition = Transition(transitionKey: Key, sourceActionKey: Key, sourceRunnerKey: Key, targetKey: Key)
  datatype StateHint = StateHint(runKey: Key, nextTransitionKey: Option<Key>)
  datatype QueueEntry = QueueEntry(runKey: Key, runnerKey: Key, readiness: DispatchReadiness,
                                   nextTransitionKey: Option<Key>)
  datatype RunPolicy = RunPolicy(runKey: Key, currentStatus: Status, allowedNext: seq<Status>)

  function StoredBindings(d: Draft): seq<StoredBinding> {
    seq(|d.bindings|, i requires 0 <= i < |d.bindings| => StoredBinding(BindingKey(i + 1), d.bindings[i]))
  }

  function ChildRecordAt(d: Draft, i: nat): ChildRecord
    requires i < |d.children|
  {
    var c := d.children[i];
    var bound := Find(StoredBindings(d), (b: StoredBinding) => Binds(b.binding, c));
    ChildRecord(ChildKey(i + 1), match bound case None => None case Some(b) => Some(b.bindingKey), c)
  }

  function ChildRecords(d: Draft): seq<ChildRecord> {
    seq(|d.children|, i requires 0 <= i < |d.children| => ChildRecordAt(d, i))
  }

  function ApprovalDispatches(d: Draft): seq<ApprovalDispatch> {
    seq(|d.approvals|, j requires 0 <= j < |d.approvals| =>
      ApprovalDispatch(ApprovalKey(j + 1), d.approvals[j],
                       Map(Filter(ChildRecords(d),
                                  (c: ChildRecord) => Guards(d.approvals[j].checkpointKey, c.child)),
                           (c: ChildRecord) => c.contractKey)))
  }

  function EscalationRecords(d: Draft): seq<EscalationRecord> {
    seq(|d.escalations|, e requires 0 <= e < |d.escalations| =>
      EscalationRecord(EscalationKey(e + 1), d.escalations[e],
                       Map(Filter(ApprovalDispatches(d), (x: ApprovalDispatch) =>
                             x.approval.checkpointKey == d.escalations[e].fromCheckpointKey),
                           (x: ApprovalDispatch) => x.dispatchKey)))
  }

  function RollbackRecords(d: Draft): seq<RollbackRecord> {
    seq(|d.rollbacks|, k requires 0 <= k < |d.rollbacks| =>
      RollbackRecord(RollbackKey(k + 1), d.rollbacks[k],
                     Map(Filter(ChildRecords(d), (c: ChildRecord) =>
                           c.child.systemKey == d.rollbacks[k].targetSystemKey
                           && c.child.approvalCheckpointKey == d.rollbacks[k].fromCheckpointKey),
                         (c: ChildRecord) => c.contractKey)))
  }

  function RollbackKeysOf(contractKey: Key, rollbacks: seq<RollbackRecord>): seq<Key> {
    Map(Filter(rollbacks, (r: RollbackRecord) => contractKey in r.linkedChildKeys),
        (r: RollbackRecord) => r.recordKey)
  }

  function WaitsFor(c: Child, dispatches: seq<ApprovalDispatch>): seq<Key> {
    if c.approvalRequired then
      Map(Filter(dispatches, (x: ApprovalDispatch) => Awaits(c, x)), (x: ApprovalDispatch) => x.dispatchKey)
    else []
  }

  function RunnerFor(c: ChildRecord, dispatches: seq<ApprovalDispatch>, rollbacks: seq<RollbackRecord>): Runner {
    var dispatchKeys := WaitsFor(c.child, dispatches);
    var readiness :=
      if c.runtimeBindingKey.None? then BlockedMissingBinding
      else if |dispatchKeys| > 0 then AwaitingRequiredApproval
      else ReadyForDispatch;
    Runner(RunnerOf(c.contractKey), c.contractKey, c.runtimeBindingKey, readiness, dispatchKeys,
           RollbackKeysOf(c.contractKey, rollbacks))
  }

  function Runners(d: Draft): seq<Runner> {
    Map(ChildRecords(d), (c: ChildRecord) => RunnerFor(c, ApprovalDispatches(d), RollbackRecords(d)))
  }

  function LinkageFor(key: Key, dispatches: seq<ApprovalDispatch>, rollbacks: seq<RollbackRecord>,
                      runners: seq<Runner>): Linkage {
    var runner := Find(runners, (r: Runner) => r.contractKey == key);
    Linkage(key,
            Map(Filter(dispatches, (x: ApprovalDispatch) => key in x.linkedChildKeys),
                (x: ApprovalDispatch) => x.dispatchKey),
            match runner case None => None case Some(r) => Some(r.runnerKey),
            RollbackKeysOf(key, rollbacks))
  }

  function Linkages(d: Draft): seq<Linkage> {
    Map(ChildRecords(d),
        (c: ChildRecord) => LinkageFor(c.contractKey, ApprovalDispatches(d), RollbackRecords(d), Runners(d)))
  }

  function ActionFor(r: Runner, i: nat): Action {
    var actionType :=
      if r.readiness == AwaitingRequiredApproval then DispatchRequiredApproval
      else if r.readiness == ReadyForDispatch then DispatchChildWorkflow
      else ResolveRuntimeBinding;
    var target :=
      if actionType == DispatchRequiredApproval && |r.linkedDispatchKeys| > 0 then r.linkedDispatchKeys[0]
      else if actionType == DispatchChildWorkflow then r.runnerKey
      else r.contractKey;
    Action(ActionKey(i + 1), actionType, if r.readiness == BlockedMissingBinding then Blocked else Pending, target,
           r.runnerKey, r.contractKey)
  }

  function Actions(d: Draft): seq<Action> {
    seq(|d.children|, i requires 0 <= i < |d.children| => ActionFor(Runners(d)[i], i))
  }

  function RunFor(r: Runner, actions: seq<Action>): Run {
    var action := Find(actions, (a: Action) => a.runnerKey == r.runnerKey);
    var status :=
      if r.readiness == BlockedMissingBinding then Blocked
      else if r.readiness == AwaitingRequiredApproval then AwaitingApproval
      else QueuedForDispatch;
    Run(RunOf(r.runnerKey), r.runnerKey, r.contractKey, status,
        match action case None => None case Some(a) => Some(a.actionKey),
        Map(r.linkedDispatchKeys, (k: Key) => TaskOf(k)), r.linkedRollbackKeys)
  }

  function Runs(d: Draft): seq<Run> {
    Map(Runners(d), (r: Runner) => RunFor(r, Actions(d)))
  }

  function TaskFor(x: ApprovalDispatch, runs: seq<Run>): Task {
    var taskKey := TaskOf(x.dispatchKey);
    Task(taskKey, x.dispatchKey, x.approval.required,
         if x.approval.required then PendingApproval else OptionalPending, x.linkedChildKeys,
         Map(Filter(runs, (r: Run) => taskKey in r.approvalTaskKeys), (r: Run) => r.runKey))
  }

  function Tasks(d: Draft): seq<Task> {
    Map(ApprovalDispatches(d), (x: ApprovalDispatch) => TaskFor(x, Runs(d)))
  }

  function Transitions(d: Draft): seq<Transition> {
    Map(Actions(d), (a: Action) => Transition(TransitionOf(a.actionKey), a.actionKey, a.runnerKey, a.targetKey))
  }

  function HintFor(run: Run, transitions: seq<Transition>): StateHint {
    var next := Find(transitions, (t: Transition) => t.sourceRunnerKey == run.runnerKey);
    StateHint(run.runKey, match next case None => None case Some(t) => Some(t.transitionKey))
  }

  function StateHints(d: Draft): seq<StateHint> {
    Map(Runs(d), (r: Run) => HintFor(r, Transitions(d)))
  }

  function QueueEntryFor(run: Run, hints: seq<StateHint>): QueueEntry {
    var hint := Find(hints, (h: StateHint) => h.runKey == run.runKey);
    QueueEntry(run.runKey, run.runnerKey,
               if run.runStatus == QueuedForDispatch then Dispatchable
               else if run.runStatus == AwaitingApproval then BlockedByApproval
               else BlockedByBinding,
               match hint case None => None case Some(h) => h.nextTransitionKey)
  }

  function DispatchQueue(d: Draft): seq<QueueEntry> {
    Map(Runs(d), (r: Run) => QueueEntryFor(r, StateHints(d)))
  }

  /** What a run may become next, by its status. */
  function AllowedNext(status: Status): seq<Status> {
    if status == Blocked then [QueuedForDispatch]
    else if status == AwaitingApproval then [QueuedForDispatch, Cancelled]
    else [Dispatched, DispatchFailed, Cancelled]
  }

  function RunPolicies(d: Draft): seq<RunPolicy> {
    Map(Runs(d), (r: Run) => RunPolicy(r.runKey, r.runStatus, AllowedNext(r.runStatus)))
  }

  // The keys by position, and the two positions a child refers to.

  function RunnerKey(i: nat): Key { RunnerOf(ChildKey(i + 1)) }
  function RunKey(i: nat): Key { RunOf(RunnerKey(i)) }
  function TaskKey(j: nat): Key { TaskOf(ApprovalKey(j + 1)) }
  function TransitionKey(i: nat): Key { TransitionOf(ActionKey(i + 1)) }

  predicate Gated(d: Draft, i: nat)
    requires i < |d.children|
  {
    d.children[i].approvalRequired
  }

  /** The approval a gated child waits for. */
  function GateOf(d: Draft, i: nat): (j: int)
    requires i < |d.children|
    ensures -1 <= j < |d.approvals|
  {
    FindIndex(d.approvals, (a: Approval) => a.checkpointKey == d.children[i].approvalCheckpointKey)
  }

  function BindingOf(d: Draft, i: nat): (b: int)
    requires i < |d.children|
    ensures -1 <= b < |d.bindings|
  {
    FindIndex(d.bindings, (b: Binding) => Binds(b, d.children[i]))
  }

  /** Child i waits for approval j. */
  predicate GatedBy(d: Draft, i: nat, j: nat) {
    i < |d.children| && j < |d.approvals| && Gated(d, i) && GateOf(d, i) == j
  }

  lemma ApprovalPositions(d: Draft, i: nat, j: nat)
    requires WellFormed(d) && i < |d.children| && j < |d.approvals|
    ensures GatedBy(d, i, j) <==> Guards(d.approvals[j].checkpointKey, d.children[i])
    ensures Gated(d, i) ==> GateOf(d, i) >= 0
    ensures !Gated(d, i) ==> d.approvals[j].checkpointKey != d.children[i].approvalCheckpointKey
  {
    var c := d.children[i];
    assert c in d.children && d.approvals[j] in d.approvals;
    if Gated(d, i) {
      var g := GateOf(d, i);
      assert HasApproval(d, c.approvalCheckpointKey);
      assert g != j ==> Checkpoint(d.approvals[g]) != Checkpoint(d.approvals[j]);
    } else {
      var served :| served in d.children && Guards(d.approvals[j].checkpointKey, served);
    }
  }

  lemma GateExists(d: Draft, i: nat)
    requires WellFormed(d) && i < |d.children| && Gated(d, i)
    ensures GateOf(d, i) >= 0 && GatedBy(d, i, GateOf(d, i))
  {
    assert d.children[i] in d.children;
    assert HasApproval(d, d.children[i].approvalCheckpointKey);
  }

  /** Every child runs on exactly one binding, and the two agree on gating. */
  lemma ChildHasOneBinding(d: Draft, i: nat)
    requires WellFormed(d) && i < |d.children|
    ensures BindingOf(d, i) >= 0 && ChildRecords(d)[i].runtimeBindingKey == Some(BindingKey(BindingOf(d, i) + 1))
    ensures d.bindings[BindingOf(d, i)].approvalRequired == Gated(d, i)
    ensures forall b :: 0 <= b < |d.bindings| && Binds(d.bindings[b], d.children[i]) ==> b == BindingOf(d, i)
  {
    var c := d.children[i];
    assert c in d.children;
    var bound :| bound in d.bindings && Binds(bound, c) && bound.approvalRequired == c.approvalRequired;
    var b := BindingOf(d, i);
    BindingOfChildIsUnique(d, bound, d.bindings[b], c);
    forall b' | 0 <= b' < |d.bindings| && Binds(d.bindings[b'], c) ensures b' == b {
      assert Pair(d.bindings[b']) == Pair(d.bindings[b]);
    }
    FindUnique(StoredBindings(d), (x: StoredBinding) => Binds(x.binding, c), b);
  }

  // The shape of each emitted list, one stage at a time.

  predicate Awaits(c: Child, x: ApprovalDispatch) {
    x.approval.required && x.approval.checkpointKey == c.approvalCheckpointKey
  }

  lemma WaitsForGate(d: Draft, i: nat)
    requires WellFormed(d) && i < |d.children|
    ensures WaitsFor(d.children[i], ApprovalDispatches(d)) ==
            if Gated(d, i) then [ApprovalKey(GateOf(d, i) + 1)] else []
  {
    if Gated(d, i) {
      hide WellFormed, Filter, GateOf;
      GateExists(d, i);
      var waits := (x: ApprovalDispatch) => Awaits(d.children[i], x);
      forall j | 0 <= j < |d.approvals| ensures waits(ApprovalDispatches(d)[j]) <==> j == GateOf(d, i) {
        AwaitsItsGate(d, i, j);
      }
      FilterUnique(ApprovalDispatches(d), waits, GateOf(d, i));
    }
  }

  lemma AwaitsItsGate(d: Draft, i: nat, j: nat)
    requires WellFormed(d) && i < |d.children| && j < |d.approvals| && Gated(d, i)
    ensures Awaits(d.children[i], ApprovalDispatches(d)[j]) <==> j == GateOf(d, i)
  {
    ApprovalPositions(d, i, j);
    assert d.approvals[j] in d.approvals;
  }

  /** A gated runner waits for exactly the dispatch of its checkpoint; an ungated one is ready at once. */
  lemma RunnerShape(d: Draft, i: nat)
    requires WellFormed(d) && i < |d.children|
    ensures Runners(d)[i].runnerKey == RunnerKey(i) && Runners(d)[i].contractKey == ChildKey(i + 1)
    ensures Runners(d)[i].readiness == if Gated(d, i) then AwaitingRequiredApproval else ReadyForDispatch
    ensures Runners(d)[i].linkedDispatchKeys == if Gated(d, i) then [ApprovalKey(GateOf(d, i) + 1)] else []
    ensures Runners(d)[i].linkedRollbackKeys == RollbackKeysOf(ChildKey(i + 1), RollbackRecords(d))
    ensures Runners(d)[i].runtimeBindingKey == ChildRecords(d)[i].runtimeBindingKey
  {
    ChildHasOneBinding(d, i);
    WaitsForGate(d, i);
  }

  lemma ActionShape(d: Draft, i: nat)
    requires WellFormed(d) && i < |d.children|
    ensures Actions(d)[i] == Action(ActionKey(i + 1),
                                    if Gated(d, i) then DispatchRequiredApproval else DispatchChildWorkflow, Pending,
                                    if Gated(d, i) then ApprovalKey(GateOf(d, i) + 1) else RunnerKey(i),
                                    RunnerKey(i), ChildKey(i + 1))
  {
    RunnerShape(d, i);
  }

  lemma RunShape(d: Draft, i: nat)
    requires WellFormed(d) && i < |d.children|
    ensures Runs(d)[i].runKey == RunKey(i) && Runs(d)[i].runnerKey == RunnerKey(i)
    ensures Runs(d)[i].runStatus == if Gated(d, i) then AwaitingApproval else QueuedForDispatch
    ensures Runs(d)[i].nextActionKey == Some(ActionKey(i + 1))
    ensures Runs(d)[i].approvalTaskKeys == if Gated(d, i) then [TaskKey(GateOf(d, i))] else []
    ensures Runs(d)[i].rollbackKeys == Runners(d)[i].linkedRollbackKeys
  {
    RunnerShape(d, i);
    ActionKeys(d);
    RunForShape(Runners(d)[i], Actions(d), i);
    if Gated(d, i) {
      GateExists(d, i);
    }
  }

  lemma ActionKeys(d: Draft)
    requires WellFormed(d)
    ensures forall k :: 0 <= k < |Actions(d)| ==>
              Actions(d)[k].runnerKey == RunnerKey(k) && Actions(d)[k].actionKey == ActionKey(k + 1)
  {
    forall k | 0 <= k < |d.children|
      ensures Actions(d)[k].runnerKey == RunnerKey(k) && Actions(d)[k].actionKey == ActionKey(k + 1)
    {
      ActionShape(d, k);
    }
  }

  lemma RunForShape(r: Runner, actions: seq<Action>, i: nat)
    requires i < |actions| && r.runnerKey == RunnerKey(i)
    requires forall k :: 0 <= k < |actions| ==>
               actions[k].runnerKey == RunnerKey(k) && actions[k].actionKey == ActionKey(k + 1)
    ensures RunFor(r, actions).nextActionKey == Some(ActionKey(i + 1))
    ensures |r.linkedDispatchKeys| == 1 ==> RunFor(r, actions).approvalTaskKeys == [TaskOf(r.linkedDispatchKeys[0])]
    ensures |r.linkedDispatchKeys| == 0 ==> RunFor(r, actions).approvalTaskKeys == []
  {
    FindUnique(actions, (a: Action) => a.runnerKey == r.runnerKey, i);
  }

  lemma RunKeys(d: Draft)
    requires WellFormed(d)
    ensures forall k :: 0 <= k < |Runs(d)| ==> Runs(d)[k].runKey == RunKey(k)
  {
    forall k | 0 <= k < |d.children| ensures Runs(d)[k].runKey == RunKey(k) {
      RunShape(d, k);
    }
  }

  lemma TransitionShape(d: Draft, i: nat)
    requires WellFormed(d) && i < |d.children|
    ensures Transitions(d)[i] == Transition(TransitionKey(i), ActionKey(i + 1), RunnerKey(i),
                                            if Gated(d, i) then ApprovalKey(GateOf(d, i) + 1) else RunnerKey(i))
  {
    ActionShape(d, i);
  }

  lemma HintShape(d: Draft, i: nat)
    requires WellFormed(d) && i < |d.children|
    ensures StateHints(d)[i] == StateHint(RunKey(i), Some(TransitionKey(i)))
  {
    RunShape(d, i);
    forall k | 0 <= k < |d.children|
      ensures Transitions(d)[k].transitionKey == TransitionKey(k) && Transitions(d)[k].sourceRunnerKey == RunnerKey(k)
    {
      TransitionShape(d, k);
    }
    HintForFindsTransition(Runs(d)[i], Transitions(d), i);
  }

  lemma HintForFindsTransition(r: Run, transitions: seq<Transition>, i: nat)
    requires i < |transitions| && r.runnerKey == RunnerKey(i)
    requires forall k :: 0 <= k < |transitions| ==>
               transitions[k].transitionKey == TransitionKey(k) && transitions[k].sourceRunnerKey == RunnerKey(k)
    ensures HintFor(r, transitions).nextTransitionKey == Some(TransitionKey(i))
  {
    FindUnique(transitions, (t: Transition) => t.sourceRunnerKey == r.runnerKey, i);
  }

  lemma QueueShape(d: Draft, i: nat)
    requires WellFormed(d) && i < |d.children|
    ensures DispatchQueue(d)[i] == QueueEntry(RunKey(i), RunnerKey(i),
                                              if Gated(d, i) then BlockedByApproval else Dispatchable,
                                              Some(TransitionKey(i)))
  {
    RunShape(d, i);
    forall k | 0 <= k < |d.children| ensures StateHints(d)[k] == StateHint(RunKey(k), Some(TransitionKey(k))) {
      HintShape(d, k);
    }
    QueueEntryFindsHint(Runs(d)[i], StateHints(d), i);
  }

  lemma QueueEntryFindsHint(r: Run, hints: seq<StateHint>, i: nat)
    requires i < |hints| && r.runKey == RunKey(i)
    requires forall k :: 0 <= k < |hints| ==> hints[k] == StateHint(RunKey(k), Some(TransitionKey(k)))
    ensures QueueEntryFor(r, hints).nextTransitionKey == Some(TransitionKey(i))
  {
    FindUnique(hints, (h: StateHint) => h.runKey == r.runKey, i);
  }

  // The emitted links, read from both ends.

  /** With keys that tell positions apart, a key is listed exactly when its own entry passes the filter. */
  lemma KeysOfFiltered<T(!new)>(s: seq<T>, p: T -> bool, key: T -> Key, i: nat)
    requires i < |s|
    requires forall a, b :: 0 <= a < b < |s| ==> key(s[a]) != key(s[b])
    ensures key(s[i]) in Map(Filter(s, p), key) <==> p(s[i])
  {
    var kept := Filter(s, p);
    if p(s[i]) {
      assert s[i] in kept;
      var m :| 0 <= m < |kept| && kept[m] == s[i];
      assert Map(kept, key)[m] == key(s[i]);
    }
    if key(s[i]) in Map(kept, key) {
      var m :| 0 <= m < |kept| && Map(kept, key)[m] == key(s[i]);
      assert kept[m] in s;
    }
  }

  lemma DispatchLinksChild(d: Draft, i: nat, j: nat)
    requires WellFormed(d) && i < |d.children| && j < |d.approvals|
    ensures ChildKey(i + 1) in ApprovalDispatches(d)[j].linkedChildKeys <==> GatedBy(d, i, j)
  {
    var guarded := (c: ChildRecord) => Guards(d.approvals[j].checkpointKey, c.child);
    KeysOfFiltered(ChildRecords(d), guarded, (c: ChildRecord) => c.contractKey, i);
    ApprovalPositions(d, i, j);
  }

  /** A child and the dispatch of its checkpoint are linked from both ends, and both ways of listing them agree. */
  lemma ChildAndDispatchLinksAgree(d: Draft, i: nat, j: nat)
    requires WellFormed(d) && i < |d.children| && j < |d.approvals|
    ensures ChildKey(i + 1) in ApprovalDispatches(d)[j].linkedChildKeys <==> GatedBy(d, i, j)
    ensures ApprovalKey(j + 1) in Runners(d)[i].linkedDispatchKeys <==> GatedBy(d, i, j)
    ensures Linkages(d)[i].linkedDispatchKeys == Runners(d)[i].linkedDispatchKeys
    ensures Linkages(d)[i].linkedRunnerKey == Some(RunnerKey(i))
  {
    hide WellFormed, GatedBy, ApprovalDispatches, Runners, Linkages;
    DispatchLinksChild(d, i, j);
    RunnerLinksDispatch(d, i, j);
    LinkageListsDispatches(d, i);
    LinkageNamesRunner(d, i);
  }

  lemma RunnerLinksDispatch(d: Draft, i: nat, j: nat)
    requires WellFormed(d) && i < |d.children| && j < |d.approvals|
    ensures ApprovalKey(j + 1) in Runners(d)[i].linkedDispatchKeys <==> GatedBy(d, i, j)
  {
    hide WellFormed, Runners, Gated, GateOf;
    RunnerShape(d, i);
    if Gated(d, i) {
      GateExists(d, i);
    }
  }

  lemma LinkageAt(d: Draft, i: nat)
    requires i < |d.children|
    ensures Linkages(d)[i] == LinkageFor(ChildKey(i + 1), ApprovalDispatches(d), RollbackRecords(d), Runners(d))
  {
    hide LinkageFor, ApprovalDispatches, RollbackRecords, Runners;
  }

  lemma LinkageListsDispatches(d: Draft, i: nat)
    requires WellFormed(d) && i < |d.children|
    ensures Linkages(d)[i].linkedDispatchKeys == Runners(d)[i].linkedDispatchKeys
  {
    hide WellFormed, ApprovalDispatches, RollbackRecords, Runners, Linkages, Gated, GateOf;
    LinkageAt(d, i);
    LinkedDispatches(d, i);
    RunnerShape(d, i);
  }

  lemma LinkageNamesRunner(d: Draft, i: nat)
    requires WellFormed(d) && i < |d.children|
    ensures Linkages(d)[i].linkedRunnerKey == Some(RunnerKey(i))
  {
    hide WellFormed, ApprovalDispatches, RollbackRecords, RunnerFor, LinkageFor, Linkages, ChildRecordAt;
    LinkageAt(d, i);
    forall k | 0 <= k < |d.children|
      ensures Runners(d)[k].contractKey == ChildKey(k + 1) && Runners(d)[k].runnerKey == RunnerKey(k)
    {
      RunnerShape(d, k);
    }
    LinkageFindsRunner(i, ApprovalDispatches(d), RollbackRecords(d), Runners(d));
  }

  lemma LinkedDispatches(d: Draft, i: nat)
    requires WellFormed(d) && i < |d.children|
    ensures Map(Filter(ApprovalDispatches(d), (x: ApprovalDispatch) => ChildKey(i + 1) in x.linkedChildKeys),
                (x: ApprovalDispatch) => x.dispatchKey)
            == if Gated(d, i) then [ApprovalKey(GateOf(d, i) + 1)] else []
  {
    hide WellFormed, Filter;
    var links := (x: ApprovalDispatch) => ChildKey(i + 1) in x.linkedChildKeys;
    forall j | 0 <= j < |d.approvals| ensures links(ApprovalDispatches(d)[j]) <==> GatedBy(d, i, j) {
      DispatchLinksChild(d, i, j);
    }
    if Gated(d, i) {
      GateExists(d, i);
      FilterUnique(ApprovalDispatches(d), links, GateOf(d, i));
    } else {
      FilterNone(ApprovalDispatches(d), links);
    }
  }

  lemma LinkageFindsRunner(i: nat, dispatches: seq<ApprovalDispatch>, rollbacks: seq<RollbackRecord>,
                           runners: seq<Runner>)
    requires i < |runners|
    requires forall k :: 0 <= k < |runners| ==>
               runners[k].contractKey == ChildKey(k + 1) && runners[k].runnerKey == RunnerKey(k)
    ensures LinkageFor(ChildKey(i + 1), dispatches, rollbacks, runners).linkedRunnerKey == Some(RunnerKey(i))
  {
    FindUnique(runners, (r: Runner) => r.contractKey == ChildKey(i + 1), i);
  }

  /** A gated run is listed by exactly one task, its own, and an ungated run by none; runs list the task back. */
  lemma RunAndTaskLinksAgree(d: Draft, i: nat, j: nat)
    requires WellFormed(d) && i < |d.children| && j < |d.approvals|
    ensures Tasks(d)[j].taskKey == TaskKey(j) && Tasks(d)[j].dispatchKey == ApprovalKey(j + 1)
    ensures RunKey(i) in Tasks(d)[j].linkedRunKeys <==> GatedBy(d, i, j)
    ensures TaskKey(j) in Runs(d)[i].approvalTaskKeys <==> GatedBy(d, i, j)
  {
    TaskAt(d, j);
    RunListsTask(d, i, j);
    TaskListsRun(d, i, j);
  }

  lemma TaskAt(d: Draft, j: nat)
    requires j < |d.approvals|
    ensures Tasks(d)[j] == TaskFor(ApprovalDispatches(d)[j], Runs(d))
    ensures ApprovalDispatches(d)[j].dispatchKey == ApprovalKey(j + 1)
  {
  }

  /** Every task starts pending its approval, with the dispatch and the children of its checkpoint. */
  lemma TaskStarts(d: Draft, j: nat)
    requires WellFormed(d) && j < |d.approvals|
    ensures Tasks(d)[j].taskKey == TaskKey(j) && Tasks(d)[j].dispatchKey == ApprovalKey(j + 1)
    ensures Tasks(d)[j].required && Tasks(d)[j].taskStatus == PendingApproval
    ensures Tasks(d)[j].linkedChildKeys == ApprovalDispatches(d)[j].linkedChildKeys
    ensures ApprovalDispatches(d)[j].approval == d.approvals[j]
  {
    TaskAt(d, j);
    assert d.approvals[j] in d.approvals;
  }

  lemma TaskListsRun(d: Draft, i: nat, j: nat)
    requires WellFormed(d) && i < |d.children| && j < |d.approvals|
    ensures RunKey(i) in TaskFor(ApprovalDispatches(d)[j], Runs(d)).linkedRunKeys <==>
            TaskKey(j) in Runs(d)[i].approvalTaskKeys
  {
    hide WellFormed, TaskFor, RunFor, RunnerFor, ChildRecordAt, Actions;
    RunKeys(d);
    TaskListsItsRuns(ApprovalDispatches(d)[j], Runs(d), i);
  }

  lemma RunListsTask(d: Draft, i: nat, j: nat)
    requires WellFormed(d) && i < |d.children| && j < |d.approvals|
    ensures TaskKey(j) in Runs(d)[i].approvalTaskKeys <==> GatedBy(d, i, j)
  {
    RunShape(d, i);
    if Gated(d, i) {
      GateExists(d, i);
    }
  }

  lemma TaskListsItsRuns(x: ApprovalDispatch, runs: seq<Run>, i: nat)
    requires i < |runs| && forall k :: 0 <= k < |runs| ==> runs[k].runKey == RunKey(k)
    ensures RunKey(i) in TaskFor(x, runs).linkedRunKeys <==> TaskOf(x.dispatchKey) in runs[i].approvalTaskKeys
  {
    KeysOfFiltered(runs, (r: Run) => TaskOf(x.dispatchKey) in r.approvalTaskKeys, (r: Run) => r.runKey, i);
  }

  lemma TaskListsOnlyRuns(x: ApprovalDispatch, runs: seq<Run>, key: Key)
    requires forall k :: 0 <= k < |runs| ==> runs[k].runKey == RunKey(k)
    requires key in TaskFor(x, runs).linkedRunKeys
    ensures exists i :: 0 <= i < |runs| && key == RunKey(i)
  {
    var kept := Filter(runs, (r: Run) => TaskOf(x.dispatchKey) in r.approvalTaskKeys);
    var m :| 0 <= m < |kept| && key == kept[m].runKey;
    assert kept[m] in runs;
    var i :| 0 <= i < |runs| && runs[i] == kept[m];
    assert key == RunKey(i);
  }

  /** A task lists nothing but the runs it gates. */
  lemma TaskListsGatedRuns(d: Draft, j: nat, key: Key) returns (i: nat)
    requires WellFormed(d) && j < |d.approvals| && key in Tasks(d)[j].linkedRunKeys
    ensures i < |d.children| && key == RunKey(i) && GatedBy(d, i, j)
  {
    RunKeys(d);
    TaskListsOnlyRuns(ApprovalDispatches(d)[j], Runs(d), key);
    i :| 0 <= i < |d.children| && key == RunKey(i);
    RunAndTaskLinksAgree(d, i, j);
  }

  /** A runner and a rollback link each other, exactly over the rollback's checkpoint and system. */
  lemma RunnerAndRollbackLinksAgree(d: Draft, i: nat, k: nat)
    requires WellFormed(d) && i < |d.children| && k < |d.rollbacks|
    ensures ChildKey(i + 1) in RollbackRecords(d)[k].linkedChildKeys <==>
            Guards(d.rollbacks[k].fromCheckpointKey, d.children[i])
            && d.children[i].systemKey == d.rollbacks[k].targetSystemKey
    ensures RollbackKey(k + 1) in Runners(d)[i].linkedRollbackKeys <==>
            ChildKey(i + 1) in RollbackRecords(d)[k].linkedChildKeys
    ensures Linkages(d)[i].linkedRollbackKeys == Runners(d)[i].linkedRollbackKeys
  {
    hide WellFormed, Linkages, Runners, RollbackRecords, Guards;
    RollbackLinksChild(d, i, k);
    RunnerLinksRollback(d, i, k);
    LinkageListsRollbacks(d, i);
  }

  lemma RunnerLinksRollback(d: Draft, i: nat, k: nat)
    requires WellFormed(d) && i < |d.children| && k < |d.rollbacks|
    ensures RollbackKey(k + 1) in Runners(d)[i].linkedRollbackKeys <==>
            ChildKey(i + 1) in RollbackRecords(d)[k].linkedChildKeys
  {
    hide WellFormed, Runners, RollbackKeysOf, ChildRecords;
    RunnerShape(d, i);
    RollbackKeysOfListed(ChildKey(i + 1), RollbackRecords(d), k);
  }

  lemma LinkageListsRollbacks(d: Draft, i: nat)
    requires WellFormed(d) && i < |d.children|
    ensures Linkages(d)[i].linkedRollbackKeys == Runners(d)[i].linkedRollbackKeys
  {
    hide WellFormed, ApprovalDispatches, RollbackRecords, Runners, Linkages, RollbackKeysOf;
    LinkageAt(d, i);
    RunnerShape(d, i);
  }

  lemma RollbackKeysOfListed(key: Key, rollbacks: seq<RollbackRecord>, k: nat)
    requires k < |rollbacks| && forall m :: 0 <= m < |rollbacks| ==> rollbacks[m].recordKey == RollbackKey(m + 1)
    ensures RollbackKey(k + 1) in RollbackKeysOf(key, rollbacks) <==> key in rollbacks[k].linkedChildKeys
  {
    KeysOfFiltered(rollbacks, (r: RollbackRecord) => key in r.linkedChildKeys, (r: RollbackRecord) => r.recordKey, k);
  }

  lemma RollbackLinksChild(d: Draft, i: nat, k: nat)
    requires WellFormed(d) && i < |d.children| && k < |d.rollbacks|
    ensures ChildKey(i + 1) in RollbackRecords(d)[k].linkedChildKeys <==>
            Guards(d.rollbacks[k].fromCheckpointKey, d.children[i])
            && d.children[i].systemKey == d.rollbacks[k].targetSystemKey
  {
    var rolled := (c: ChildRecord) => c.child.systemKey == d.rollbacks[k].targetSystemKey
                                      && c.child.approvalCheckpointKey == d.rollbacks[k].fromCheckpointKey;
    KeysOfFiltered(ChildRecords(d), rolled, (c: ChildRecord) => c.contractKey, i);
    assert d.children[i] in d.children && d.rollbacks[k] in d.rollbacks;
    var c :| c in d.children && Guards(d.rollbacks[k].fromCheckpointKey, c);
    assert c.approvalCheckpointKey != "";
  }

  /** No task and no rollback is idle: each reaches a child. */
  lemma TasksAndRollbacksReachChildren(d: Draft)
    requires WellFormed(d)
    ensures forall j :: 0 <= j < |d.approvals| ==> Tasks(d)[j].linkedRunKeys != [] && Tasks(d)[j].linkedChildKeys != []
    ensures forall k :: 0 <= k < |d.rollbacks| ==> RollbackRecords(d)[k].linkedChildKeys != []
  {
    forall j | 0 <= j < |d.approvals|
      ensures Tasks(d)[j].linkedRunKeys != [] && Tasks(d)[j].linkedChildKeys != []
    {
      TaskReachesChild(d, j);
    }
    forall k | 0 <= k < |d.rollbacks| ensures RollbackRecords(d)[k].linkedChildKeys != [] {
      RollbackReachesChild(d, k);
    }
  }

  lemma TaskReachesChild(d: Draft, j: nat)
    requires WellFormed(d) && j < |d.approvals|
    ensures Tasks(d)[j].linkedRunKeys != [] && Tasks(d)[j].linkedChildKeys != []
  {
    assert d.approvals[j] in d.approvals;
    var c :| c in d.children && Guards(d.approvals[j].checkpointKey, c);
    var i :| 0 <= i < |d.children| && d.children[i] == c;
    ApprovalPositions(d, i, j);
    RunAndTaskLinksAgree(d, i, j);
    DispatchLinksChild(d, i, j);
  }

  lemma RollbackReachesChild(d: Draft, k: nat)
    requires WellFormed(d) && k < |d.rollbacks|
    ensures RollbackRecords(d)[k].linkedChildKeys != []
  {
    assert d.rollbacks[k] in d.rollbacks;
    var c :| c in d.children && Guards(d.rollbacks[k].fromCheckpointKey, c)
             && c.systemKey == d.rollbacks[k].targetSystemKey;
    var i :| 0 <= i < |d.children| && d.children[i] == c;
    RollbackLinksChild(d, i, k);
  }

  /** An escalation is routed to exactly one dispatch, and away from the role that holds it. */
  lemma EscalationReachesOneDispatch(d: Draft, e: nat) returns (j: nat)
    requires WellFormed(d) && e < |d.escalations|
    ensures j < |d.approvals| && EscalationRecords(d)[e].linkedDispatchKeys == [ApprovalKey(j + 1)]
    ensures d.approvals[j].checkpointKey == d.escalations[e].fromCheckpointKey
    ensures d.approvals[j].approverRole != d.escalations[e].targetRole
  {
    hide WellFormed, EscalationRecords;
    j := EscalationSource(d, e);
    EscalationRoutedOnce(d, e, j);
  }

  lemma EscalationRoutedOnce(d: Draft, e: nat, j: nat)
    requires Distinct(d.approvals, Checkpoint) && e < |d.escalations| && j < |d.approvals|
    requires d.approvals[j].checkpointKey == d.escalations[e].fromCheckpointKey
    ensures EscalationRecords(d)[e].linkedDispatchKeys == [ApprovalKey(j + 1)]
  {
    hide ChildRecords;
    var routed := (x: ApprovalDispatch) => x.approval.checkpointKey == d.escalations[e].fromCheckpointKey;
    forall j' | 0 <= j' < |d.approvals| && j' != j ensures !routed(ApprovalDispatches(d)[j']) {
      assert Checkpoint(d.approvals[j']) != Checkpoint(d.approvals[j]);
    }
    FilterUnique(ApprovalDispatches(d), routed, j);
  }

  lemma EscalationSource(d: Draft, e: nat) returns (j: nat)
    requires WellFormed(d) && e < |d.escalations|
    ensures j < |d.approvals| && d.approvals[j].checkpointKey == d.escalations[e].fromCheckpointKey
    ensures d.approvals[j].approverRole != d.escalations[e].targetRole && Distinct(d.approvals, Checkpoint)
  {
    assert d.escalations[e] in d.escalations;
    var a :| a in d.approvals && a.checkpointKey == d.escalations[e].fromCheckpointKey
             && a.approverRole != d.escalations[e].targetRole;
    j :| 0 <= j < |d.approvals| && d.approvals[j] == a;
  }
}
