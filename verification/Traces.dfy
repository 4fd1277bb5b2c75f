/**
 Whole runs of activations, decisions and dispatches, with re-activations and silently failing reads and writes.
 The three slots hold the last persisted step of each kind, and that alone decides what every later step sees:
 the acceptance of a step is characterised exactly in terms of the run's history, and the guarantees follow.
 */
module Traces {
  import opened Wrappers
  import opened Lists
  import opened Contracts
  import opened Validation
  import opened Topology
  import opened Mutations
  import opened Effects
  import opened Plans
  import opened History
  import opened Runtime

  function TypeOf(s: Step): SnapshotType {
    match s
    case Activate(_, _) => MaterializedRuntime
    case Decide(_, _, _, _, _, _, _) => ApprovalDecision
    case Dispatch(_, _, _, _, _) => RunDispatch
  }

  function EventOf(s: Step): Event {
    match s
    case Activate(_, _) => Activated
    case Decide(_, taskKey, decision, _, _, _, _) => Decided(taskKey, decision)
    case Dispatch(_, runKey, _, _, _) => RunDispatched(runKey)
  }

  /** Step n of the run is accepted. */
  predicate Accepted(p: Plan, run: seq<Step>, n: nat)
    requires n < |run|
  {
    Attempt(p, Exec(p, run[..n]), run[n]).Success?
  }

  /** Step n of the run is accepted and its snapshot reaches the store. */
  predicate Persisted(p: Plan, run: seq<Step>, n: nat)
    requires n < |run|
  {
    Accepted(p, run, n) && run[n].writeSucceeds
  }

  /** The last persisted step of a kind, or -1. */
  function LastOf(p: Plan, run: seq<Step>, kind: SnapshotType): (r: int)
    ensures -1 <= r < |run|
    ensures r >= 0 ==> TypeOf(run[r]) == kind
  {
    if run == [] then -1
    else if TypeOf(run[|run| - 1]) == kind && Persisted(p, run, |run| - 1) then |run| - 1
    else LastOf(p, run[..|run| - 1], kind)
  }

  lemma {:induction false} LastOfIsLast(p: Plan, run: seq<Step>, kind: SnapshotType)
    ensures var r := LastOf(p, run, kind);
            && (r >= 0 ==> Persisted(p, run, r))
            && forall m :: r < m < |run| && TypeOf(run[m]) == kind ==> !Persisted(p, run, m)
  {
    hide Attempt;
    if run != [] {
      var n := |run| - 1;
      LastOfIsLast(p, run[..n], kind);
      forall m | 0 <= m < n ensures Persisted(p, run[..n], m) <==> Persisted(p, run, m) {
        PersistedInPrefix(p, run, n, m);
      }
    }
  }

  /** Earlier steps have the same fate in a prefix of the run. */
  lemma PersistedInPrefix(p: Plan, run: seq<Step>, n: nat, m: nat)
    requires m < n <= |run|
    ensures Persisted(p, run[..n], m) <==> Persisted(p, run, m)
  {
    hide Attempt;
    assert run[..n][..m] == run[..m];
  }

  lemma LastBefore(p: Plan, run: seq<Step>, n: nat, kind: SnapshotType)
    requires n <= |run|
    ensures var r := LastOf(p, run[..n], kind);
            && (r >= 0 ==> Persisted(p, run, r))
            && forall m :: r < m < n && TypeOf(run[m]) == kind ==> !Persisted(p, run, m)
  {
    hide Attempt;
    LastOfIsLast(p, run[..n], kind);
    forall m | 0 <= m < n ensures Persisted(p, run[..n], m) <==> Persisted(p, run, m) {
      PersistedInPrefix(p, run, n, m);
    }
  }

  // What an accepted step writes.

  /** The snapshot of an accepted step says what its event says. */
  ghost predicate Reports(p: Plan, snapshot: Snapshot, s: Step) {
    && snapshot.snapshotType == TypeOf(s) && snapshot.recordedAt == s.at && snapshot.event == EventOf(s)
    && Faithful(p.contract, snapshot.mutations, EventOf(s))
  }

  lemma AcceptedStepReports(p: Plan, slots: Slots, s: Step)
    requires Sound(p) && Attempt(p, slots, s).Success?
    ensures Reports(p, Attempt(p, slots, s).value, s)
  {
    hide Reports, DecideTask, DispatchRun;
    match s
    case Activate(at, _) => AcceptedActivationReports(p, slots, s);
    case Decide(_, taskKey, decision, _, _, _, _) =>
      var j := TaskFound(p, taskKey);
      AcceptedDecisionReports(p, slots, s, j);
    case Dispatch(_, runKey, _, _, _) =>
      var i := RunFound(p, runKey);
      AcceptedDispatchReports(p, slots, s, i);
  }

  lemma AcceptedActivationReports(p: Plan, slots: Slots, s: Step)
    requires Sound(p) && s.Activate?
    ensures AttemptActivation(p, s.at).Success? && Reports(p, AttemptActivation(p, s.at).value, s)
  {
    hide Faithful, ActivationMutations;
    ActivationIsFaithful(p.contract, p.approvals, p.integrations);
  }

  lemma AcceptedDecisionReports(p: Plan, slots: Slots, s: Step, j: nat)
    requires Sound(p) && s.Decide? && j < |p.tasks| && s.taskKey == TaskKey(j)
    requires DecideTask(p, slots, s, p.tasks[j]).Success?
    ensures Reports(p, DecideTask(p, slots, s, p.tasks[j]).value, s)
  {
    hide Faithful, DecisionMutations, TaskShaped, Visible;
    var task := p.tasks[j];
    assert TaskSound(p.contract, task, j);
    TaskIsFound(p, j);
    var status := See(slots, Target(TaskTarget, task.taskKey), s.readsTask).GetOr(InitialTaskStatus(task));
    var dispatchSeen := See(slots, Target(DispatchTarget, task.dispatchKey), s.readsDispatch);
    DecisionIsFaithful(p.contract, p.integrations, task, j, s.decision, status, dispatchSeen.GetOr(Dispatched),
                       SeenIn(slots, s.readsRuns));
  }

  lemma AcceptedDispatchReports(p: Plan, slots: Slots, s: Step, i: nat)
    requires Sound(p) && s.Dispatch? && i < |p.queue| && s.runKey == RunKey(i)
    requires DispatchRun(p, slots, s, p.queue[i]).Success?
    ensures Reports(p, DispatchRun(p, slots, s, p.queue[i]).value, s)
  {
    hide Faithful, DispatchMutations, Visible, ActionKeyOf;
    RunIsFound(p, i);
    ActionKeyIsFound(p, i);
    DispatchIsFaithful(p.contract, p.queue[i], i, See(slots, Target(RunTarget, s.runKey), s.readsRun),
                       SeenIn(slots, s.readsParts));
  }

  // The slots mirror the run.

  /** Each slot holds the report of the last persisted step of its kind. */
  ghost predicate Mirrors(p: Plan, run: seq<Step>, slots: Slots) {
    forall kind :: (kind in slots <==> LastOf(p, run, kind) >= 0)
                   && (kind in slots ==> Reports(p, slots[kind], run[LastOf(p, run, kind)]))
  }

  lemma {:induction false} SlotsMirrorTheRun(p: Plan, run: seq<Step>)
    requires Sound(p)
    ensures Mirrors(p, run, Exec(p, run))
  {
    hide Attempt, Reports, Sound;
    if run != [] {
      var n := |run| - 1;
      SlotsMirrorTheRun(p, run[..n]);
      MirrorsOneStep(p, run, n);
    }
  }

  /** A persisted step puts its report in its own slot; any other step changes no slot and no last index. */
  lemma MirrorsOneStep(p: Plan, run: seq<Step>, n: nat)
    requires Sound(p) && |run| == n + 1 && Mirrors(p, run[..n], Exec(p, run[..n]))
    ensures Mirrors(p, run, Next(p, Exec(p, run[..n]), run[n]))
  {
    hide Attempt, Reports, Sound, Exec;
    var slots := Exec(p, run[..n]);
    if Persisted(p, run, n) {
      AcceptedStepReports(p, slots, run[n]);
      ReportsTime(p, Attempt(p, slots, run[n]).value, run[n]);
    }
  }

  // What is visible after a run.

  function Latest2(a: int, b: int): int { if a < b then b else a }

  /** The last persisted decision if it was on task j, else -1. */
  function DecisionOn(p: Plan, run: seq<Step>, j: int): int {
    var r := LastOf(p, run, ApprovalDecision);
    if r >= 0 && j >= 0 && run[r].taskKey == TaskKey(j) then r else -1
  }

  /** The last persisted dispatch if it was of run i, else -1. */
  function DispatchOf(p: Plan, run: seq<Step>, i: nat): int {
    var r := LastOf(p, run, RunDispatch);
    if r >= 0 && run[r].runKey == RunKey(i) then r else -1
  }

  function ActivationIn(p: Plan, run: seq<Step>): int { LastOf(p, run, MaterializedRuntime) }

  /** The step that has the last word on the parts of child i. */
  function LastWordOnRun(p: Plan, run: seq<Step>, i: nat): int
    requires i < |p.contract.children|
  {
    var decided := if Gated(p.contract, i) then DecisionOn(p, run, GateOf(p.contract, i)) else -1;
    Latest2(Latest2(ActivationIn(p, run), decided), DispatchOf(p, run, i))
  }

  /** The step that has the last word on the ends of approval j. */
  function LastWordOnTask(p: Plan, run: seq<Step>, j: nat): int {
    Latest2(ActivationIn(p, run), DecisionOn(p, run, j))
  }

  lemma SlotSpeaks(p: Plan, run: seq<Step>, kind: SnapshotType, t: Target)
    requires Sound(p)
    ensures Speaks(Exec(p, run), kind, t) ==> LastOf(p, run, kind) >= 0
    ensures LastOf(p, run, kind) >= 0 ==>
              kind in Exec(p, run) && Reports(p, Exec(p, run)[kind], run[LastOf(p, run, kind)])
  {
    SlotsMirrorTheRun(p, run);
  }

  lemma ReportsTime(p: Plan, snapshot: Snapshot, s: Step)
    requires Reports(p, snapshot, s)
    ensures snapshot.recordedAt == s.at && snapshot.snapshotType == TypeOf(s)
  {
  }

  lemma LastWordIsVisible(p: Plan, run: seq<Step>, t: Target, w: int, said: Option<Status>)
    requires Sound(p) && Increasing(run) && 0 <= w < |run|
    requires w == LastOf(p, run, TypeOf(run[w])) && said.Some?
    requires forall snapshot :: Reports(p, snapshot, run[w]) ==> StatusIn(snapshot.mutations, t) == said
    requires forall kind :: Speaks(Exec(p, run), kind, t) ==> LastOf(p, run, kind) <= w
    ensures Visible(Exec(p, run), t) == said
  {
    hide Attempt, Exec, Reports, LastOf, Visible, StatusIn;
    var slots := Exec(p, run);
    var last := TypeOf(run[w]);
    SlotSpeaks(p, run, last, t);
    ReportsTime(p, slots[last], run[w]);
    forall kind | kind != last && Speaks(slots, kind, t) ensures slots[kind].recordedAt < slots[last].recordedAt {
      SlotSpeaks(p, run, kind, t);
      ReportsTime(p, slots[kind], run[LastOf(p, run, kind)]);
    }
    VisibleIsNewest(slots, last, t);
  }

  /** Every part of every child shows what the last step to speak of it said. */
  lemma VisiblePart(p: Plan, run: seq<Step>, i: nat, kind: TargetType)
    requires Sound(p) && Increasing(run) && i < |p.contract.children| && IsPart(kind)
    ensures Visible(Exec(p, run), Part(i, kind)) ==
            var w := LastWordOnRun(p, run, i); if w < 0 then None else PartSays(p.contract, EventOf(run[w]), i, kind)
  {
    hide Attempt, Exec, Reports, LastOf, Visible, PartSays, Sound, Part, Increasing;
    var t := Part(i, kind);
    var w := LastWordOnRun(p, run, i);
    forall k ensures Speaks(Exec(p, run), k, t) ==> 0 <= LastOf(p, run, k) <= w {
      SlotSpeaks(p, run, k, t);
      if Speaks(Exec(p, run), k, t) {
        SpeaksOfPart(p, Exec(p, run)[k], run[LastOf(p, run, k)], i, kind);
      }
    }
    if w < 0 {
      VisibleNowhere(Exec(p, run), t);
    } else {
      LastWordSpeaks(p, run, i, kind);
      forall snapshot | Reports(p, snapshot, run[w])
        ensures StatusIn(snapshot.mutations, t) == PartSays(p.contract, EventOf(run[w]), i, kind)
      {
        ReportsSayPart(p, snapshot, run[w], i, kind);
      }
      LastWordIsVisible(p, run, t, w, PartSays(p.contract, EventOf(run[w]), i, kind));
    }
  }

  lemma ReportsSayPart(p: Plan, snapshot: Snapshot, s: Step, i: nat, kind: TargetType)
    requires Reports(p, snapshot, s) && i < |p.contract.children| && IsPart(kind)
    ensures StatusIn(snapshot.mutations, Part(i, kind)) == PartSays(p.contract, EventOf(s), i, kind)
  {
    hide PartSays, StatusIn, Part, IsPart;
  }

  /** The last word on a run says something about each of its parts. */
  lemma LastWordSpeaks(p: Plan, run: seq<Step>, i: nat, kind: TargetType)
    requires Sound(p) && i < |p.contract.children| && IsPart(kind)
    ensures var w := LastWordOnRun(p, run, i); w >= 0 ==> PartSays(p.contract, EventOf(run[w]), i, kind).Some?
  {
    hide Attempt, Exec, LastOf, Sound;
  }

  lemma SpeaksOfPart(p: Plan, snapshot: Snapshot, s: Step, i: nat, kind: TargetType)
    requires Reports(p, snapshot, s) && i < |p.contract.children| && IsPart(kind)
    requires StatusIn(snapshot.mutations, Part(i, kind)).Some?
    ensures s.Decide? ==>
              Gated(p.contract, i) && GateOf(p.contract, i) >= 0 && s.taskKey == TaskKey(GateOf(p.contract, i))
    ensures s.Dispatch? ==> s.runKey == RunKey(i)
  {
    hide Reports, StatusIn;
    ReportsSayPart(p, snapshot, s, i, kind);
  }

  /** Every task and every approval dispatch shows what the last step to speak of it said. */
  lemma VisibleEnd(p: Plan, run: seq<Step>, j: nat, kind: TargetType)
    requires Sound(p) && Increasing(run) && j < |p.contract.approvals| && !IsPart(kind)
    ensures Visible(Exec(p, run), End(j, kind)) ==
            var w := LastWordOnTask(p, run, j); if w < 0 then None else EndSays(EventOf(run[w]), j, kind)
  {
    hide Attempt, Exec, Reports, LastOf, Visible, Sound, End, Increasing;
    var t := End(j, kind);
    var w := LastWordOnTask(p, run, j);
    forall k ensures Speaks(Exec(p, run), k, t) ==> 0 <= LastOf(p, run, k) <= w {
      SlotSpeaks(p, run, k, t);
      if Speaks(Exec(p, run), k, t) {
        SpeaksOfEnd(p, Exec(p, run)[k], run[LastOf(p, run, k)], j, kind);
      }
    }
    if w < 0 {
      VisibleNowhere(Exec(p, run), t);
    } else {
      forall snapshot | Reports(p, snapshot, run[w])
        ensures StatusIn(snapshot.mutations, t) == EndSays(EventOf(run[w]), j, kind)
      {
        ReportsSayEnd(p, snapshot, run[w], j, kind);
      }
      LastWordIsVisible(p, run, t, w, EndSays(EventOf(run[w]), j, kind));
    }
  }

  lemma ReportsSayEnd(p: Plan, snapshot: Snapshot, s: Step, j: nat, kind: TargetType)
    requires Reports(p, snapshot, s) && j < |p.contract.approvals| && !IsPart(kind)
    ensures StatusIn(snapshot.mutations, End(j, kind)) == EndSays(EventOf(s), j, kind)
  {
    hide EndSays, StatusIn, End, IsPart;
  }

  lemma SpeaksOfEnd(p: Plan, snapshot: Snapshot, s: Step, j: nat, kind: TargetType)
    requires Reports(p, snapshot, s) && j < |p.contract.approvals| && !IsPart(kind)
    requires StatusIn(snapshot.mutations, End(j, kind)).Some?
    ensures s.Decide? ==> s.taskKey == TaskKey(j)
    ensures !s.Dispatch?
  {
    hide Reports, StatusIn;
    ReportsSayEnd(p, snapshot, s, j, kind);
  }

  // What each persisted step leaves to be seen, in so many words.

  /** The run of child i and its three parts show the given statuses. */
  ghost predicate Shows(slots: Slots, i: nat, run: Status, runner: Status, action: Status, transition: Status) {
    && Visible(slots, Target(RunTarget, RunKey(i))) == Some(run)
    && Visible(slots, Target(RunnerTarget, RunnerKey(i))) == Some(runner)
    && Visible(slots, Target(ActionTarget, ActionKey(i + 1))) == Some(action)
    && Visible(slots, Target(TransitionTarget, TransitionKey(i))) == Some(transition)
  }

  /** Task j and the dispatch of its approval show the given statuses. */
  ghost predicate EndsShow(slots: Slots, j: nat, task: Status, dispatch: Status) {
    && Visible(slots, Target(TaskTarget, TaskKey(j))) == Some(task)
    && Visible(slots, Target(DispatchTarget, ApprovalKey(j + 1))) == Some(dispatch)
  }

  /**
   After a persisted decision its task and dispatch show it, and every run the task gates is free or cancelled with all
   its parts.
   */
  lemma DecisionShows(p: Plan, run: seq<Step>, n: nat, j: nat)
    requires Sound(p) && Increasing(run) && |run| == n + 1 && run[n].Decide? && Persisted(p, run, n)
    requires j < |p.contract.approvals| && run[n].taskKey == TaskKey(j)
    ensures run[n].decision == Approve ==> EndsShow(Exec(p, run), j, Status.Approved, Status.Approved)
    ensures run[n].decision == Reject ==> EndsShow(Exec(p, run), j, Rejected, Rejected)
    ensures run[n].decision == RequestChanges ==> EndsShow(Exec(p, run), j, ChangesRequested, ChangesRequested)
    ensures forall i :: 0 <= i < |p.contract.children| && GatedBy(p.contract, i, j) ==>
              if run[n].decision == Approve then Shows(Exec(p, run), i, QueuedForDispatch, Pending, Pending, Pending)
              else Shows(Exec(p, run), i, Cancelled, Cancelled, Cancelled, Cancelled)
  {
    hide Attempt, Exec, Visible, Sound, Increasing, PartSays, EndSays;
    LastStepIsLast(p, run, n);
    VisibleEnd(p, run, j, TaskTarget);
    VisibleEnd(p, run, j, DispatchTarget);
    DecidedEndsSay(j, run[n].decision);
    forall i | 0 <= i < |p.contract.children| && GatedBy(p.contract, i, j)
      ensures if run[n].decision == Approve then Shows(Exec(p, run), i, QueuedForDispatch, Pending, Pending, Pending)
              else Shows(Exec(p, run), i, Cancelled, Cancelled, Cancelled, Cancelled)
    {
      PartsAreVisible(p, run, i);
      DecidedPartsSay(p.contract, i, j, run[n].decision);
    }
  }

  /** After a persisted activation every task awaits its decision, gated runs wait and the others are dispatched. */
  lemma ActivationShows(p: Plan, run: seq<Step>, n: nat)
    requires Sound(p) && Increasing(run) && |run| == n + 1 && run[n].Activate? && Persisted(p, run, n)
    ensures forall j :: 0 <= j < |p.contract.approvals| ==> EndsShow(Exec(p, run), j, AwaitingDecision, Dispatched)
    ensures forall i :: 0 <= i < |p.contract.children| ==>
              if p.contract.children[i].approvalRequired then
                Shows(Exec(p, run), i, AwaitingApproval, Pending, AwaitingApprovalDecision, AwaitingApprovalDecision)
              else Shows(Exec(p, run), i, Dispatched, Dispatched, Dispatched, Applied)
  {
    hide Attempt, Exec, Visible, Sound, Increasing, PartSays, EndSays;
    LastStepIsLast(p, run, n);
    forall j | 0 <= j < |p.contract.approvals| ensures EndsShow(Exec(p, run), j, AwaitingDecision, Dispatched) {
      VisibleEnd(p, run, j, TaskTarget);
      VisibleEnd(p, run, j, DispatchTarget);
      ActivatedEndsSay(j);
    }
    forall i | 0 <= i < |p.contract.children|
      ensures if p.contract.children[i].approvalRequired then
                Shows(Exec(p, run), i, AwaitingApproval, Pending, AwaitingApprovalDecision, AwaitingApprovalDecision)
              else Shows(Exec(p, run), i, Dispatched, Dispatched, Dispatched, Applied)
    {
      PartsAreVisible(p, run, i);
      ActivatedPartsSay(p.contract, i);
    }
  }

  /** After a persisted dispatch the run and its runner are dispatched, its action and transition completed. */
  lemma DispatchShows(p: Plan, run: seq<Step>, n: nat, i: nat)
    requires Sound(p) && Increasing(run) && |run| == n + 1 && run[n].Dispatch? && Persisted(p, run, n)
    requires i < |p.contract.children| && run[n].runKey == RunKey(i)
    ensures Shows(Exec(p, run), i, Dispatched, Dispatched, Completed, Completed)
  {
    hide Attempt, Exec, Visible, Sound, Increasing, PartSays, EndSays;
    LastStepIsLast(p, run, n);
    PartsAreVisible(p, run, i);
    DispatchedPartsSay(p.contract, i);
  }

  /** The last step, once persisted, has the last word on everything it speaks of. */
  lemma LastStepIsLast(p: Plan, run: seq<Step>, n: nat)
    requires |run| == n + 1 && Persisted(p, run, n)
    ensures LastOf(p, run, TypeOf(run[n])) == n
  {
    hide Attempt, Exec;
  }

  lemma PartsAreVisible(p: Plan, run: seq<Step>, i: nat)
    requires Sound(p) && Increasing(run) && i < |p.contract.children| && LastWordOnRun(p, run, i) >= 0
    ensures var w := LastWordOnRun(p, run, i); var e := EventOf(run[w]); var slots := Exec(p, run);
            && Visible(slots, Target(RunTarget, RunKey(i))) == PartSays(p.contract, e, i, RunTarget)
            && Visible(slots, Target(RunnerTarget, RunnerKey(i))) == PartSays(p.contract, e, i, RunnerTarget)
            && Visible(slots, Target(ActionTarget, ActionKey(i + 1))) == PartSays(p.contract, e, i, ActionTarget)
            && Visible(slots, Target(TransitionTarget, TransitionKey(i))) ==
               PartSays(p.contract, e, i, TransitionTarget)
  {
    hide Exec, Visible, Sound, Increasing, PartSays, LastWordOnRun;
    VisiblePart(p, run, i, RunTarget);
    VisiblePart(p, run, i, RunnerTarget);
    VisiblePart(p, run, i, ActionTarget);
    VisiblePart(p, run, i, TransitionTarget);
  }

  lemma DecidedEndsSay(j: nat, decision: Decision)
    ensures forall kind :: !IsPart(kind) ==>
              EndSays(Decided(TaskKey(j), decision), j, kind) ==
              Some(match decision case Approve => Status.Approved case Reject => Rejected
                                  case RequestChanges => ChangesRequested)
  {
  }

  lemma DecidedPartsSay(d: Draft, i: nat, j: nat, decision: Decision)
    requires GatedBy(d, i, j)
    ensures forall kind :: IsPart(kind) ==>
              PartSays(d, Decided(TaskKey(j), decision), i, kind) ==
              Some(if decision != Approve then Cancelled else if kind == RunTarget then QueuedForDispatch else Pending)
  {
  }

  lemma ActivatedEndsSay(j: nat)
    ensures EndSays(Activated, j, TaskTarget) == Some(AwaitingDecision)
    ensures EndSays(Activated, j, DispatchTarget) == Some(Dispatched)
  {
  }

  lemma ActivatedPartsSay(d: Draft, i: nat)
    requires i < |d.children|
    ensures var gated := d.children[i].approvalRequired;
            && PartSays(d, Activated, i, RunTarget) == Some(if gated then AwaitingApproval else Dispatched)
            && PartSays(d, Activated, i, RunnerTarget) == Some(if gated then Pending else Dispatched)
            && PartSays(d, Activated, i, ActionTarget) == Some(if gated then AwaitingApprovalDecision else Dispatched)
            && PartSays(d, Activated, i, TransitionTarget) == Some(if gated then AwaitingApprovalDecision else Applied)
  {
  }

  lemma DispatchedPartsSay(d: Draft, i: nat)
    requires i < |d.children|
    ensures PartSays(d, RunDispatched(RunKey(i)), i, RunTarget) == Some(Dispatched)
    ensures PartSays(d, RunDispatched(RunKey(i)), i, RunnerTarget) == Some(Dispatched)
    ensures PartSays(d, RunDispatched(RunKey(i)), i, ActionTarget) == Some(Completed)
    ensures PartSays(d, RunDispatched(RunKey(i)), i, TransitionTarget) == Some(Completed)
  {
  }

  // Acceptance, exactly.

  /** A decision on task j is refused exactly when its read shows that j was decided since the last activation. */
  lemma DecisionAcceptedIff(p: Plan, run: seq<Step>, s: Step, j: nat)
    requires Sound(p) && Increasing(run) && s.Decide? && j < |p.contract.approvals| && s.taskKey == TaskKey(j)
    ensures Attempt(p, Exec(p, run), s).Success? <==>
            !s.readsTask || DecisionOn(p, run, j) <= ActivationIn(p, run)
  {
    hide Attempt, Sound, Visible, Exec, LastOf;
    SoundVerdict(p);
    TaskIsFound(p, j);
    VisibleEnd(p, run, j, TaskTarget);
    DecisionVerdict(p, Exec(p, run), s, j, p.tasks[j]);
  }

  lemma SoundVerdict(p: Plan)
    requires Sound(p)
    ensures p.verdict.None? && |p.tasks| == |p.contract.approvals| && |p.queue| == |p.contract.children|
  {
  }

  lemma DecisionVerdict(p: Plan, slots: Slots, s: Step, j: nat, task: Task)
    requires p.verdict.None? && s.Decide? && s.taskKey == TaskKey(j)
    requires Find(p.tasks, (t: Task) => t.taskKey == TaskKey(j)) == Some(task)
    requires task.taskKey == TaskKey(j) && InitialTaskStatus(task) == AwaitingDecision
    ensures Attempt(p, slots, s).Success? <==>
            See(slots, End(j, TaskTarget), s.readsTask).GetOr(AwaitingDecision) == AwaitingDecision
  {
    hide Find, DecideTask, InitialTaskStatus, Visible;
    assert AttemptDecision(p, slots, s) == DecideTask(p, slots, s, task);
    TaskVerdict(p, slots, s, j, task);
  }

  lemma TaskVerdict(p: Plan, slots: Slots, s: Step, j: nat, task: Task)
    requires s.Decide? && task.taskKey == TaskKey(j) && InitialTaskStatus(task) == AwaitingDecision
    ensures DecideTask(p, slots, s, task).Success? <==>
            See(slots, End(j, TaskTarget), s.readsTask).GetOr(AwaitingDecision) == AwaitingDecision
  {
    hide Visible, DecisionMutations, SeenIn;
  }

  /** The gate of run i stands open: its task's approval is the last word on it. */
  predicate GateOpen(p: Plan, run: seq<Step>, i: nat)
    requires i < |p.contract.children|
  {
    var k := DecisionOn(p, run, GateOf(p.contract, i));
    && Gated(p.contract, i) && k >= 0 && run[k].decision == Approve
    && ActivationIn(p, run) < k && DispatchOf(p, run, i) < k
  }

  /**
   A gated run is accepted for dispatch exactly when the read succeeds and its gate stands open. An ungated run is
   accepted exactly when the read fails or neither an activation nor its own dispatch is visible.
   */
  lemma DispatchAcceptedIff(p: Plan, run: seq<Step>, s: Step, i: nat)
    requires Sound(p) && Increasing(run) && s.Dispatch? && i < |p.contract.children| && s.runKey == RunKey(i)
    ensures Attempt(p, Exec(p, run), s).Success? <==>
            if Gated(p.contract, i) then s.readsRun && GateOpen(p, run, i)
            else !s.readsRun || (ActivationIn(p, run) < 0 && DispatchOf(p, run, i) < 0)
  {
    hide Attempt, Sound, Visible, Exec, LastOf;
    SoundVerdict(p);
    RunIsFound(p, i);
    VisiblePart(p, run, i, RunTarget);
    DispatchVerdict(p, Exec(p, run), s, i, p.queue[i]);
    LastWordCases(p, run, i);
  }

  lemma DispatchVerdict(p: Plan, slots: Slots, s: Step, i: nat, q: QueueEntry)
    requires p.verdict.None? && s.Dispatch? && i < |p.contract.children| && s.runKey == RunKey(i)
    requires Find(p.queue, (q: QueueEntry) => q.runKey == RunKey(i)) == Some(q)
    requires q.readiness == if Gated(p.contract, i) then BlockedByApproval else Dispatchable
    ensures Attempt(p, slots, s).Success? <==>
            var seen := See(slots, Part(i, RunTarget), s.readsRun);
            seen == Some(QueuedForDispatch) || (seen == None && !Gated(p.contract, i))
  {
    hide Find, DispatchRun, Visible, Gated;
    assert AttemptDispatch(p, slots, s) == DispatchRun(p, slots, s, q);
    QueueVerdict(p, slots, s, i, q);
  }

  lemma QueueVerdict(p: Plan, slots: Slots, s: Step, i: nat, q: QueueEntry)
    requires s.Dispatch? && i < |p.contract.children| && s.runKey == RunKey(i)
    requires q.readiness == if Gated(p.contract, i) then BlockedByApproval else Dispatchable
    ensures DispatchRun(p, slots, s, q).Success? <==>
            var seen := See(slots, Part(i, RunTarget), s.readsRun);
            seen == Some(QueuedForDispatch) || (seen == None && !Gated(p.contract, i))
  {
    hide Visible, DispatchMutations, ActionKeyOf, SeenIn, Gated;
  }

  /** What a refused decision answers: the task is unknown, or in the status that was read. */
  lemma DecisionRefusalIs(p: Plan, slots: Slots, s: Step)
    requires Sound(p) && s.Decide? && Attempt(p, slots, s).Failure?
    ensures var e := Attempt(p, slots, s).error;
            var seen := See(slots, Target(TaskTarget, s.taskKey), s.readsTask);
            && (e == UnknownTask <==> forall j: nat :: j < |p.contract.approvals| ==> s.taskKey != TaskKey(j))
            && (e != UnknownTask ==>
                  seen.Some? && seen.value != AwaitingDecision && e == NotAwaitingDecision(seen.value))
  {
    hide Sound, Visible, DecideTask, Find;
    SoundVerdict(p);
    if j: nat :| j < |p.contract.approvals| && s.taskKey == TaskKey(j) {
      TaskIsFound(p, j);
      TaskRefusalIs(p, slots, s, p.tasks[j]);
    } else {
      UnknownTaskIsMissing(p, s.taskKey);
    }
  }

  lemma UnknownTaskIsMissing(p: Plan, taskKey: Key)
    requires Sound(p) && forall j: nat :: j < |p.contract.approvals| ==> taskKey != TaskKey(j)
    ensures Find(p.tasks, (t: Task) => t.taskKey == taskKey) == None
  {
    forall task | task in p.tasks ensures task.taskKey != taskKey {
      var j: nat :| j < |p.tasks| && p.tasks[j] == task;
      assert TaskSound(p.contract, p.tasks[j], j);
    }
  }

  lemma TaskRefusalIs(p: Plan, slots: Slots, s: Step, task: Task)
    requires s.Decide? && DecideTask(p, slots, s, task).Failure? && InitialTaskStatus(task) == AwaitingDecision
    ensures var seen := See(slots, Target(TaskTarget, task.taskKey), s.readsTask);
            && seen.Some? && seen.value != AwaitingDecision
            && DecideTask(p, slots, s, task).error == NotAwaitingDecision(seen.value)
  {
    hide Visible, DecisionMutations, SeenIn;
  }

  /**
   What a refused dispatch answers: the run is unknown, or in the status that was read if that is another than queued,
   or waits for an approval of which nothing was read.
   */
  lemma DispatchRefusalIs(p: Plan, slots: Slots, s: Step)
    requires Sound(p) && s.Dispatch? && Attempt(p, slots, s).Failure?
    ensures var e := Attempt(p, slots, s).error;
            var seen := See(slots, Target(RunTarget, s.runKey), s.readsRun);
            && (e == UnknownRun <==> forall i: nat :: i < |p.contract.children| ==> s.runKey != RunKey(i))
            && (e != UnknownRun ==> e == if seen.Some? then RunInStatus(seen.value) else RunNotReady(BlockedByApproval))
            && (e != UnknownRun && seen.Some? ==> seen.value != QueuedForDispatch)
  {
    hide Sound, Visible, DispatchRun, Find;
    SoundVerdict(p);
    if i: nat :| i < |p.contract.children| && s.runKey == RunKey(i) {
      RunIsFound(p, i);
      RunRefusalIs(p, slots, s, p.queue[i]);
    } else {
      UnknownRunIsMissing(p, s.runKey);
    }
  }

  lemma UnknownRunIsMissing(p: Plan, runKey: Key)
    requires Sound(p) && forall i: nat :: i < |p.contract.children| ==> runKey != RunKey(i)
    ensures Find(p.queue, (q: QueueEntry) => q.runKey == runKey) == None
  {
    forall q | q in p.queue ensures q.runKey != runKey {
      var i: nat :| i < |p.queue| && p.queue[i] == q;
    }
  }

  lemma RunRefusalIs(p: Plan, slots: Slots, s: Step, q: QueueEntry)
    requires s.Dispatch? && DispatchRun(p, slots, s, q).Failure? && q.readiness != BlockedByBinding
    ensures var seen := See(slots, Target(RunTarget, s.runKey), s.readsRun);
            && DispatchRun(p, slots, s, q).error ==
               (if seen.Some? then RunInStatus(seen.value) else RunNotReady(BlockedByApproval))
            && (seen.Some? ==> seen.value != QueuedForDispatch)
  {
    hide Visible, DispatchMutations, ActionKeyOf, SeenIn;
  }

  lemma LastWordCases(p: Plan, run: seq<Step>, i: nat)
    requires i < |p.contract.children|
    ensures var w := LastWordOnRun(p, run, i);
            w >= 0 ==>
              && (run[w].Activate? ==> w == ActivationIn(p, run))
              && (run[w].Decide? ==> w == DecisionOn(p, run, GateOf(p.contract, i)) && Gated(p.contract, i))
              && (run[w].Dispatch? ==> w == DispatchOf(p, run, i))
  {
  }

  // The guarantees over whole runs.

  /** Accepted steps name real tasks and runs. */
  lemma AcceptedStepsAreReal(p: Plan, run: seq<Step>, n: nat)
    requires Sound(p) && n < |run| && Accepted(p, run, n)
    ensures run[n].Decide? ==> exists j :: 0 <= j < |p.contract.approvals| && run[n].taskKey == TaskKey(j)
    ensures run[n].Dispatch? ==> exists i :: 0 <= i < |p.contract.children| && run[n].runKey == RunKey(i)
  {
    hide DecideTask, DispatchRun, Exec;
    if run[n].Decide? {
      var j := TaskFound(p, run[n].taskKey);
    }
    if run[n].Dispatch? {
      var i := RunFound(p, run[n].runKey);
    }
  }

  /** A contract that is not well-formed never gets a step accepted, and its store stays empty. */
  lemma {:induction false} RefusedContractsDoNothing(d: Draft, run: seq<Step>)
    requires !WellFormed(d)
    ensures Exec(PlanOf(d), run) == map[]
    ensures forall n :: 0 <= n < |run| ==> !Accepted(PlanOf(d), run, n)
  {
    hide WellFormed, PlanOf;
    PlanIsSoundIff(d);
    if run != [] {
      var n := |run| - 1;
      RefusedContractsDoNothing(d, run[..n]);
      forall m | 0 <= m < n ensures Accepted(PlanOf(d), run, m) <==> Accepted(PlanOf(d), run[..n], m) {
        assert run[..n][..m] == run[..m];
      }
    }
  }

  /** Every step of such a contract answers the refusal of the contract. */
  lemma RefusalIsOfTheContract(d: Draft)
    requires !WellFormed(d)
    ensures Check(d).Some?
    ensures forall slots, s :: Attempt(PlanOf(d), slots, s) == Failure(ContractRefused(Check(d).value))
  {
    hide WellFormed, Check, Tasks, DispatchQueue, ApprovalIntegrations, RunnerIntegrations, DecideTask, DispatchRun;
    CheckAcceptsExactlyTheWellFormed(d);
  }

  lemma PrefixIncreasing(run: seq<Step>, n: nat)
    requires Increasing(run) && n <= |run|
    ensures Increasing(run[..n])
  {
  }

  predicate IsApprovalOf(s: Step, j: int) {
    s.Decide? && s.decision == Approve && j >= 0 && s.taskKey == TaskKey(j)
  }

  /**
   Safety: on every run, an accepted dispatch of a gated run has behind it a persisted approval of the run's one task,
   after which nothing but dispatches was persisted, and the run's visible status comes from that approval.
   */
  lemma GatedDispatchFollowsApproval(p: Plan, run: seq<Step>, n: nat, i: nat) returns (k: nat)
    requires Sound(p) && Increasing(run) && n < |run| && run[n].Dispatch? && Accepted(p, run, n)
    requires i < |p.contract.children| && run[n].runKey == RunKey(i) && Gated(p.contract, i)
    ensures k < n && Persisted(p, run, k) && IsApprovalOf(run[k], GateOf(p.contract, i))
    ensures forall m :: k < m < n && Persisted(p, run, m) ==> run[m].Dispatch?
    ensures ApprovalDecision in Exec(p, run[..n])
            && Exec(p, run[..n])[ApprovalDecision].event == Decided(TaskKey(GateOf(p.contract, i)), Approve)
            && Exec(p, run[..n])[ApprovalDecision].recordedAt == run[k].at
    ensures Visible(Exec(p, run[..n]), Part(i, RunTarget)) == Some(QueuedForDispatch)
  {
    hide Attempt;
    AcceptedStepsAreReal(p, run, n);
    PrefixIncreasing(run, n);
    DispatchAcceptedIff(p, run[..n], run[n], i);
    k := DecisionOn(p, run[..n], GateOf(p.contract, i));
    LastBefore(p, run, n, ApprovalDecision);
    LastBefore(p, run, n, MaterializedRuntime);
    assert run[..n][k] == run[k];
    SlotSpeaks(p, run[..n], ApprovalDecision, Part(i, RunTarget));
    VisiblePart(p, run[..n], i, RunTarget);
    assert forall m :: k < m < n && TypeOf(run[m]) == MaterializedRuntime ==> !Persisted(p, run, m);
  }

  /**
   Two accepted dispatches of one run, the first persisted, the second reading successfully, are separated by a
   persisted dispatch of another run or a persisted approval of the run's task.
   */
  lemma DispatchesOfOneRunAreSeparated(p: Plan, run: seq<Step>, m: nat, n: nat, i: nat) returns (k: nat)
    requires Sound(p) && Increasing(run) && m < n < |run| && run[m].Dispatch? && run[n].Dispatch?
    requires i < |p.contract.children| && run[m].runKey == RunKey(i) == run[n].runKey
    requires Persisted(p, run, m) && Accepted(p, run, n) && run[n].readsRun
    ensures m < k < n && Persisted(p, run, k)
    ensures (run[k].Dispatch? && run[k].runKey != RunKey(i))
            || (Gated(p.contract, i) && IsApprovalOf(run[k], GateOf(p.contract, i)))
  {
    hide Attempt, Exec, LastOf, Sound;
    AcceptedStepsAreReal(p, run, n);
    PrefixIncreasing(run, n);
    DispatchAcceptedIff(p, run[..n], run[n], i);
    LastBefore(p, run, n, RunDispatch);
    LastBefore(p, run, n, ApprovalDecision);
    var x := LastOf(p, run[..n], RunDispatch);
    assert TypeOf(run[m]) == RunDispatch;
    assert x >= m;
    if run[x].runKey == RunKey(i) {
      k := DecisionOn(p, run[..n], GateOf(p.contract, i));
    } else {
      k := x;
    }
  }

  /** Once a plan has been activated, an ungated run is never again accepted by a dispatch whose read succeeds. */
  lemma ActivationEndsUngatedDispatch(p: Plan, run: seq<Step>, a: nat, n: nat, i: nat)
    requires Sound(p) && Increasing(run) && a < n < |run| && run[a].Activate? && Persisted(p, run, a)
    requires run[n].Dispatch? && run[n].readsRun
    requires i < |p.contract.children| && run[n].runKey == RunKey(i) && !Gated(p.contract, i)
    ensures !Accepted(p, run, n)
  {
    hide Attempt;
    AcceptedStepsAreReal(p, run, a);
    PrefixIncreasing(run, n);
    DispatchAcceptedIff(p, run[..n], run[n], i);
    LastBefore(p, run, n, MaterializedRuntime);
    assert TypeOf(run[a]) == MaterializedRuntime;
  }

  /**
   Two accepted decisions on one task, the first persisted, the second reading successfully, are separated by a
   persisted activation or a persisted decision on another task.
   */
  lemma DecisionsOnOneTaskAreSeparated(p: Plan, run: seq<Step>, m: nat, n: nat) returns (k: nat)
    requires Sound(p) && Increasing(run) && m < n < |run| && run[m].Decide? && run[n].Decide?
    requires run[m].taskKey == run[n].taskKey
    requires Persisted(p, run, m) && Accepted(p, run, n) && run[n].readsTask
    ensures m < k < n && Persisted(p, run, k)
    ensures run[k].Activate? || (run[k].Decide? && run[k].taskKey != run[n].taskKey)
  {
    hide Attempt;
    AcceptedStepsAreReal(p, run, n);
    var j :| 0 <= j < |p.contract.approvals| && run[n].taskKey == TaskKey(j);
    PrefixIncreasing(run, n);
    DecisionAcceptedIff(p, run[..n], run[n], j);
    LastBefore(p, run, n, MaterializedRuntime);
    LastBefore(p, run, n, ApprovalDecision);
    var c := LastOf(p, run[..n], ApprovalDecision);
    assert TypeOf(run[m]) == ApprovalDecision;
    assert c >= m;
    k := if run[c].taskKey == TaskKey(j) then ActivationIn(p, run[..n]) else c;
  }

  /** A persisted reject or request for changes holds until a later persisted approval of the same task. */
  lemma CancellationHolds(p: Plan, run: seq<Step>, m: nat, n: nat, i: nat) returns (k: nat)
    requires Sound(p) && Increasing(run) && m < n < |run| && run[m].Decide? && run[m].decision != Approve
    requires i < |p.contract.children| && Gated(p.contract, i) && GateOf(p.contract, i) >= 0
    requires run[m].taskKey == TaskKey(GateOf(p.contract, i))
    requires Persisted(p, run, m)
    requires run[n].Dispatch? && run[n].runKey == RunKey(i) && Accepted(p, run, n)
    ensures m < k < n && Persisted(p, run, k) && IsApprovalOf(run[k], GateOf(p.contract, i))
  {
    hide Attempt;
    k := GatedDispatchFollowsApproval(p, run, n, i);
  }

  // Progress.

  function Reopen(i: nat, j: nat, at: int): seq<Step> {
    [Activate(at, true), Decide(at + 1, TaskKey(j), Approve, true, true, true, true),
     Dispatch(at + 2, RunKey(i), true, true, true)]
  }

  /**
   Whatever has happened to a plan, activating it again, approving a task and dispatching a run that the task gates are
   all accepted, so no history locks a gated run out.
   */
  lemma GatedRunCanAlwaysBeReopened(p: Plan, run: seq<Step>, i: nat, j: nat, at: int)
    requires Sound(p) && GatedBy(p.contract, i, j) && Increasing(run) && (run != [] ==> run[|run| - 1].at < at)
    ensures var longer := run + Reopen(i, j, at); var n := |run|;
            && Increasing(longer)
            && Persisted(p, longer, n) && Persisted(p, longer, n + 1) && Persisted(p, longer, n + 2)
  {
    hide Persisted, Sound, GatedBy, Increasing;
    var longer := run + Reopen(i, j, at);
    LaterRunIncreasing(run, Reopen(i, j, at));
    ReopeningIsAccepted(p, longer, |run|, i, j);
  }

  lemma ReopeningIsAccepted(p: Plan, run: seq<Step>, n: nat, i: nat, j: nat)
    requires Sound(p) && GatedBy(p.contract, i, j) && Increasing(run) && |run| == n + 3
    requires run[n] == Activate(run[n].at, true)
    requires run[n + 1] == Decide(run[n + 1].at, TaskKey(j), Approve, true, true, true, true)
    requires run[n + 2] == Dispatch(run[n + 2].at, RunKey(i), true, true, true)
    ensures Persisted(p, run, n) && Persisted(p, run, n + 1) && Persisted(p, run, n + 2)
  {
    hide Attempt, Exec, Sound, Gated, GateOf, GatedBy;
    GatedByGate(p, i, j);
    PrefixIncreasing(run, n + 1);
    PrefixIncreasing(run, n + 2);
    ActivationIsAccepted(p, run, n);
    LastOfPush(p, run, n);
    DecisionAcceptedIff(p, run[..n + 1], run[n + 1], j);
    LastOfPush(p, run, n + 1);
    DispatchAcceptedIff(p, run[..n + 2], run[n + 2], i);
  }

  lemma GatedByGate(p: Plan, i: nat, j: nat)
    requires GatedBy(p.contract, i, j)
    ensures i < |p.contract.children| && j < |p.contract.approvals|
    ensures Gated(p.contract, i) && GateOf(p.contract, i) == j
  {
  }

  lemma ActivationIsAccepted(p: Plan, run: seq<Step>, n: nat)
    requires Sound(p) && n < |run| && run[n].Activate?
    ensures Accepted(p, run, n)
  {
  }

  lemma LaterRunIncreasing(run: seq<Step>, more: seq<Step>)
    requires Increasing(run) && Increasing(more)
    requires run != [] && more != [] ==> run[|run| - 1].at < more[0].at
    ensures Increasing(run + more)
  {
    var longer := run + more;
    forall a, b | 0 <= a < b < |longer| ensures longer[a].at < longer[b].at {
      if a < |run| && b >= |run| {
        assert a < |run| - 1 ==> run[a].at < run[|run| - 1].at;
        assert b > |run| ==> more[0].at < more[b - |run|].at;
      }
    }
  }

  // Why the separation is needed: the unconditional forms are false of every plan with two targets of the kind.

  function DispatchTwiceAround(i: nat, other: nat): seq<Step> {
    [Dispatch(0, RunKey(i), true, true, true), Dispatch(1, RunKey(other), true, true, true),
     Dispatch(2, RunKey(i), true, true, true)]
  }

  /** Without activation, an ungated run is dispatched twice around the dispatch of any other ungated run. */
  lemma DispatchRepeatsAroundAnother(p: Plan, i: nat, other: nat)
    requires Sound(p) && i < |p.contract.children| && other < |p.contract.children| && i != other
    requires !Gated(p.contract, i) && !Gated(p.contract, other)
    ensures var run := DispatchTwiceAround(i, other);
            Increasing(run) && Persisted(p, run, 0) && Persisted(p, run, 1) && Persisted(p, run, 2)
  {
    hide Attempt, Exec, Sound;
    var run := DispatchTwiceAround(i, other);
    assert run[..0] == [] && run[..1] == [run[0]] && run[..2] == [run[0], run[1]];
    DispatchAcceptedIff(p, run[..0], run[0], i);
    LastOfPush(p, run, 0);
    DispatchAcceptedIff(p, run[..1], run[1], other);
    LastOfPush(p, run, 1);
    DispatchAcceptedIff(p, run[..2], run[2], i);
  }

  function DecideTwiceAround(j: nat, other: nat, first: Decision, second: Decision): seq<Step> {
    [Decide(0, TaskKey(j), first, true, true, true, true), Decide(1, TaskKey(other), Approve, true, true, true, true),
     Decide(2, TaskKey(j), second, true, true, true, true)]
  }

  /** A task is decided twice, even against its first decision, around a decision on any other task. */
  lemma DecisionRepeatsAroundAnother(p: Plan, j: nat, other: nat, first: Decision, second: Decision)
    requires Sound(p) && j < |p.contract.approvals| && other < |p.contract.approvals| && j != other
    ensures var run := DecideTwiceAround(j, other, first, second);
            Increasing(run) && Persisted(p, run, 0) && Persisted(p, run, 1) && Persisted(p, run, 2)
  {
    hide Attempt, Exec, Sound;
    var run := DecideTwiceAround(j, other, first, second);
    assert run[..0] == [] && run[..1] == [run[0]] && run[..2] == [run[0], run[1]];
    DecisionAcceptedIff(p, run[..0], run[0], j);
    LastOfPush(p, run, 0);
    DecisionAcceptedIff(p, run[..1], run[1], other);
    LastOfPush(p, run, 1);
    DecisionAcceptedIff(p, run[..2], run[2], j);
  }

  // At-most-once, exactly, over all runs without failures: first without activations, then with them.

  predicate Unfailing(s: Step) {
    match s
    case Activate(_, written) => written
    case Decide(_, _, _, a, b, c, written) => a && b && c && written
    case Dispatch(_, _, a, b, written) => a && b && written
  }

  /** Increasing times, and no failing read or write. */
  ghost predicate Smooth(run: seq<Step>) {
    Increasing(run) && forall n :: 0 <= n < |run| ==> Unfailing(run[n])
  }

  /** Smooth, and without an activation. */
  ghost predicate Quiet(run: seq<Step>) {
    Smooth(run) && forall n :: 0 <= n < |run| ==> !run[n].Activate?
  }

  ghost predicate DispatchedAt(p: Plan, run: seq<Step>, n: nat, i: nat) {
    n < |run| && run[n].Dispatch? && run[n].runKey == RunKey(i) && Accepted(p, run, n)
  }

  ghost predicate DecidedAt(p: Plan, run: seq<Step>, n: nat, j: nat) {
    n < |run| && run[n].Decide? && run[n].taskKey == TaskKey(j) && Accepted(p, run, n)
  }

  ghost predicate DispatchedTwice(p: Plan, run: seq<Step>, i: nat) {
    exists m: nat, n: nat :: m < n && DispatchedAt(p, run, m, i) && DispatchedAt(p, run, n, i)
  }

  ghost predicate DecidedTwice(p: Plan, run: seq<Step>, j: nat) {
    exists m: nat, n: nat :: m < n && DecidedAt(p, run, m, j) && DecidedAt(p, run, n, j)
  }

  /** A task is decided twice in some quiet run exactly when the plan has a second task. */
  lemma DecisionRepeatsIff(p: Plan, j: nat)
    requires Sound(p) && j < |p.contract.approvals|
    ensures (exists run :: Quiet(run) && DecidedTwice(p, run, j)) <==> |p.contract.approvals| >= 2
  {
    hide Accepted, Sound, Increasing;
    if run :| Quiet(run) && DecidedTwice(p, run, j) {
      var m: nat, n: nat :| m < n && DecidedAt(p, run, m, j) && DecidedAt(p, run, n, j);
      var k := DecisionsOnOneTaskAreSeparated(p, run, m, n);
      AcceptedStepsAreReal(p, run, k);
    }
    if |p.contract.approvals| >= 2 {
      var other := if j == 0 then 1 else 0;
      var run := DecideTwiceAround(j, other, Approve, Approve);
      DecisionRepeatsAroundAnother(p, j, other, Approve, Approve);
      assert DecidedAt(p, run, 0, j) && DecidedAt(p, run, 2, j);
      assert Quiet(run);
    }
  }

  /** A run is dispatched twice in some quiet run exactly when the plan has a second run or a second task. */
  lemma DispatchRepeatsIff(p: Plan, i: nat)
    requires Sound(p) && i < |p.contract.children|
    ensures (exists run :: Quiet(run) && DispatchedTwice(p, run, i)) <==>
            |p.contract.children| >= 2 || (Gated(p.contract, i) && |p.contract.approvals| >= 2)
  {
    hide Sound, Quiet, DispatchedTwice, Gated;
    if run :| Quiet(run) && DispatchedTwice(p, run, i) {
      RepeatedDispatchNeedsAnother(p, run, i);
    }
    if |p.contract.children| >= 2 {
      var run := RepeatAroundRun(p, i, if i == 0 then 1 else 0);
    } else if Gated(p.contract, i) && |p.contract.approvals| >= 2 {
      var run := RepeatAroundTask(p, i, if GateOf(p.contract, i) == 0 then 1 else 0);
    }
  }

  /** For a submitted contract the second run is the whole condition, since every task gates a run of its own. */
  lemma ContractDispatchRepeatsIff(d: Draft, i: nat)
    requires WellFormed(d) && i < |d.children|
    ensures (exists run :: Quiet(run) && DispatchedTwice(PlanOf(d), run, i)) <==> |d.children| >= 2
  {
    hide WellFormed, PlanOf, Quiet, DispatchedTwice, ApprovalsServed;
    PlanIsSoundIff(d);
    assert PlanOf(d).contract == d by {
      PlanKeepsContract(d);
    }
    DispatchRepeatsIff(PlanOf(d), i);
    if |d.approvals| >= 2 {
      WellFormedServes(d);
      TwoTasksTwoRuns(d);
    }
  }

  lemma PlanKeepsContract(d: Draft)
    ensures PlanOf(d).contract == d
  {
  }

  lemma TwoTasksTwoRuns(d: Draft)
    requires ApprovalsServed(d) && Distinct(d.approvals, Checkpoint) && |d.approvals| >= 2
    ensures |d.children| >= 2
  {
    var first, second := d.approvals[0], d.approvals[1];
    assert first in d.approvals && second in d.approvals;
    var a :| a in d.children && Guards(first.checkpointKey, a);
    var b :| b in d.children && Guards(second.checkpointKey, b);
    assert Checkpoint(first) != Checkpoint(second);
    var i :| 0 <= i < |d.children| && d.children[i] == a;
    var k :| 0 <= k < |d.children| && d.children[k] == b;
  }

  lemma WellFormedServes(d: Draft)
    requires WellFormed(d)
    ensures ApprovalsServed(d) && Distinct(d.approvals, Checkpoint)
  {
    hide ChildrenGated, EscalationsLeave, ChildrenBound, GatedBindingsUsed, RollbacksLand;
  }

  // With activations a gated run repeats in every plan, and so does every task.

  /** A run is dispatched twice in some smooth run exactly when it is gated or the plan has a second run. */
  lemma SmoothDispatchRepeatsIff(p: Plan, i: nat)
    requires Sound(p) && i < |p.contract.children|
    ensures (exists run :: Smooth(run) && DispatchedTwice(p, run, i)) <==>
            Gated(p.contract, i) || |p.contract.children| >= 2
  {
    hide Sound, Smooth, DispatchedTwice, Gated;
    if Gated(p.contract, i) {
      var run := RepeatAroundActivation(p, i);
    } else if |p.contract.children| >= 2 {
      var run := RepeatAroundRun(p, i, if i == 0 then 1 else 0);
      QuietIsSmooth(run);
    }
    if run :| Smooth(run) && DispatchedTwice(p, run, i) {
      UngatedRepeatNeedsAnother(p, run, i);
    }
  }

  lemma QuietIsSmooth(run: seq<Step>)
    requires Quiet(run)
    ensures Smooth(run)
  {
  }

  lemma UngatedRepeatNeedsAnother(p: Plan, run: seq<Step>, i: nat)
    requires Sound(p) && i < |p.contract.children| && Smooth(run) && DispatchedTwice(p, run, i)
    ensures Gated(p.contract, i) || |p.contract.children| >= 2
  {
    hide Accepted, Sound, Increasing, Gated, GateOf;
    var m: nat, n: nat :| m < n && DispatchedAt(p, run, m, i) && DispatchedAt(p, run, n, i);
    var k := DispatchesOfOneRunAreSeparated(p, run, m, n, i);
    AcceptedStepsAreReal(p, run, k);
  }

  /** A gated run repeats around an activation, after which its task is approved again. */
  lemma RepeatAroundActivation(p: Plan, i: nat) returns (run: seq<Step>)
    requires Sound(p) && i < |p.contract.children| && Gated(p.contract, i)
    ensures Smooth(run) && DispatchedTwice(p, run, i)
  {
    hide Persisted, Accepted, LastOf, Sound, DispatchedTwice, Gated, GateOf;
    GatesExist(p);
    var j := GateOf(p.contract, i);
    run := [Approving(0, j), Go(1, i), Activate(2, true), Approving(3, j), Go(4, i)];
    NothingYet(p, run);
    ApproveStep(p, run, 0, j);
    GoStep(p, run, 1, i);
    ActivateStep(p, run, 2);
    ApproveStep(p, run, 3, j);
    GoStep(p, run, 4, i);
    PersistedIsAccepted(p, run);
    TwiceAt(p, run, 1, 4, i);
  }

  lemma TwiceAt(p: Plan, run: seq<Step>, m: nat, n: nat, i: nat)
    requires m < n < |run| && run[m].Dispatch? && run[n].Dispatch? && run[m].runKey == RunKey(i) == run[n].runKey
    requires Accepted(p, run, m) && Accepted(p, run, n)
    ensures DispatchedTwice(p, run, i)
  {
    hide Accepted;
    assert DispatchedAt(p, run, m, i) && DispatchedAt(p, run, n, i);
  }

  lemma ActivateStep(p: Plan, run: seq<Step>, n: nat)
    requires Sound(p) && n < |run| && run[n] == Activate(run[n].at, true)
    ensures Persisted(p, run, n)
    ensures LastAfter(p, run, n, MaterializedRuntime) && LastAfter(p, run, n, ApprovalDecision)
    ensures LastAfter(p, run, n, RunDispatch)
  {
    hide Attempt, Exec, Sound;
    ActivationIsAccepted(p, run, n);
    LastOfPush(p, run, n);
  }

  /** Every task of every plan is decided twice, with any two decisions, around an activation. */
  lemma SmoothDecisionRepeats(p: Plan, j: nat, first: Decision, second: Decision)
    requires Sound(p) && j < |p.contract.approvals|
    ensures var run := [Decide(0, TaskKey(j), first, true, true, true, true), Activate(1, true),
                        Decide(2, TaskKey(j), second, true, true, true, true)];
            Smooth(run) && DecidedTwice(p, run, j)
  {
    hide Attempt, Exec, Sound;
    var run := [Decide(0, TaskKey(j), first, true, true, true, true), Activate(1, true),
                Decide(2, TaskKey(j), second, true, true, true, true)];
    assert run[..0] == [] && run[..1] == [run[0]] && run[..2] == [run[0], run[1]];
    DecisionAcceptedIff(p, run[..0], run[0], j);
    LastOfPush(p, run, 0);
    ActivateStep(p, run, 1);
    DecisionAcceptedIff(p, run[..2], run[2], j);
    assert DecidedAt(p, run, 0, j) && DecidedAt(p, run, 2, j);
  }

  lemma RepeatedDispatchNeedsAnother(p: Plan, run: seq<Step>, i: nat)
    requires Sound(p) && i < |p.contract.children| && Quiet(run) && DispatchedTwice(p, run, i)
    ensures |p.contract.children| >= 2 || (Gated(p.contract, i) && |p.contract.approvals| >= 2)
  {
    hide Accepted, Sound, Increasing, Gated, GateOf;
    var m: nat, n: nat :| m < n && DispatchedAt(p, run, m, i) && DispatchedAt(p, run, n, i);
    var k := DispatchesOfOneRunAreSeparated(p, run, m, n, i);
    if run[k].Dispatch? {
      AcceptedStepsAreReal(p, run, k);
    } else {
      var first := GatedDispatchFollowsApproval(p, run, m, i);
      var between := DecisionsOnOneTaskAreSeparated(p, run, first, k);
      AcceptedStepsAreReal(p, run, first);
      AcceptedStepsAreReal(p, run, between);
    }
  }

  function Go(at: int, i: nat): Step { Dispatch(at, RunKey(i), true, true, true) }

  function Approving(at: int, j: nat): Step { Decide(at, TaskKey(j), Approve, true, true, true, true) }

  /** A second run to dispatch in between, whatever gates the two. */
  lemma RepeatAroundRun(p: Plan, i: nat, other: nat) returns (run: seq<Step>)
    requires Sound(p) && i < |p.contract.children| && other < |p.contract.children| && i != other
    ensures Quiet(run) && DispatchedTwice(p, run, i)
  {
    hide Sound, Quiet, DispatchedTwice, Gated, GateOf;
    GatesExist(p);
    if Gated(p.contract, i) {
      var j := GateOf(p.contract, i);
      if Gated(p.contract, other) && GateOf(p.contract, other) != j {
        run := RepeatAroundTask(p, i, GateOf(p.contract, other));
      } else {
        run := RepeatGated(p, i, other);
      }
    } else if Gated(p.contract, other) {
      run := RepeatAroundGated(p, i, other);
    } else {
      run := DispatchTwiceAround(i, other);
      DispatchRepeatsAroundAnother(p, i, other);
      RepeatedAt(p, run, 0, 2, i);
    }
  }

  lemma GatesExist(p: Plan)
    requires Sound(p)
    ensures forall i :: 0 <= i < |p.contract.children| && Gated(p.contract, i) ==>
              0 <= GateOf(p.contract, i) < |p.contract.approvals|
  {
    hide Gated;
  }

  lemma RepeatedAt(p: Plan, run: seq<Step>, m: nat, n: nat, i: nat)
    requires m < n < |run| && run[m].Dispatch? && run[n].Dispatch? && run[m].runKey == RunKey(i) == run[n].runKey
    requires Accepted(p, run, m) && Accepted(p, run, n) && Increasing(run)
    requires forall a :: 0 <= a < |run| ==> !run[a].Activate? && Unfailing(run[a])
    ensures Quiet(run) && DispatchedTwice(p, run, i)
  {
    hide Accepted, Increasing, DispatchedTwice;
    TwiceAt(p, run, m, n, i);
  }

  /** What one unfailing step does to the indices that decide acceptance. */
  lemma GoStep(p: Plan, run: seq<Step>, n: nat, i: nat)
    requires Sound(p) && Increasing(run) && n < |run| && i < |p.contract.children| && run[n] == Go(run[n].at, i)
    ensures Persisted(p, run, n) <==>
            if Gated(p.contract, i) then GateOpen(p, run[..n], i)
            else ActivationIn(p, run[..n]) < 0 && DispatchOf(p, run[..n], i) < 0
    ensures LastAfter(p, run, n, MaterializedRuntime) && LastAfter(p, run, n, ApprovalDecision)
    ensures LastAfter(p, run, n, RunDispatch)
  {
    hide Attempt, Exec, Sound;
    PrefixIncreasing(run, n);
    DispatchAcceptedIff(p, run[..n], run[n], i);
    LastOfPush(p, run, n);
  }

  lemma ApproveStep(p: Plan, run: seq<Step>, n: nat, j: nat)
    requires Sound(p) && Increasing(run) && n < |run| && j < |p.contract.approvals| && run[n] == Approving(run[n].at, j)
    ensures Persisted(p, run, n) <==> DecisionOn(p, run[..n], j) <= ActivationIn(p, run[..n])
    ensures LastAfter(p, run, n, MaterializedRuntime) && LastAfter(p, run, n, ApprovalDecision)
    ensures LastAfter(p, run, n, RunDispatch)
  {
    hide Attempt, Exec, Sound;
    PrefixIncreasing(run, n);
    DecisionAcceptedIff(p, run[..n], run[n], j);
    LastOfPush(p, run, n);
  }

  lemma NothingYet(p: Plan, run: seq<Step>)
    ensures LastOf(p, run[..0], MaterializedRuntime) == LastOf(p, run[..0], ApprovalDecision) == -1
    ensures LastOf(p, run[..0], RunDispatch) == -1
  {
  }

  /** An ungated run repeats around the dispatch of a gated one. */
  lemma RepeatAroundGated(p: Plan, i: nat, other: nat) returns (run: seq<Step>)
    requires Sound(p) && i < |p.contract.children| && other < |p.contract.children| && i != other
    requires !Gated(p.contract, i) && Gated(p.contract, other)
    ensures Quiet(run) && DispatchedTwice(p, run, i)
  {
    hide Persisted, Accepted, LastOf, Sound, Quiet, DispatchedTwice, Gated, GateOf;
    GatesExist(p);
    run := [Go(0, i), Approving(1, GateOf(p.contract, other)), Go(2, other), Go(3, i)];
    NothingYet(p, run);
    GoStep(p, run, 0, i);
    ApproveStep(p, run, 1, GateOf(p.contract, other));
    GoStep(p, run, 2, other);
    GoStep(p, run, 3, i);
    PersistedIsAccepted(p, run);
    RepeatedAt(p, run, 0, 3, i);
  }

  lemma PersistedIsAccepted(p: Plan, run: seq<Step>)
    ensures forall n :: 0 <= n < |run| && Persisted(p, run, n) ==> Accepted(p, run, n)
  {
    hide Accepted;
  }

  /** A gated run repeats around a run that is ungated or waits for the same task. */
  lemma RepeatGated(p: Plan, i: nat, other: nat) returns (run: seq<Step>)
    requires Sound(p) && i < |p.contract.children| && other < |p.contract.children| && i != other
    requires Gated(p.contract, i)
    requires Gated(p.contract, other) ==> GateOf(p.contract, other) == GateOf(p.contract, i)
    ensures Quiet(run) && DispatchedTwice(p, run, i)
  {
    hide Persisted, Accepted, LastOf, Sound, Quiet, DispatchedTwice, Gated, GateOf;
    GatesExist(p);
    run := [Approving(0, GateOf(p.contract, i)), Go(1, i), Go(2, other), Go(3, i)];
    NothingYet(p, run);
    ApproveStep(p, run, 0, GateOf(p.contract, i));
    GoStep(p, run, 1, i);
    GoStep(p, run, 2, other);
    GoStep(p, run, 3, i);
    PersistedIsAccepted(p, run);
    RepeatedAt(p, run, 1, 3, i);
  }

  /** A gated run repeats around a decision on another task, after which its own task is approved again. */
  lemma RepeatAroundTask(p: Plan, i: nat, other: nat) returns (run: seq<Step>)
    requires Sound(p) && i < |p.contract.children| && Gated(p.contract, i)
    requires other < |p.contract.approvals| && other != GateOf(p.contract, i)
    ensures Quiet(run) && DispatchedTwice(p, run, i)
  {
    hide Persisted, Accepted, LastOf, Sound, Quiet, DispatchedTwice, Gated, GateOf;
    GatesExist(p);
    var j := GateOf(p.contract, i);
    run := [Approving(0, j), Go(1, i), Approving(2, other), Approving(3, j), Go(4, i)];
    NothingYet(p, run);
    ApproveStep(p, run, 0, j);
    GoStep(p, run, 1, i);
    ApproveStep(p, run, 2, other);
    ApproveStep(p, run, 3, j);
    GoStep(p, run, 4, i);
    PersistedIsAccepted(p, run);
    RepeatedAt(p, run, 1, 4, i);
  }

  /** One more step moves the last index of its own kind, if it is persisted, and no other. */
  lemma LastOfPush(p: Plan, run: seq<Step>, n: nat)
    requires n < |run|
    ensures LastAfter(p, run, n, MaterializedRuntime) && LastAfter(p, run, n, ApprovalDecision)
    ensures LastAfter(p, run, n, RunDispatch)
  {
    hide Attempt, Exec;
    var longer := run[..n + 1];
    assert longer[..n] == run[..n] && longer[n] == run[n] && |longer| == n + 1;
    assert Persisted(p, longer, n) == Persisted(p, run, n);
  }

  ghost predicate LastAfter(p: Plan, run: seq<Step>, n: nat, kind: SnapshotType)
    requires n < |run|
  {
    LastOf(p, run[..n + 1], kind) ==
    if TypeOf(run[n]) == kind && Persisted(p, run, n) then n else LastOf(p, run[..n], kind)
  }
}
