/**
 The cross-list checks of contract submission, in their order, and what they accept. Line numbers are those of
 apps/api/src/orchestration.service.ts.
 */
module Validation {
  import opened Wrappers
  import opened Lists
  import opened Contracts

  /** Why a submission is refused, with the entry the message names. */
  datatype Rejection =
    | NoChildWorkflow
    | DuplicateBinding(binding: Binding)
    | DuplicateCheckpoint(approval: Approval)
    | DuplicateChildRoute(child: Child)
    | DuplicateEscalationRoute(escalation: Escalation)
    | DuplicateRollbackRoute(rollback: Rollback)
    | OptionalApproval(approval: Approval)
    | GatedChildrenWithoutApproval
    | ApprovalsWithoutGatedChild
    | GatedChildWithoutCheckpoint(child: Child)
    | UngatedChildWithCheckpoint(child: Child)
    | GatedChildWithUnknownCheckpoint(child: Child)
    | ApprovalWithoutChild(approval: Approval)
    | EscalationFromUnknownCheckpoint(escalation: Escalation)
    | EscalationToSameRole(escalation: Escalation)
    | RollbackFromUnknownCheckpoint(rollback: Rollback)
    | RollbackToUnknownSystem(rollback: Rollback)
    | ChildWithoutBinding(child: Child)
    | GatedChildOnUngatedBinding(child: Child)
    | UngatedChildOnGatedBinding(child: Child)
    | GatedBindingWithoutChild(binding: Binding)
    | RollbackWithoutChild(rollback: Rollback)

  function Pair(b: Binding): (string, string) { (b.runtimeKey, b.systemKey) }
  function Checkpoint(a: Approval): string { a.checkpointKey }
  function Route(c: Child): (string, string, string) { (c.workflowKey, c.runtimeKey, c.systemKey) }
  function EscalationRoute(e: Escalation): (string, string) { (e.fromCheckpointKey, e.targetRole) }
  function RollbackRoute(k: Rollback): (string, string) { (k.fromCheckpointKey, k.targetSystemKey) }

  predicate Binds(b: Binding, c: Child) { b.runtimeKey == c.runtimeKey && b.systemKey == c.systemKey }

  /** The child is gated on the checkpoint. */
  predicate Guards(checkpoint: string, c: Child) { c.approvalRequired && c.approvalCheckpointKey == checkpoint }

  /** `draft.childWorkflowContracts.some(...)` and its like. */
  predicate Some?<T>(s: seq<T>, p: T -> bool)
    ensures Some?(s, p) <==> exists x :: x in s && p(x)
  {
    Find(s, p).Some?
  }

  function RequiredApprovals(d: Draft): seq<Approval> { Filter(d.approvals, (a: Approval) => a.required) }

  predicate KnownCheckpoint(d: Draft, checkpoint: string) {
    Some?(RequiredApprovals(d), (a: Approval) => a.checkpointKey == checkpoint)
  }

  predicate BindingGated(d: Draft, c: Child, gated: bool) {
    var b := Find(d.bindings, (b: Binding) => Binds(b, c));
    b.Some? && b.value.approvalRequired == gated
  }

  /** The first of two verdicts that refuses. */
  function Then(first: Option<Rejection>, second: Option<Rejection>): Option<Rejection> {
    if first.Some? then first else second
  }

  function Named<T>(found: Option<T>, reject: T -> Rejection): Option<Rejection> {
    match found
    case None => None
    case Some(x) => Some(reject(x))
  }

  function When(condition: bool, rejection: Rejection): Option<Rejection> {
    if condition then Some(rejection) else None
  }

  /** Lines 1469 to 1560: the lists on their own. */
  function CheckLists(d: Draft): Option<Rejection> {
    Then(When(d.children == [], NoChildWorkflow),
    Then(Named(FindDuplicate(d.bindings, Pair), b => DuplicateBinding(b)),
    Then(Named(FindDuplicate(d.approvals, Checkpoint), a => DuplicateCheckpoint(a)),
    Then(Named(FindDuplicate(d.children, Route), c => DuplicateChildRoute(c)),
    Then(Named(FindDuplicate(d.escalations, EscalationRoute), e => DuplicateEscalationRoute(e)),
    Then(Named(FindDuplicate(d.rollbacks, RollbackRoute), k => DuplicateRollbackRoute(k)),
         Named(Find(d.approvals, (a: Approval) => !a.required), a => OptionalApproval(a))))))))
  }

  /** Lines 1570 to 1586. */
  function CheckApprovalPresence(d: Draft): Option<Rejection> {
    var anyGated := Some?(d.children, (c: Child) => c.approvalRequired);
    Then(When(anyGated && RequiredApprovals(d) == [], GatedChildrenWithoutApproval),
         When(!anyGated && d.approvals != [], ApprovalsWithoutGatedChild))
  }

  /** Lines 1588 to 1623. */
  function CheckChildCheckpoints(d: Draft): Option<Rejection> {
    Then(Named(Find(d.children, (c: Child) => c.approvalRequired && c.approvalCheckpointKey == ""),
               c => GatedChildWithoutCheckpoint(c)),
    Then(Named(Find(d.children, (c: Child) => !c.approvalRequired && c.approvalCheckpointKey != ""),
               c => UngatedChildWithCheckpoint(c)),
         Named(Find(d.children, (c: Child) => c.approvalRequired && c.approvalCheckpointKey != ""
                                              && !KnownCheckpoint(d, c.approvalCheckpointKey)),
               c => GatedChildWithUnknownCheckpoint(c))))
  }

  /** Lines 1625 to 1639. */
  function CheckApprovalUse(d: Draft): Option<Rejection> {
    Named(Find(RequiredApprovals(d),
               (a: Approval) => !Some?(d.children, (c: Child) => Guards(a.checkpointKey, c))),
          a => ApprovalWithoutChild(a))
  }

  /** Lines 1641 to 1676. */
  function CheckEscalations(d: Draft): Option<Rejection> {
    Then(Named(Find(d.escalations, (e: Escalation) => !KnownCheckpoint(d, e.fromCheckpointKey)),
               e => EscalationFromUnknownCheckpoint(e)),
         Named(Find(d.escalations, (e: Escalation) => TargetsApprover(d, e)), e => EscalationToSameRole(e)))
  }

  predicate TargetsApprover(d: Draft, e: Escalation) {
    var a := Find(RequiredApprovals(d), (a: Approval) => a.checkpointKey == e.fromCheckpointKey);
    a.Some? && a.value.approverRole == e.targetRole
  }

  /** Lines 1678 to 1700. */
  function CheckRollbackEnds(d: Draft): Option<Rejection> {
    Then(Named(Find(d.rollbacks, (k: Rollback) => !KnownCheckpoint(d, k.fromCheckpointKey)),
               k => RollbackFromUnknownCheckpoint(k)),
         Named(Find(d.rollbacks, (k: Rollback) => !Some?(d.children, (c: Child) => c.systemKey == k.targetSystemKey)),
               k => RollbackToUnknownSystem(k)))
  }

  /** Lines 1702 to 1758. */
  function CheckChildBindings(d: Draft): Option<Rejection> {
    Then(Named(Find(d.children, (c: Child) => !Some?(d.bindings, (b: Binding) => Binds(b, c))),
               c => ChildWithoutBinding(c)),
    Then(Named(Find(d.children, (c: Child) => c.approvalRequired && BindingGated(d, c, false)),
               c => GatedChildOnUngatedBinding(c)),
         Named(Find(d.children, (c: Child) => !c.approvalRequired && BindingGated(d, c, true)),
               c => UngatedChildOnGatedBinding(c))))
  }

  /** Lines 1760 to 1776. */
  function CheckBindingUse(d: Draft): Option<Rejection> {
    Named(Find(d.bindings, (b: Binding) => b.approvalRequired
                 && !Some?(d.children, (c: Child) => c.approvalRequired && Binds(b, c))),
          b => GatedBindingWithoutChild(b))
  }

  /** Lines 1778 to 1792. */
  function CheckRollbackUse(d: Draft): Option<Rejection> {
    Named(Find(d.rollbacks, (k: Rollback) => !Some?(d.children,
                 (c: Child) => Guards(k.fromCheckpointKey, c) && c.systemKey == k.targetSystemKey)),
          k => RollbackWithoutChild(k))
  }

  /** The verdict on a draft: None accepts it. */
  function Check(d: Draft): Option<Rejection> {
    Then(CheckLists(d),
    Then(CheckApprovalPresence(d),
    Then(CheckChildCheckpoints(d),
    Then(CheckApprovalUse(d),
    Then(CheckEscalations(d),
    Then(CheckRollbackEnds(d),
    Then(CheckChildBindings(d),
    Then(CheckBindingUse(d),
         CheckRollbackUse(d)))))))))
  }

  /** The same verdict without the two groups at 1570-1586 and 1678-1700. */
  function ShortCheck(d: Draft): Option<Rejection> {
    Then(CheckLists(d),
    Then(CheckChildCheckpoints(d),
    Then(CheckApprovalUse(d),
    Then(CheckEscalations(d),
    Then(CheckChildBindings(d),
    Then(CheckBindingUse(d),
         CheckRollbackUse(d)))))))
  }

  // The contracts meant: every cross reference resolves, uniquely, and gating agrees along it.

  ghost predicate ListsSound(d: Draft) {
    && |d.children| > 0
    && Distinct(d.bindings, Pair) && Distinct(d.approvals, Checkpoint) && Distinct(d.children, Route)
    && Distinct(d.escalations, EscalationRoute) && Distinct(d.rollbacks, RollbackRoute)
    && forall a :: a in d.approvals ==> a.required
  }

  ghost predicate HasApproval(d: Draft, checkpoint: string) {
    exists a :: a in d.approvals && a.checkpointKey == checkpoint
  }

  ghost predicate ChildrenGated(d: Draft) {
    forall c :: c in d.children ==>
      if c.approvalRequired then c.approvalCheckpointKey != "" && HasApproval(d, c.approvalCheckpointKey)
      else c.approvalCheckpointKey == ""
  }

  ghost predicate ApprovalsServed(d: Draft) {
    forall a :: a in d.approvals ==> exists c :: c in d.children && Guards(a.checkpointKey, c)
  }

  ghost predicate EscalationsLeave(d: Draft) {
    forall e :: e in d.escalations ==>
      exists a :: a in d.approvals && a.checkpointKey == e.fromCheckpointKey && a.approverRole != e.targetRole
  }

  ghost predicate ChildrenBound(d: Draft) {
    forall c :: c in d.children ==>
      exists b :: b in d.bindings && Binds(b, c) && b.approvalRequired == c.approvalRequired
  }

  ghost predicate GatedBindingsUsed(d: Draft) {
    forall b :: b in d.bindings && b.approvalRequired ==> exists c :: c in d.children && Binds(b, c)
  }

  ghost predicate RollbacksLand(d: Draft) {
    forall k :: k in d.rollbacks ==>
      exists c :: c in d.children && Guards(k.fromCheckpointKey, c) && c.systemKey == k.targetSystemKey
  }

  ghost predicate WellFormed(d: Draft) {
    && ListsSound(d)
    && ChildrenGated(d) && ApprovalsServed(d) && EscalationsLeave(d)
    && ChildrenBound(d) && GatedBindingsUsed(d) && RollbacksLand(d)
  }

  /** Two bindings of one child are one binding. */
  lemma BindingOfChildIsUnique(d: Draft, a: Binding, b: Binding, c: Child)
    requires Distinct(d.bindings, Pair)
    requires a in d.bindings && b in d.bindings && Binds(a, c) && Binds(b, c)
    ensures a == b
  {
    var i :| 0 <= i < |d.bindings| && d.bindings[i] == a;
    var j :| 0 <= j < |d.bindings| && d.bindings[j] == b;
    assert Pair(a) == Pair(b);
  }

  lemma ApprovalOfCheckpointIsUnique(d: Draft, a: Approval, b: Approval)
    requires Distinct(d.approvals, Checkpoint)
    requires a in d.approvals && b in d.approvals && a.checkpointKey == b.checkpointKey
    ensures a == b
  {
    var i :| 0 <= i < |d.approvals| && d.approvals[i] == a;
    var j :| 0 <= j < |d.approvals| && d.approvals[j] == b;
    assert Checkpoint(a) == Checkpoint(b);
  }

  lemma KnownMeansApproved(d: Draft, checkpoint: string)
    requires forall a :: a in d.approvals ==> a.required
    ensures KnownCheckpoint(d, checkpoint) <==> HasApproval(d, checkpoint)
  {
    FilterAll(d.approvals, (a: Approval) => a.required);
  }

  lemma ListsVerdict(d: Draft)
    ensures CheckLists(d).None? <==> ListsSound(d)
  {
  }

  lemma ChildCheckpointsVerdict(d: Draft)
    requires ListsSound(d)
    ensures CheckChildCheckpoints(d).None? <==> ChildrenGated(d)
  {
    forall c | c in d.children
      ensures KnownCheckpoint(d, c.approvalCheckpointKey) <==> HasApproval(d, c.approvalCheckpointKey)
    {
      KnownMeansApproved(d, c.approvalCheckpointKey);
    }
  }

  lemma ApprovalUseVerdict(d: Draft)
    requires ListsSound(d)
    ensures CheckApprovalUse(d).None? <==> ApprovalsServed(d)
  {
    FilterAll(d.approvals, (a: Approval) => a.required);
  }

  lemma EscalationsVerdict(d: Draft)
    requires ListsSound(d)
    ensures CheckEscalations(d).None? <==> EscalationsLeave(d)
  {
    forall e | e in d.escalations
      ensures (KnownCheckpoint(d, e.fromCheckpointKey) && !TargetsApprover(d, e)) <==>
              exists a :: a in d.approvals && a.checkpointKey == e.fromCheckpointKey && a.approverRole != e.targetRole
    {
      EscalationVerdict(d, e);
    }
  }

  lemma EscalationVerdict(d: Draft, e: Escalation)
    requires ListsSound(d)
    ensures (KnownCheckpoint(d, e.fromCheckpointKey) && !TargetsApprover(d, e)) <==>
            exists a :: a in d.approvals && a.checkpointKey == e.fromCheckpointKey && a.approverRole != e.targetRole
  {
    KnownMeansApproved(d, e.fromCheckpointKey);
    FilterAll(d.approvals, (a: Approval) => a.required);
    var found := Find(d.approvals, (a: Approval) => a.checkpointKey == e.fromCheckpointKey);
    if found.Some? {
      forall a | a in d.approvals && a.checkpointKey == e.fromCheckpointKey ensures a == found.value {
        ApprovalOfCheckpointIsUnique(d, found.value, a);
      }
    }
  }

  lemma ChildBindingsVerdict(d: Draft)
    requires ListsSound(d)
    ensures CheckChildBindings(d).None? <==> ChildrenBound(d)
  {
    forall c | c in d.children
      ensures (Some?(d.bindings, (b: Binding) => Binds(b, c)) && !BindingGated(d, c, !c.approvalRequired)) <==>
              exists b :: b in d.bindings && Binds(b, c) && b.approvalRequired == c.approvalRequired
    {
      var found := Find(d.bindings, (b: Binding) => Binds(b, c));
      if found.Some? {
        forall b | b in d.bindings && Binds(b, c) ensures b == found.value {
          BindingOfChildIsUnique(d, found.value, b, c);
        }
      }
    }
  }

  lemma BindingUseVerdict(d: Draft)
    requires ListsSound(d) && ChildrenBound(d)
    ensures CheckBindingUse(d).None? <==> GatedBindingsUsed(d)
  {
    forall b, c | b in d.bindings && c in d.children && Binds(b, c)
      ensures b.approvalRequired == c.approvalRequired
    {
      var b' :| b' in d.bindings && Binds(b', c) && b'.approvalRequired == c.approvalRequired;
      BindingOfChildIsUnique(d, b, b', c);
    }
  }

  lemma RollbackUseVerdict(d: Draft)
    ensures CheckRollbackUse(d).None? <==> RollbacksLand(d)
  {
  }

  lemma ShortCheckAcceptsExactlyTheWellFormed(d: Draft)
    ensures ShortCheck(d).None? <==> WellFormed(d)
  {
    ListsVerdict(d);
    if ListsSound(d) {
      ChildCheckpointsVerdict(d);
      ApprovalUseVerdict(d);
      EscalationsVerdict(d);
      ChildBindingsVerdict(d);
      RollbackUseVerdict(d);
      if ChildrenBound(d) {
        BindingUseVerdict(d);
      }
    }
  }

  lemma WellFormedPassesPresence(d: Draft)
    requires ListsSound(d) && ChildrenGated(d) && ApprovalsServed(d)
    ensures CheckApprovalPresence(d).None?
  {
    FilterAll(d.approvals, (a: Approval) => a.required);
    if d.approvals != [] {
      var c :| c in d.children && Guards(d.approvals[0].checkpointKey, c);
    }
    var gated := Find(d.children, (c: Child) => c.approvalRequired);
    if gated.Some? {
      assert HasApproval(d, gated.value.approvalCheckpointKey);
    }
  }

  lemma WellFormedPassesRollbackEnds(d: Draft)
    requires ListsSound(d) && ChildrenGated(d) && RollbacksLand(d)
    ensures CheckRollbackEnds(d).None?
  {
    forall k | k in d.rollbacks ensures KnownCheckpoint(d, k.fromCheckpointKey) {
      KnownMeansApproved(d, k.fromCheckpointKey);
    }
  }

  /** Four of the checks only choose a message: the others already accept exactly the same drafts. */
  lemma PresenceAndRollbackEndChecksAreImplied(d: Draft)
    ensures Check(d).None? <==> ShortCheck(d).None?
  {
    hide CheckLists, CheckApprovalPresence, CheckChildCheckpoints, CheckApprovalUse, CheckEscalations,
         CheckRollbackEnds, CheckChildBindings, CheckBindingUse, CheckRollbackUse;
    if ShortCheck(d).None? {
      ShortAcceptanceSuffices(d);
    }
  }

  lemma ShortAcceptanceSuffices(d: Draft)
    requires ShortCheck(d).None?
    ensures CheckApprovalPresence(d).None? && CheckRollbackEnds(d).None?
  {
    ShortCheckAcceptsExactlyTheWellFormed(d);
    WellFormedPassesPresence(d);
    WellFormedPassesRollbackEnds(d);
  }

  /** The validator is sound and complete for well-formedness. */
  lemma CheckAcceptsExactlyTheWellFormed(d: Draft)
    ensures Check(d).None? <==> WellFormed(d)
  {
    PresenceAndRollbackEndChecksAreImplied(d);
    ShortCheckAcceptsExactlyTheWellFormed(d);
  }

  /** The defect each rejection reports, in the contract's own terms. */
  ghost predicate Defect(d: Draft, r: Rejection) {
    match r
    case NoChildWorkflow => |d.children| == 0
    case DuplicateBinding(b) =>
      exists i, j :: 0 <= i < j < |d.bindings| && d.bindings[j] == b
                     && d.bindings[i].runtimeKey == b.runtimeKey && d.bindings[i].systemKey == b.systemKey
    case DuplicateCheckpoint(a) =>
      exists i, j :: 0 <= i < j < |d.approvals| && d.approvals[j] == a
                     && d.approvals[i].checkpointKey == a.checkpointKey
    case DuplicateChildRoute(c) =>
      exists i, j :: 0 <= i < j < |d.children| && d.children[j] == c && d.children[i].workflowKey == c.workflowKey
                     && d.children[i].runtimeKey == c.runtimeKey && d.children[i].systemKey == c.systemKey
    case DuplicateEscalationRoute(e) =>
      exists i, j :: 0 <= i < j < |d.escalations| && d.escalations[j] == e
                     && d.escalations[i].fromCheckpointKey == e.fromCheckpointKey
                     && d.escalations[i].targetRole == e.targetRole
    case DuplicateRollbackRoute(k) =>
      exists i, j :: 0 <= i < j < |d.rollbacks| && d.rollbacks[j] == k
                     && d.rollbacks[i].fromCheckpointKey == k.fromCheckpointKey
                     && d.rollbacks[i].targetSystemKey == k.targetSystemKey
    case OptionalApproval(a) => a in d.approvals && !a.required
    case GatedChildrenWithoutApproval =>
      (exists c :: c in d.children && c.approvalRequired) && forall a :: a in d.approvals ==> !a.required
    case ApprovalsWithoutGatedChild => d.approvals != [] && forall c :: c in d.children ==> !c.approvalRequired
    case GatedChildWithoutCheckpoint(c) => c in d.children && c.approvalRequired && c.approvalCheckpointKey == ""
    case UngatedChildWithCheckpoint(c) => c in d.children && !c.approvalRequired && c.approvalCheckpointKey != ""
    case GatedChildWithUnknownCheckpoint(c) =>
      c in d.children && c.approvalRequired && !Approves(d, c.approvalCheckpointKey)
    case ApprovalWithoutChild(a) =>
      a in d.approvals
      && forall c :: c in d.children && c.approvalRequired ==> c.approvalCheckpointKey != a.checkpointKey
    case EscalationFromUnknownCheckpoint(e) => e in d.escalations && !Approves(d, e.fromCheckpointKey)
    case EscalationToSameRole(e) =>
      e in d.escalations
      && exists a :: a in d.approvals && a.checkpointKey == e.fromCheckpointKey && a.approverRole == e.targetRole
    case RollbackFromUnknownCheckpoint(k) => k in d.rollbacks && !Approves(d, k.fromCheckpointKey)
    case RollbackToUnknownSystem(k) =>
      k in d.rollbacks && forall c :: c in d.children ==> c.systemKey != k.targetSystemKey
    case ChildWithoutBinding(c) =>
      c in d.children
      && forall b :: b in d.bindings ==> b.runtimeKey != c.runtimeKey || b.systemKey != c.systemKey
    case GatedChildOnUngatedBinding(c) =>
      c in d.children && c.approvalRequired
      && exists b :: b in d.bindings && b.runtimeKey == c.runtimeKey && b.systemKey == c.systemKey
                     && !b.approvalRequired
    case UngatedChildOnGatedBinding(c) =>
      c in d.children && !c.approvalRequired
      && exists b :: b in d.bindings && b.runtimeKey == c.runtimeKey && b.systemKey == c.systemKey
                     && b.approvalRequired
    case GatedBindingWithoutChild(b) =>
      b in d.bindings && b.approvalRequired
      && forall c :: c in d.children && c.runtimeKey == b.runtimeKey && c.systemKey == b.systemKey ==>
           !c.approvalRequired
    case RollbackWithoutChild(k) =>
      k in d.rollbacks
      && forall c :: c in d.children && c.approvalRequired && c.approvalCheckpointKey == k.fromCheckpointKey ==>
           c.systemKey != k.targetSystemKey
  }

  ghost predicate Approves(d: Draft, checkpoint: string) {
    exists a :: a in d.approvals && a.required && a.checkpointKey == checkpoint
  }

  lemma KnownMeansApproves(d: Draft, checkpoint: string)
    ensures KnownCheckpoint(d, checkpoint) <==> Approves(d, checkpoint)
  {
    if Approves(d, checkpoint) {
      var a :| a in d.approvals && a.required && a.checkpointKey == checkpoint;
      assert a in RequiredApprovals(d);
    }
  }

  /** A refusal names a defect the contract really has. */
  lemma RejectionsAreGenuine(d: Draft)
    ensures Check(d).Some? ==> Defect(d, Check(d).value)
  {
    ListRejectionsAreGenuine(d);
    PresenceRejectionsAreGenuine(d);
    CheckpointRejectionsAreGenuine(d);
    EscalationRejectionsAreGenuine(d);
    RollbackEndRejectionsAreGenuine(d);
    BindingRejectionsAreGenuine(d);
    UseRejectionsAreGenuine(d);
    hide Defect, CheckLists, CheckApprovalPresence, CheckChildCheckpoints, CheckApprovalUse, CheckEscalations,
         CheckRollbackEnds, CheckChildBindings, CheckBindingUse, CheckRollbackUse;
  }

  lemma ListRejectionsAreGenuine(d: Draft)
    ensures CheckLists(d).Some? ==> Defect(d, CheckLists(d).value)
  {
  }

  lemma PresenceRejectionsAreGenuine(d: Draft)
    ensures CheckApprovalPresence(d).Some? ==> Defect(d, CheckApprovalPresence(d).value)
  {
    assert forall a :: a in d.approvals && a.required ==> a in RequiredApprovals(d);
  }

  lemma CheckpointRejectionsAreGenuine(d: Draft)
    ensures CheckChildCheckpoints(d).Some? ==> Defect(d, CheckChildCheckpoints(d).value)
  {
    forall c | c in d.children
      ensures KnownCheckpoint(d, c.approvalCheckpointKey) <==> Approves(d, c.approvalCheckpointKey)
    {
      KnownMeansApproves(d, c.approvalCheckpointKey);
    }
  }

  lemma EscalationRejectionsAreGenuine(d: Draft)
    ensures CheckEscalations(d).Some? ==> Defect(d, CheckEscalations(d).value)
  {
    forall e | e in d.escalations
      ensures KnownCheckpoint(d, e.fromCheckpointKey) <==> Approves(d, e.fromCheckpointKey)
    {
      KnownMeansApproves(d, e.fromCheckpointKey);
    }
  }

  lemma RollbackEndRejectionsAreGenuine(d: Draft)
    ensures CheckRollbackEnds(d).Some? ==> Defect(d, CheckRollbackEnds(d).value)
  {
    forall k | k in d.rollbacks
      ensures KnownCheckpoint(d, k.fromCheckpointKey) <==> Approves(d, k.fromCheckpointKey)
    {
      KnownMeansApproves(d, k.fromCheckpointKey);
    }
  }

  lemma BindingRejectionsAreGenuine(d: Draft)
    ensures CheckChildBindings(d).Some? ==> Defect(d, CheckChildBindings(d).value)
  {
  }

  lemma UseRejectionsAreGenuine(d: Draft)
    ensures CheckApprovalUse(d).Some? ==> Defect(d, CheckApprovalUse(d).value)
    ensures CheckBindingUse(d).Some? ==> Defect(d, CheckBindingUse(d).value)
    ensures CheckRollbackUse(d).Some? ==> Defect(d, CheckRollbackUse(d).value)
  {
    ApprovalUseRejectionIsGenuine(d);
    BindingUseRejectionIsGenuine(d);
    RollbackUseRejectionIsGenuine(d);
  }

  lemma ApprovalUseRejectionIsGenuine(d: Draft)
    ensures CheckApprovalUse(d).Some? ==> Defect(d, CheckApprovalUse(d).value)
  {
  }

  lemma BindingUseRejectionIsGenuine(d: Draft)
    ensures CheckBindingUse(d).Some? ==> Defect(d, CheckBindingUse(d).value)
  {
  }

  lemma RollbackUseRejectionIsGenuine(d: Draft)
    ensures CheckRollbackUse(d).Some? ==> Defect(d, CheckRollbackUse(d).value)
  {
  }

  // The order of the refusals.

  /** The place of a refusal among the checks. */
  function Rank(r: Rejection): nat {
    match r
    case NoChildWorkflow => 1
    case DuplicateBinding(_) => 2
    case DuplicateCheckpoint(_) => 3
    case DuplicateChildRoute(_) => 4
    case DuplicateEscalationRoute(_) => 5
    case DuplicateRollbackRoute(_) => 6
    case OptionalApproval(_) => 7
    case GatedChildrenWithoutApproval => 8
    case ApprovalsWithoutGatedChild => 9
    case GatedChildWithoutCheckpoint(_) => 10
    case UngatedChildWithCheckpoint(_) => 11
    case GatedChildWithUnknownCheckpoint(_) => 12
    case ApprovalWithoutChild(_) => 13
    case EscalationFromUnknownCheckpoint(_) => 14
    case EscalationToSameRole(_) => 15
    case RollbackFromUnknownCheckpoint(_) => 16
    case RollbackToUnknownSystem(_) => 17
    case ChildWithoutBinding(_) => 18
    case GatedChildOnUngatedBinding(_) => 19
    case UngatedChildOnGatedBinding(_) => 20
    case GatedBindingWithoutChild(_) => 21
    case RollbackWithoutChild(_) => 22
  }

  /** A group of checks stands for the defects of the given ranks: it misses none, and reports none of a later rank. */
  ghost predicate ReportsFirst(d: Draft, verdict: Option<Rejection>, first: nat, last: nat) {
    && (verdict.Some? ==> first <= Rank(verdict.value) <= last)
    && forall r :: first <= Rank(r) <= last && Defect(d, r) ==> verdict.Some? && Rank(verdict.value) <= Rank(r)
  }

  /** A refused contract has no defect that an earlier check is for. */
  lemma FirstDefectDecides(d: Draft)
    ensures ReportsFirst(d, Check(d), 1, 22)
  {
    hide CheckLists, CheckApprovalPresence, CheckChildCheckpoints, CheckApprovalUse, CheckEscalations,
         CheckRollbackEnds, CheckChildBindings, CheckBindingUse, CheckRollbackUse, Defect, Rank;
    ListsReportFirst(d);
    RanksEnd();
    if CheckLists(d).None? {
      ListsVerdict(d);
      PresenceReportsFirst(d);
      CheckpointsReportFirst(d);
      ApprovalUseReportsFirst(d);
      EscalationsReportFirst(d);
      RollbackEndsReportFirst(d);
      ChildBindingsReportFirst(d);
      BindingUseReportsFirst(d);
      RollbackUseReportsFirst(d);
    }
  }

  lemma RanksEnd()
    ensures forall r :: 1 <= Rank(r) <= 22
  {
  }

  lemma ListsReportFirst(d: Draft)
    ensures ReportsFirst(d, CheckLists(d), 1, 7)
  {
    hide Find, FindDuplicate;
  }

  lemma PresenceReportsFirst(d: Draft)
    requires ListsSound(d)
    ensures ReportsFirst(d, CheckApprovalPresence(d), 8, 9)
  {
    hide Filter, Find;
    AllAreRequired(d);
    assert d.approvals != [] ==> d.approvals[0] in d.approvals;
  }

  lemma CheckpointsReportFirst(d: Draft)
    requires ListsSound(d)
    ensures ReportsFirst(d, CheckChildCheckpoints(d), 10, 12)
  {
    hide ListsSound, KnownCheckpoint, Approves, Find;
    forall c | c in d.children
      ensures KnownCheckpoint(d, c.approvalCheckpointKey) <==> Approves(d, c.approvalCheckpointKey)
    {
      KnownMeansApproves(d, c.approvalCheckpointKey);
    }
  }

  lemma ApprovalUseReportsFirst(d: Draft)
    requires ListsSound(d)
    ensures ReportsFirst(d, CheckApprovalUse(d), 13, 13)
  {
    hide ListsSound, Find, Filter;
    AllAreRequired(d);
  }

  lemma AllAreRequired(d: Draft)
    requires ListsSound(d)
    ensures RequiredApprovals(d) == d.approvals
  {
    FilterAll(d.approvals, (a: Approval) => a.required);
  }

  lemma EscalationsReportFirst(d: Draft)
    requires ListsSound(d)
    ensures ReportsFirst(d, CheckEscalations(d), 14, 15)
  {
    hide ListsSound, KnownCheckpoint, Approves, Find, TargetsApprover;
    forall e | e in d.escalations
      ensures KnownCheckpoint(d, e.fromCheckpointKey) <==> Approves(d, e.fromCheckpointKey)
    {
      KnownMeansApproves(d, e.fromCheckpointKey);
    }
    forall e | Defect(d, EscalationToSameRole(e)) ensures TargetsApprover(d, e) {
      SameRoleIsTargeted(d, e);
    }
  }

  lemma SameRoleIsTargeted(d: Draft, e: Escalation)
    requires ListsSound(d) && Defect(d, EscalationToSameRole(e))
    ensures TargetsApprover(d, e)
  {
    FilterAll(d.approvals, (a: Approval) => a.required);
    var a :| a in d.approvals && a.checkpointKey == e.fromCheckpointKey && a.approverRole == e.targetRole;
    var found := Find(d.approvals, (a: Approval) => a.checkpointKey == e.fromCheckpointKey);
    ApprovalOfCheckpointIsUnique(d, found.value, a);
  }

  lemma RollbackEndsReportFirst(d: Draft)
    ensures ReportsFirst(d, CheckRollbackEnds(d), 16, 17)
  {
    hide KnownCheckpoint, Approves, Find;
    forall k | k in d.rollbacks
      ensures KnownCheckpoint(d, k.fromCheckpointKey) <==> Approves(d, k.fromCheckpointKey)
    {
      KnownMeansApproves(d, k.fromCheckpointKey);
    }
  }

  lemma ChildBindingsReportFirst(d: Draft)
    requires ListsSound(d)
    ensures ReportsFirst(d, CheckChildBindings(d), 18, 20)
  {
    hide ListsSound, BindingGated, Find;
    forall c, b | c in d.children && b in d.bindings && Binds(b, c)
      ensures BindingGated(d, c, b.approvalRequired)
    {
      BindingOfChildIsGated(d, c, b);
    }
  }

  lemma BindingOfChildIsGated(d: Draft, c: Child, b: Binding)
    requires ListsSound(d) && b in d.bindings && Binds(b, c)
    ensures BindingGated(d, c, b.approvalRequired)
  {
    var found := Find(d.bindings, (b: Binding) => Binds(b, c));
    BindingOfChildIsUnique(d, found.value, b, c);
  }

  lemma BindingUseReportsFirst(d: Draft)
    ensures ReportsFirst(d, CheckBindingUse(d), 21, 21)
  {
    hide Find;
  }

  lemma RollbackUseReportsFirst(d: Draft)
    ensures ReportsFirst(d, CheckRollbackUse(d), 22, 22)
  {
    hide Find;
  }

  /** A contract is well-formed exactly when it has no defect of any kind. */
  lemma WellFormedIffNoDefect(d: Draft)
    ensures WellFormed(d) <==> forall r :: !Defect(d, r)
  {
    hide Check, Defect, WellFormed, Rank;
    CheckAcceptsExactlyTheWellFormed(d);
    FirstDefectDecides(d);
    RejectionsAreGenuine(d);
    RanksEnd();
  }
}
