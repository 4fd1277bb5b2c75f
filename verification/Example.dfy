/** Submissions with two approvals, a child waiting for each, and two children that wait for nothing. */
module Example {
  import opened Wrappers
  import opened Lists
  import opened Text
  import opened Contracts
  import opened Validation
  import opened Topology
  import opened Plans

  /**
   The names in a submission: a workflow and its runtime, four systems, two checkpoints, the roles that hold them and
   take them over, and the keys of an escalation and a rollback.
   */
  datatype Names = Names(workflow: string, runtime: string, a: string, b: string, c: string, d: string,
                         x: string, y: string, owner: string, lead: string, escalation: string, rollback: string)

  /** A text that normalising leaves alone and does not count as missing. */
  predicate Proper(s: string) { s != "" && Trimmed(s) }

  predicate AllProper(n: Names) {
    && Proper(n.workflow) && Proper(n.runtime) && Proper(n.a) && Proper(n.b) && Proper(n.c) && Proper(n.d)
    && Proper(n.x) && Proper(n.y) && Proper(n.owner) && Proper(n.lead) && Proper(n.escalation) && Proper(n.rollback)
  }

  predicate Different(n: Names) {
    && n.a != n.b && n.a != n.c && n.a != n.d && n.b != n.c && n.b != n.d && n.c != n.d
    && n.x != n.y && n.owner != n.lead
  }

  function Bound(n: Names, system: string, gated: bool): Binding { Binding(n.runtime, system, "", gated) }
  function Waiting(n: Names, system: string, checkpoint: string): Child {
    Child(n.workflow, n.runtime, system, "", true, checkpoint)
  }
  function Free(n: Names, system: string): Child { Child(n.workflow, n.runtime, system, "", false, "") }
  function Held(n: Names, checkpoint: string): Approval { Approval(checkpoint, n.owner, "", "", true) }

  function Sample(n: Names): Draft {
    Draft([Bound(n, n.a, true), Bound(n, n.b, true), Bound(n, n.c, false), Bound(n, n.d, false)],
          [Waiting(n, n.a, n.x), Waiting(n, n.b, n.y), Free(n, n.c), Free(n, n.d)],
          [Held(n, n.x), Held(n, n.y)],
          [Escalation(n.escalation, n.x, n.lead, "", 0.0)],
          [Rollback(n.rollback, n.y, n.b, "", false)])
  }

  /**
   The assumptions of the theorems about runs can be met, all of them at once, by contracts that reach the runtime:
   sent as they stand, they are their own normal form.
   */
  lemma SampleMeetsAssumptions(n: Names)
    requires AllProper(n) && Different(n)
    ensures NormalForm(Resend(Sample(n))) == Sample(n)
    ensures WellFormed(Sample(n)) && Sound(PlanOf(Sample(n)))
    ensures GatedBy(Sample(n), 0, 0) && GatedBy(Sample(n), 1, 1) && !Gated(Sample(n), 2) && !Gated(Sample(n), 3)
  {
    hide ListsSound, ChildrenGated, ApprovalsServed, EscalationsLeave, ChildrenBound, GatedBindingsUsed, RollbacksLand,
         Sample, Sound, PlanOf, GatedBy, Gated, NormalForm, Resend;
    SampleIsNormal(n);
    ListsAreSound(n);
    CheckpointsResolve(n);
    BindingsResolve(n);
    SampleGates(n);
    SampleIsSound(n);
  }

  lemma SampleIsSound(n: Names)
    requires WellFormed(Sample(n))
    ensures Sound(PlanOf(Sample(n)))
  {
    hide WellFormed, Sample, Sound, PlanOf;
    PlanIsSoundIff(Sample(n));
  }

  // Well-formedness.

  lemma ListsAreSound(n: Names)
    requires Different(n)
    ensures ListsSound(Sample(n))
  {
  }

  lemma CheckpointsResolve(n: Names)
    requires AllProper(n) && Different(n)
    ensures ChildrenGated(Sample(n)) && ApprovalsServed(Sample(n))
    ensures EscalationsLeave(Sample(n)) && RollbacksLand(Sample(n))
  {
    hide Trimmed;
    var c, a := Sample(n).children, Sample(n).approvals;
    assert a[0] in a && a[1] in a && c[0] in c && c[1] in c;
    assert Guards(n.x, c[0]) && Guards(n.y, c[1]);
  }

  lemma BindingsResolve(n: Names)
    requires Different(n)
    ensures ChildrenBound(Sample(n)) && GatedBindingsUsed(Sample(n))
  {
    var b, c := Sample(n).bindings, Sample(n).children;
    assert b[0] in b && b[1] in b && b[2] in b && b[3] in b;
    assert c[0] in c && c[1] in c && c[2] in c && c[3] in c;
    assert Binds(b[0], c[0]) && Binds(b[1], c[1]) && Binds(b[2], c[2]) && Binds(b[3], c[3]);
  }

  lemma SampleGates(n: Names)
    requires Different(n)
    ensures |Sample(n).children| == 4
    ensures GatedBy(Sample(n), 0, 0) && GatedBy(Sample(n), 1, 1) && !Gated(Sample(n), 2) && !Gated(Sample(n), 3)
  {
    var a := Sample(n).approvals;
    assert a[0].checkpointKey == n.x && a[1].checkpointKey == n.y;
  }

  // Normal form.

  lemma SampleIsNormal(n: Names)
    requires AllProper(n) && Different(n)
    ensures NormalForm(Resend(Sample(n))) == Sample(n)
  {
    hide Proper, BindingText, ChildText, ApprovalText, EscalationText, RollbackText, CleanBinding, CleanChild,
         CleanApproval, CleanEscalation, CleanRollback, ResendBinding, ResendChild, ResendApproval, ResendEscalation,
         ResendRollback, CompleteBinding, CompleteChild, CompleteApproval, CompleteEscalation, CompleteRollback;
    var d := Sample(n);
    BindingsAreNormal(n, d.bindings);
    ChildrenAreNormal(n, d.children);
    ApprovalsAreNormal(n, d.approvals);
    EscalationIsNormal(n);
    RollbackIsNormal(n);
    NormalListIsFixed(d.bindings, ResendBinding, CleanBinding, CompleteBinding, BindingText);
    NormalListIsFixed(d.children, ResendChild, CleanChild, CompleteChild, ChildText);
    NormalListIsFixed(d.approvals, ResendApproval, CleanApproval, CompleteApproval, ApprovalText);
    NormalListIsFixed(d.escalations, ResendEscalation, CleanEscalation, CompleteEscalation, EscalationText);
    NormalListIsFixed(d.rollbacks, ResendRollback, CleanRollback, CompleteRollback, RollbackText);
  }

  lemma ProperIsKept(s: string)
    requires Proper(s) || s == ""
    ensures TrimmedText(Some(s)) == s
  {
    hide Trim;
    TrimLaws(s);
  }

  /** Texts joined behind the same beginning, or before the same end, are as different as what was joined. */
  lemma JoinedDiffers(a: string, x: string, b: string, y: string)
    ensures a == b && x != y ==> Joined(a, x) != Joined(b, y)
    ensures a != b && x == y ==> Joined(a, x) != Joined(b, y)
  {
    var l, r := Joined(a, x), Joined(b, y);
    if a == b && l == r {
      assert l[|a| + 2..] == x && r[|b| + 2..] == y;
    }
    if x == y && l == r {
      assert l[..|a|] == a && r[..|b|] == b;
    }
  }

  predicate SampleBinding(n: Names, b: Binding) {
    b.runtimeKey == n.runtime && Proper(b.systemKey) && b.deliveryMode == ""
  }

  lemma BindingIsNormal(n: Names, b: Binding)
    requires AllProper(n) && SampleBinding(n, b)
    ensures CleanBinding(ResendBinding(b)) == b && CompleteBinding(b)
  {
    hide TrimmedText, Trimmed;
    ProperIsKept(b.runtimeKey);
    ProperIsKept(b.systemKey);
    ProperIsKept("");
  }

  lemma BindingTextDiffers(n: Names, a: Binding, b: Binding)
    requires SampleBinding(n, a) && SampleBinding(n, b) && a.systemKey != b.systemKey
    ensures BindingText(a) != BindingText(b)
  {
    hide Joined, Proper;
    JoinedDiffers(a.systemKey, "", b.systemKey, "");
    JoinedDiffers(n.runtime, Joined(a.systemKey, ""), n.runtime, Joined(b.systemKey, ""));
  }

  lemma BindingsAreNormal(n: Names, list: seq<Binding>)
    requires AllProper(n) && Different(n) && list == Sample(n).bindings
    ensures Distinct(list, BindingText)
    ensures forall b :: b in list ==> CleanBinding(ResendBinding(b)) == b && CompleteBinding(b)
  {
    hide BindingText, CleanBinding, ResendBinding, CompleteBinding, Proper;
    forall i, j | 0 <= i < j < |list| ensures BindingText(list[i]) != BindingText(list[j]) {
      BindingTextDiffers(n, list[i], list[j]);
    }
    forall b | b in list ensures CleanBinding(ResendBinding(b)) == b && CompleteBinding(b) {
      BindingIsNormal(n, b);
    }
  }

  predicate SampleChild(n: Names, c: Child) {
    && c.workflowKey == n.workflow && c.runtimeKey == n.runtime && Proper(c.systemKey) && c.triggerMode == ""
    && (Proper(c.approvalCheckpointKey) || c.approvalCheckpointKey == "")
  }

  lemma ChildIsNormal(n: Names, c: Child)
    requires AllProper(n) && SampleChild(n, c)
    ensures CleanChild(ResendChild(c)) == c && CompleteChild(c)
  {
    hide TrimmedText, Trimmed;
    ProperIsKept(c.workflowKey);
    ProperIsKept(c.runtimeKey);
    ProperIsKept(c.systemKey);
    ProperIsKept(c.approvalCheckpointKey);
    ProperIsKept("");
  }

  lemma ChildTextDiffers(n: Names, a: Child, b: Child)
    requires SampleChild(n, a) && SampleChild(n, b) && a.systemKey != b.systemKey
    ensures ChildText(a) != ChildText(b)
  {
    hide Joined, Proper;
    JoinedDiffers(a.systemKey, "", b.systemKey, "");
    JoinedDiffers(n.runtime, Joined(a.systemKey, ""), n.runtime, Joined(b.systemKey, ""));
    JoinedDiffers(n.workflow, Joined(n.runtime, Joined(a.systemKey, "")),
                  n.workflow, Joined(n.runtime, Joined(b.systemKey, "")));
  }

  lemma ChildrenAreNormal(n: Names, list: seq<Child>)
    requires AllProper(n) && Different(n) && list == Sample(n).children
    ensures Distinct(list, ChildText)
    ensures forall c :: c in list ==> CleanChild(ResendChild(c)) == c && CompleteChild(c)
  {
    hide ChildText, CleanChild, ResendChild, CompleteChild, Proper;
    forall i, j | 0 <= i < j < |list| ensures ChildText(list[i]) != ChildText(list[j]) {
      ChildTextDiffers(n, list[i], list[j]);
    }
    forall c | c in list ensures CleanChild(ResendChild(c)) == c && CompleteChild(c) {
      ChildIsNormal(n, c);
    }
  }

  lemma ApprovalIsNormal(n: Names, checkpoint: string)
    requires AllProper(n) && Proper(checkpoint)
    ensures CleanApproval(ResendApproval(Held(n, checkpoint))) == Held(n, checkpoint)
    ensures CompleteApproval(Held(n, checkpoint))
  {
    hide TrimmedText, Trimmed;
    ProperIsKept(checkpoint);
    ProperIsKept(n.owner);
    ProperIsKept("");
  }

  lemma ApprovalsAreNormal(n: Names, list: seq<Approval>)
    requires AllProper(n) && Different(n) && list == Sample(n).approvals
    ensures Distinct(list, ApprovalText)
    ensures forall a :: a in list ==> CleanApproval(ResendApproval(a)) == a && CompleteApproval(a)
  {
    hide CleanApproval, ResendApproval, CompleteApproval, Proper, Joined;
    var rest := Joined(n.owner, Joined("", ""));
    JoinedDiffers(n.x, rest, n.y, rest);
    ApprovalIsNormal(n, n.x);
    ApprovalIsNormal(n, n.y);
  }

  lemma EscalationIsNormal(n: Names)
    requires AllProper(n)
    ensures Distinct(Sample(n).escalations, EscalationText)
    ensures forall e :: e in Sample(n).escalations ==>
              CleanEscalation(ResendEscalation(e)) == e && CompleteEscalation(e)
  {
    hide TrimmedText, Trimmed;
    ProperIsKept(n.escalation);
    ProperIsKept(n.x);
    ProperIsKept(n.lead);
    ProperIsKept("");
  }

  lemma RollbackIsNormal(n: Names)
    requires AllProper(n)
    ensures Distinct(Sample(n).rollbacks, RollbackText)
    ensures forall k :: k in Sample(n).rollbacks ==> CleanRollback(ResendRollback(k)) == k && CompleteRollback(k)
  {
    hide TrimmedText, Trimmed;
    ProperIsKept(n.rollback);
    ProperIsKept(n.y);
    ProperIsKept(n.b);
    ProperIsKept("");
  }
}
