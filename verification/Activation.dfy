/**
 The size and shape of the emitted mutation batches: how many records an activation writes of each status, and that
 no batch ever speaks of one target twice, so the direction in which readers scan a batch does not matter.
 */
module Activation {
  import opened Wrappers
  import opened Lists
  import opened Contracts
  import opened Validation
  import opened Topology
  import opened Mutations
  import opened Effects

  // Counting.

  /** Blocks of equal size, each with one status, hold size records for every block of a status. */
  ghost predicate Uniform(blocks: seq<seq<Mutation>>, size: nat, statuses: seq<MutationStatus>) {
    && |blocks| == |statuses|
    && forall b :: 0 <= b < |blocks| ==>
         |blocks[b]| == size && forall m :: m in blocks[b] ==> m.mutationStatus == statuses[b]
  }

  function Occurrences(statuses: seq<MutationStatus>, status: MutationStatus): nat {
    |Filter(statuses, (s: MutationStatus) => s == status)|
  }

  lemma {:induction false} UniformCount(blocks: seq<seq<Mutation>>, size: nat, statuses: seq<MutationStatus>,
                                        status: MutationStatus)
    requires Uniform(blocks, size, statuses)
    ensures CountIn(Flatten(blocks), status) == size * Occurrences(statuses, status)
  {
    hide CountIn, Occurrences;
    if blocks == [] {
      CountNothing(status);
    } else {
      var head := if statuses[0] == status then 1 else 0;
      CountConcat(blocks[0], Flatten(blocks[1..]), status);
      CountBlock(blocks[0], statuses[0], status);
      UniformCount(blocks[1..], size, statuses[1..], status);
      OccurrencesHead(statuses, status);
      assert size * (head + Occurrences(statuses[1..], status)) ==
             size * head + size * Occurrences(statuses[1..], status);
    }
  }

  lemma CountNothing(status: MutationStatus)
    ensures CountIn([], status) == 0 && Occurrences([], status) == 0
  {
  }

  lemma OccurrencesHead(statuses: seq<MutationStatus>, status: MutationStatus)
    requires statuses != []
    ensures Occurrences(statuses, status) ==
            (if statuses[0] == status then 1 else 0) + Occurrences(statuses[1..], status)
  {
  }

  lemma CountConcat(a: seq<Mutation>, b: seq<Mutation>, status: MutationStatus)
    ensures CountIn(a + b, status) == CountIn(a, status) + CountIn(b, status)
  {
    FilterConcat(a, b, (m: Mutation) => m.mutationStatus == status);
  }

  lemma CountBlock(block: seq<Mutation>, written: MutationStatus, status: MutationStatus)
    requires forall m :: m in block ==> m.mutationStatus == written
    ensures CountIn(block, status) == if written == status then |block| else 0
  {
    if written == status {
      FilterAll(block, (m: Mutation) => m.mutationStatus == status);
    } else {
      FilterNone(block, (m: Mutation) => m.mutationStatus == status);
    }
  }

  lemma {:induction false} FilterOfMap<T(!new), U(!new)>(s: seq<T>, f: T -> U, p: U -> bool, q: T -> bool)
    requires forall x :: x in s ==> (q(x) <==> p(f(x)))
    ensures |Filter(Map(s, f), p)| == |Filter(s, q)|
  {
    if s != [] {
      assert Map(s, f)[1..] == Map(s[1..], f);
      FilterOfMap(s[1..], f, p, q);
    }
  }

  lemma ApprovalRecordCount(rs: seq<ApprovalIntegration>, status: MutationStatus)
    ensures CountIn(ApprovalMutations(rs), status) ==
            if status == AppliedMutation then 2 * |rs| else 0
  {
    var statuses := seq(|rs|, _ => AppliedMutation);
    UniformCount(Map(rs, ApprovalBlock), 2, statuses, status);
    if status == AppliedMutation {
      FilterAll(statuses, (s: MutationStatus) => s == status);
    } else {
      FilterNone(statuses, (s: MutationStatus) => s == status);
    }
  }

  function ActivationStatusOf(c: Child): MutationStatus {
    if c.approvalRequired then PendingApprovalMutation else AppliedMutation
  }

  lemma RunnerRecordCount(d: Draft, rs: seq<RunnerIntegration>, status: MutationStatus)
    requires RunnersShaped(d, rs)
    ensures CountIn(RunnerMutations(rs), status) ==
            4 * |Filter(d.children, (c: Child) => ActivationStatusOf(c) == status)|
  {
    var statuses := Map(d.children, ActivationStatusOf);
    UniformCount(Map(rs, RunnerBlock), 4, statuses, status);
    FilterOfMap(d.children, ActivationStatusOf, (s: MutationStatus) => s == status,
                (c: Child) => ActivationStatusOf(c) == status);
  }

  function GatedChildren(d: Draft): seq<Child> { Filter(d.children, (c: Child) => c.approvalRequired) }
  function UngatedChildren(d: Draft): seq<Child> { Filter(d.children, (c: Child) => !c.approvalRequired) }

  /** An activation writes two records per approval and four per child, and none of them is blocked. */
  lemma ActivationCounts(d: Draft)
    requires WellFormed(d)
    ensures CountMutations(d, AppliedMutation) == 2 * |d.approvals| + 4 * |UngatedChildren(d)|
    ensures CountMutations(d, PendingApprovalMutation) == 4 * |GatedChildren(d)|
    ensures CountMutations(d, BlockedMutation) == 0
  {
    hide CountMutations, WellFormed;
    CountOfStatus(d, AppliedMutation);
    CountOfStatus(d, PendingApprovalMutation);
    CountOfStatus(d, BlockedMutation);
    FilterSame(d.children, (c: Child) => ActivationStatusOf(c) == AppliedMutation, (c: Child) => !c.approvalRequired);
    FilterSame(d.children, (c: Child) => ActivationStatusOf(c) == PendingApprovalMutation,
               (c: Child) => c.approvalRequired);
    FilterNone(d.children, (c: Child) => ActivationStatusOf(c) == BlockedMutation);
  }

  lemma CountOfStatus(d: Draft, status: MutationStatus)
    requires WellFormed(d)
    ensures CountMutations(d, status) ==
            (if status == AppliedMutation then 2 * |d.approvals| else 0)
            + 4 * |Filter(d.children, (c: Child) => ActivationStatusOf(c) == status)|
  {
    EmittedRunnersAreShaped(d);
    EmittedApprovalsAreShaped(d);
    ApprovalRecordCount(ApprovalIntegrations(d), status);
    RunnerRecordCount(d, RunnerIntegrations(d), status);
    CountConcat(ApprovalMutations(ApprovalIntegrations(d)), RunnerMutations(RunnerIntegrations(d)), status);
  }

  /** The branches for a missing binding and an optional review are dead, and one ungated child decides the status. */
  lemma ActivationBranches(d: Draft)
    requires WellFormed(d)
    ensures forall r :: r in RunnerIntegrations(d) ==> r.state != AwaitingRuntimeBinding
    ensures forall a :: a in ApprovalIntegrations(d) ==> a.required
    ensures LiveBatchStatus(d) == if |UngatedChildren(d)| > 0 then PartiallyApplied else BatchPendingApproval
  {
    hide WellFormed, UngatedChildren;
    EmittedRunnersAreShaped(d);
    EmittedApprovalsAreShaped(d);
    BatchStatusOf(d, RunnerIntegrations(d));
  }

  lemma BatchStatusOf(d: Draft, rs: seq<RunnerIntegration>)
    requires RunnersShaped(d, rs)
    ensures forall r :: r in rs ==> r.state != AwaitingRuntimeBinding
    ensures (exists r :: r in rs && r.state == RunnerDispatched) <==> |UngatedChildren(d)| > 0
  {
    if r :| r in rs && r.state == RunnerDispatched {
      var i :| 0 <= i < |rs| && rs[i] == r;
      assert d.children[i] in UngatedChildren(d);
    }
    if |UngatedChildren(d)| > 0 {
      assert UngatedChildren(d)[0] in UngatedChildren(d);
      var c :| c in d.children && !c.approvalRequired;
      var i :| 0 <= i < |d.children| && d.children[i] == c;
      assert rs[i] in rs && rs[i].state == RunnerDispatched;
    }
  }

  // The records themselves.

  /** In concatenated blocks of one size the m-th element of the k-th block stands k blocks on. */
  lemma {:induction false} FlatAt<T(!new)>(blocks: seq<seq<T>>, size: nat, k: nat, m: nat)
    requires forall b :: 0 <= b < |blocks| ==> |blocks[b]| == size
    requires k < |blocks| && m < size
    ensures |Flatten(blocks)| == size * |blocks|
    ensures 0 <= size * k + m < |Flatten(blocks)| && Flatten(blocks)[size * k + m] == blocks[k][m]
  {
    hide Flatten;
    FlatLength(blocks, size);
    FlatHead(blocks);
    FlatLength(blocks[1..], size);
    BlockFits(size, k, m, |blocks|);
    if k > 0 {
      FlatAt(blocks[1..], size, k - 1, m);
      assert size * k + m == size + (size * (k - 1) + m);
    }
  }

  lemma FlatHead<T(!new)>(blocks: seq<seq<T>>)
    requires blocks != []
    ensures Flatten(blocks) == blocks[0] + Flatten(blocks[1..])
  {
  }

  lemma BlockFits(size: nat, k: nat, m: nat, n: nat)
    requires k < n && m < size
    ensures 0 <= size * k + m < size * n
  {
    assert size * (k + 1) <= size * n;
  }

  lemma {:induction false} FlatLength<T(!new)>(blocks: seq<seq<T>>, size: nat)
    requires forall b :: 0 <= b < |blocks| ==> |blocks[b]| == size
    ensures |Flatten(blocks)| == size * |blocks|
  {
    if blocks != [] {
      FlatLength(blocks[1..], size);
      assert size * |blocks| == size + size * (|blocks| - 1);
    }
  }

  /** The two records of approval j, from and to, and the four of child i by its gating. */
  ghost predicate EndsRecorded(ms: seq<Mutation>, j: nat)
    requires 2 * j + 2 <= |ms|
  {
    && ms[2 * j] == Mutation(DispatchTarget, Some(ApprovalKey(j + 1)), Pending, Dispatched, AppliedMutation)
    && ms[2 * j + 1] == Mutation(TaskTarget, Some(TaskKey(j)), PendingApproval, AwaitingDecision, AppliedMutation)
  }

  ghost predicate PartsRecorded(ms: seq<Mutation>, at: nat, i: nat, gated: bool)
    requires at + 4 <= |ms|
  {
    if gated then
      && ms[at] == Mutation(RunTarget, Some(RunKey(i)), AwaitingApproval, AwaitingApproval, PendingApprovalMutation)
      && ms[at + 1] == Mutation(RunnerTarget, Some(RunnerKey(i)), Pending, Pending, PendingApprovalMutation)
      && ms[at + 2] == Mutation(ActionTarget, Some(ActionKey(i + 1)), Pending, AwaitingApprovalDecision,
                                PendingApprovalMutation)
      && ms[at + 3] == Mutation(TransitionTarget, Some(TransitionKey(i)), Pending, AwaitingApprovalDecision,
                                PendingApprovalMutation)
    else
      && ms[at] == Mutation(RunTarget, Some(RunKey(i)), QueuedForDispatch, Dispatched, AppliedMutation)
      && ms[at + 1] == Mutation(RunnerTarget, Some(RunnerKey(i)), Pending, Dispatched, AppliedMutation)
      && ms[at + 2] == Mutation(ActionTarget, Some(ActionKey(i + 1)), Pending, Dispatched, AppliedMutation)
      && ms[at + 3] == Mutation(TransitionTarget, Some(TransitionKey(i)), Pending, Applied, AppliedMutation)
  }

  /** An activation writes two records for each approval and then four for each child, and nothing else. */
  lemma ActivationRecordsAre(d: Draft, approvals: seq<ApprovalIntegration>, runners: seq<RunnerIntegration>)
    requires ApprovalsShaped(approvals) && |approvals| == |d.approvals| && RunnersShaped(d, runners)
    ensures var ms := ActivationMutations(approvals, runners); var n := 2 * |d.approvals|;
            && |ms| == n + 4 * |d.children|
            && (forall j :: 0 <= j < |d.approvals| ==> EndsRecorded(ms, j))
            && (forall i :: 0 <= i < |d.children| ==>
                  PartsRecorded(ms, n + 4 * i, i, d.children[i].approvalRequired))
  {
    hide EndsRecorded, PartsRecorded;
    var ms, n := ActivationMutations(approvals, runners), 2 * |d.approvals|;
    FlatLength(Map(approvals, ApprovalBlock), 2);
    RunnerBlocksAreFour(d, runners);
    FlatLength(Map(runners, RunnerBlock), 4);
    forall j | 0 <= j < |d.approvals| ensures EndsRecorded(ms, j) {
      EndsOfActivation(approvals, RunnerMutations(runners), j);
    }
    forall i | 0 <= i < |d.children| ensures PartsRecorded(ms, n + 4 * i, i, d.children[i].approvalRequired) {
      PartsOfActivation(d, ApprovalMutations(approvals), runners, i);
    }
  }

  lemma RunnerBlocksAreFour(d: Draft, runners: seq<RunnerIntegration>)
    requires RunnersShaped(d, runners)
    ensures forall b :: 0 <= b < |runners| ==> |RunnerBlock(runners[b])| == 4
  {
  }

  lemma EndsOfActivation(approvals: seq<ApprovalIntegration>, rest: seq<Mutation>, j: nat)
    requires ApprovalsShaped(approvals) && j < |approvals|
    ensures |ApprovalMutations(approvals)| == 2 * |approvals|
    ensures EndsRecorded(ApprovalMutations(approvals) + rest, j)
  {
    var blocks := Map(approvals, ApprovalBlock);
    FlatAt(blocks, 2, j, 0);
    FlatAt(blocks, 2, j, 1);
  }

  lemma PartsOfActivation(d: Draft, ends: seq<Mutation>, runners: seq<RunnerIntegration>, i: nat)
    requires RunnersShaped(d, runners) && i < |runners|
    ensures |RunnerMutations(runners)| == 4 * |runners|
    ensures PartsRecorded(ends + RunnerMutations(runners), |ends| + 4 * i, i, d.children[i].approvalRequired)
  {
    var blocks := Map(runners, RunnerBlock);
    RunnerBlocksAreFour(d, runners);
    FlatAt(blocks, 4, i, 0);
    FlatAt(blocks, 4, i, 1);
    FlatAt(blocks, 4, i, 2);
    FlatAt(blocks, 4, i, 3);
  }

  // One record per target.

  predicate SameTarget(m: Mutation, n: Mutation) { (m.kind, m.targetKey) == (n.kind, n.targetKey) }

  lemma DistinctConcat(a: seq<Mutation>, b: seq<Mutation>)
    requires DistinctTargets(a) && DistinctTargets(b)
    requires forall m, n :: m in a && n in b ==> !SameTarget(m, n)
    ensures DistinctTargets(a + b)
  {
    var all := a + b;
    forall i, j | 0 <= i < j < |all| ensures !SameTarget(all[i], all[j]) {
      if j < |a| {
      } else if i < |a| {
        assert all[i] in a && all[j] in b;
      } else {
        assert all[i] == b[i - |a|] && all[j] == b[j - |a|];
      }
    }
  }

  lemma {:induction false} BlocksAreDistinct(blocks: seq<seq<Mutation>>)
    requires forall b :: 0 <= b < |blocks| ==> DistinctTargets(blocks[b])
    requires forall b, c, m, n :: 0 <= b < c < |blocks| && m in blocks[b] && n in blocks[c] ==> !SameTarget(m, n)
    ensures DistinctTargets(Flatten(blocks))
  {
    if blocks != [] {
      BlocksAreDistinct(blocks[1..]);
      forall m, n | m in blocks[0] && n in Flatten(blocks[1..]) ensures !SameTarget(m, n) {
        var c :| 0 <= c < |blocks[1..]| && n in blocks[1..][c];
        assert n in blocks[c + 1];
      }
      DistinctConcat(blocks[0], Flatten(blocks[1..]));
    }
  }

  /** Child blocks of different children speak of different targets, all of them parts. */
  lemma ChildBlocksAreDistinct(blocks: seq<seq<Mutation>>, owner: seq<nat>, statuses: seq<TargetType -> Status>)
    requires |owner| == |blocks| == |statuses|
    requires forall b :: 0 <= b < |blocks| ==> ChildBlock(blocks[b], owner[b], statuses[b])
    requires forall b, c :: 0 <= b < c < |owner| ==> owner[b] != owner[c]
    ensures DistinctTargets(Flatten(blocks))
    ensures forall m :: m in Flatten(blocks) ==> IsPart(m.kind)
  {
    forall b, c, m, n | 0 <= b < c < |blocks| && m in blocks[b] && n in blocks[c] ensures !SameTarget(m, n) {
      assert AboutPart(m, owner[b]) && AboutPart(n, owner[c]);
    }
    BlocksAreDistinct(blocks);
    forall m | m in Flatten(blocks) ensures IsPart(m.kind) {
      var b :| 0 <= b < |blocks| && m in blocks[b];
      assert AboutPart(m, owner[b]);
    }
  }

  lemma ApprovalRecordsAreDistinct(rs: seq<ApprovalIntegration>)
    requires ApprovalsShaped(rs)
    ensures DistinctTargets(ApprovalMutations(rs))
    ensures forall m :: m in ApprovalMutations(rs) ==> !IsPart(m.kind)
  {
    var blocks := Map(rs, ApprovalBlock);
    forall b, c, m, n | 0 <= b < c < |blocks| && m in blocks[b] && n in blocks[c] ensures !SameTarget(m, n) {
      assert AboutEnd(m, b) && AboutEnd(n, c);
    }
    BlocksAreDistinct(blocks);
    forall m | m in Flatten(blocks) ensures !IsPart(m.kind) {
      var b :| 0 <= b < |blocks| && m in blocks[b];
    }
  }

  lemma RunnerRecordsAreDistinct(d: Draft, rs: seq<RunnerIntegration>)
    requires RunnersShaped(d, rs)
    ensures DistinctTargets(RunnerMutations(rs))
    ensures forall m :: m in RunnerMutations(rs) ==> IsPart(m.kind)
  {
    var blocks := Map(rs, RunnerBlock);
    forall b | 0 <= b < |blocks| ensures ChildBlock(blocks[b], b, ActivationStatuses(d)[b]) {
      RunnerBlockShape(b, Gated(d, b));
    }
    ChildBlocksAreDistinct(blocks, seq(|rs|, b => b), ActivationStatuses(d));
  }

  lemma ActivationIsDistinct(d: Draft, approvals: seq<ApprovalIntegration>, runners: seq<RunnerIntegration>)
    requires ApprovalsShaped(approvals) && RunnersShaped(d, runners)
    ensures DistinctTargets(ActivationMutations(approvals, runners))
  {
    ApprovalRecordsAreDistinct(approvals);
    RunnerRecordsAreDistinct(d, runners);
    DistinctConcat(ApprovalMutations(approvals), RunnerMutations(runners));
  }

  lemma LinkedRunsAreDistinct(x: ApprovalDispatch, runs: seq<Run>)
    requires forall k :: 0 <= k < |runs| ==> runs[k].runKey == RunKey(k)
    ensures var keys := TaskFor(x, runs).linkedRunKeys; forall b, c :: 0 <= b < c < |keys| ==> keys[b] != keys[c]
  {
    FilterDistinct(runs, (r: Run) => TaskOf(x.dispatchKey) in r.approvalTaskKeys, (r: Run) => r.runKey);
  }

  lemma PartsOfDecisionAreDistinct(d: Draft, rs: seq<RunnerIntegration>, keys: seq<Key>, decision: Decision,
                                   seen: Target -> Option<Status>)
    requires RunnersShaped(d, rs)
    requires forall b :: 0 <= b < |keys| ==> Owner(keys[b]) < |rs| && keys[b] == RunKey(Owner(keys[b]))
    requires forall b, c :: 0 <= b < c < |keys| ==> keys[b] != keys[c]
    ensures DistinctTargets(DecisionParts(rs, keys, decision, seen))
    ensures forall m :: m in DecisionParts(rs, keys, decision, seen) ==> IsPart(m.kind)
  {
    DecisionBlockShapes(d, rs, keys, decision, seen);
    ChildBlocksAreDistinct(DecisionBlocks(rs, keys, decision, seen), OwnersOf(keys), DecidedStatuses(|keys|, decision));
  }

  lemma DecisionIsDistinct(d: Draft, rs: seq<RunnerIntegration>, task: Task, j: nat, decision: Decision,
                           taskFrom: Status, dispatchFrom: Status, seen: Target -> Option<Status>)
    requires RunnersShaped(d, rs) && TaskShaped(d, task, j)
    requires forall b, c :: 0 <= b < c < |task.linkedRunKeys| ==> task.linkedRunKeys[b] != task.linkedRunKeys[c]
    ensures DistinctTargets(DecisionMutations(rs, task, decision, taskFrom, dispatchFrom, seen))
  {
    hide DecisionParts, GatedBy, Gated;
    PartsOfDecisionAreDistinct(d, rs, task.linkedRunKeys, decision, seen);
    DistinctConcat(DecisionEnds(task, decision, taskFrom, dispatchFrom),
                   DecisionParts(rs, task.linkedRunKeys, decision, seen));
  }

  lemma DispatchIsDistinct(q: QueueEntry, actionKey: Option<Key>, runSeen: Option<Status>,
                           seen: Target -> Option<Status>)
    ensures DistinctTargets(DispatchMutations(q, actionKey, runSeen, seen))
  {
  }
}
