/**
 What normalising does to each list of a submission, stated on the entries that were sent: which of them are kept, in
 their order, and what every field becomes.
 */
module Normalisation {
  import opened Wrappers
  import opened Lists
  import opened Text
  import opened Contracts

  /** Nothing was sent, or white space alone. */
  predicate Blank(value: Option<string>) {
    value.None? || forall k :: 0 <= k < |value.value| ==> IsSpace(value.value[k])
  }

  /** The text without the white space around it; nothing sent is the empty text. */
  predicate IsTrimOf(text: string, value: Option<string>) {
    match value
    case None => text == ""
    case Some(s) =>
      exists i, j :: 0 <= i <= j <= |s| && text == s[i..j] && Trimmed(text) && SpaceAround(s, i, j)
  }

  predicate SpaceAround(s: string, i: nat, j: nat)
    requires i <= j <= |s|
  {
    forall k :: 0 <= k < |s| && (k < i || j <= k) ==> IsSpace(s[k])
  }

  lemma TrimmedTextIs(value: Option<string>)
    ensures IsTrimOf(TrimmedText(value), value)
    ensures TrimmedText(value) == "" <==> Blank(value)
  {
    hide IsSpace;
    match value
    case None =>
    case Some(s) =>
      var i, j := TrimCuts(s);
      assert SpaceAround(s, i, j);
      if Trim(s) != "" {
        assert s[i] == Trim(s)[0] && !IsSpace(s[i]);
      }
  }

  // One entry: what its fields become, which fields it must have, and the text it is known by.

  predicate FromBinding(r: RawBinding, b: Binding) {
    && IsTrimOf(b.runtimeKey, r.runtimeKey) && IsTrimOf(b.systemKey, r.systemKey)
    && IsTrimOf(b.deliveryMode, r.deliveryMode)
    && (b.approvalRequired <==> r.approvalRequired == Some(true))
  }

  predicate FromChild(r: RawChild, c: Child) {
    && IsTrimOf(c.workflowKey, r.workflowKey) && IsTrimOf(c.runtimeKey, r.runtimeKey)
    && IsTrimOf(c.systemKey, r.systemKey) && IsTrimOf(c.triggerMode, r.triggerMode)
    && (c.approvalRequired <==> r.approvalRequired == Some(true))
    && IsTrimOf(c.approvalCheckpointKey, r.approvalCheckpointKey)
  }

  /** An approval is required unless it says otherwise. */
  predicate FromApproval(r: RawApproval, a: Approval) {
    && IsTrimOf(a.checkpointKey, r.checkpointKey) && IsTrimOf(a.approverRole, r.approverRole)
    && IsTrimOf(a.channel, r.channel) && IsTrimOf(a.escalationMode, r.escalationMode)
    && (a.required <==> r.required != Some(false))
  }

  predicate FromEscalation(r: RawEscalation, e: Escalation) {
    && IsTrimOf(e.escalationKey, r.escalationKey) && IsTrimOf(e.fromCheckpointKey, r.fromCheckpointKey)
    && IsTrimOf(e.targetRole, r.targetRole) && IsTrimOf(e.triggerMode, r.triggerMode)
    && e.delayMinutes >= 0.0
    && (r.delayMinutes.Finite? && r.delayMinutes.value >= 0.0 ==> e.delayMinutes == r.delayMinutes.value)
    && (!r.delayMinutes.Finite? || r.delayMinutes.value < 0.0 ==> e.delayMinutes == 0.0)
  }

  predicate FromRollback(r: RawRollback, k: Rollback) {
    && IsTrimOf(k.rollbackKey, r.rollbackKey) && IsTrimOf(k.fromCheckpointKey, r.fromCheckpointKey)
    && IsTrimOf(k.targetSystemKey, r.targetSystemKey) && IsTrimOf(k.strategy, r.strategy)
    && (k.preserveArtifacts <==> r.preserveArtifacts == Some(true))
  }

  predicate KeyedBinding(r: RawBinding) { !Blank(r.runtimeKey) && !Blank(r.systemKey) }
  predicate KeyedChild(r: RawChild) { !Blank(r.workflowKey) && !Blank(r.runtimeKey) && !Blank(r.systemKey) }
  predicate KeyedApproval(r: RawApproval) { !Blank(r.checkpointKey) && !Blank(r.approverRole) }
  predicate KeyedEscalation(r: RawEscalation) {
    !Blank(r.escalationKey) && !Blank(r.fromCheckpointKey) && !Blank(r.targetRole)
  }
  predicate KeyedRollback(r: RawRollback) {
    !Blank(r.rollbackKey) && !Blank(r.fromCheckpointKey) && !Blank(r.targetSystemKey)
  }

  function Three(a: Option<string>, b: Option<string>, c: Option<string>): string {
    TrimmedText(a) + "::" + (TrimmedText(b) + "::" + TrimmedText(c))
  }

  function Four(a: Option<string>, b: Option<string>, c: Option<string>, d: Option<string>): string {
    TrimmedText(a) + "::" + Three(b, c, d)
  }

  function TextOfBinding(r: RawBinding): string { Three(r.runtimeKey, r.systemKey, r.deliveryMode) }
  function TextOfChild(r: RawChild): string { Four(r.workflowKey, r.runtimeKey, r.systemKey, r.triggerMode) }
  function TextOfApproval(r: RawApproval): string {
    Four(r.checkpointKey, r.approverRole, r.channel, r.escalationMode)
  }
  function TextOfEscalation(r: RawEscalation): string {
    Four(r.escalationKey, r.fromCheckpointKey, r.targetRole, r.triggerMode)
  }
  function TextOfRollback(r: RawRollback): string {
    Four(r.rollbackKey, r.fromCheckpointKey, r.targetSystemKey, r.strategy)
  }

  // A whole list.

  /** The entry at position i has its mandatory fields, and no earlier entry that has them is known by the same text. */
  ghost predicate Kept<R>(raw: seq<R>, keyed: R -> bool, text: R -> string, i: nat) {
    && i < |raw| && keyed(raw[i])
    && forall j :: 0 <= j < i && keyed(raw[j]) ==> text(raw[j]) != text(raw[i])
  }

  /** The positions are those of the kept entries, in order. */
  ghost predicate KeptAt<R>(raw: seq<R>, keyed: R -> bool, text: R -> string, at: seq<nat>) {
    && (forall m, n :: 0 <= m < n < |at| ==> at[m] < at[n])
    && forall i: nat :: i in at <==> Kept(raw, keyed, text, i)
  }

  /** The list holds what becomes of the kept entries, in their order, and nothing else. */
  ghost predicate Normalised<R, T>(raw: seq<R>, normal: seq<T>, from: (R, T) -> bool, keyed: R -> bool,
                                   text: R -> string)
  {
    exists at :: KeptAt(raw, keyed, text, at) && BecomesAt(raw, normal, from, at)
  }

  ghost predicate BecomesAt<R, T>(raw: seq<R>, normal: seq<T>, from: (R, T) -> bool, at: seq<nat>) {
    |at| == |normal| && forall n :: 0 <= n < |at| ==> at[n] < |raw| && from(raw[at[n]], normal[n])
  }

  function Pipeline<R, T(==,!new)>(raw: seq<R>, clean: R -> T, complete: T -> bool, key: T -> string): seq<T> {
    FirstOfEachKey(Filter(Map(raw, clean), complete), key)
  }

  lemma PipelinePush<R, T(!new)>(raw: seq<R>, r: R, clean: R -> T, complete: T -> bool, key: T -> string)
    ensures var kept := Filter(Map(raw, clean), complete);
            Pipeline(raw + [r], clean, complete, key) ==
            if complete(clean(r)) && key(clean(r)) !in KeySet(kept, key)
            then Pipeline(raw, clean, complete, key) + [clean(r)] else Pipeline(raw, clean, complete, key)
  {
    hide FirstOfEachKey;
    assert Map(raw + [r], clean) == Map(raw, clean) + [clean(r)];
    FilterConcat(Map(raw, clean), [clean(r)], complete);
    assert Filter([clean(r)], complete) == if complete(clean(r)) then [clean(r)] else [];
    assert Filter(Map(raw, clean), complete) + [] == Filter(Map(raw, clean), complete);
    if complete(clean(r)) {
      FirstOfEachKeyPush(Filter(Map(raw, clean), complete), clean(r), key);
    }
  }

  lemma InKeptKeys<R, T(!new)>(raw: seq<R>, clean: R -> T, complete: T -> bool, key: T -> string, k: string)
    ensures k in KeySet(Filter(Map(raw, clean), complete), key) <==>
            exists j :: 0 <= j < |raw| && complete(clean(raw[j])) && key(clean(raw[j])) == k
  {
    var all := Map(raw, clean);
    if j :| 0 <= j < |raw| && complete(clean(raw[j])) && key(clean(raw[j])) == k {
      assert all[j] in all;
    }
    if x :| x in Filter(all, complete) && key(x) == k {
      var j :| 0 <= j < |all| && all[j] == x;
    }
  }

  /** Cleaning, filtering and dropping repetitions together normalise a list. */
  lemma {:induction false} PipelineNormalises<R(!new), T(!new)>(raw: seq<R>, clean: R -> T, complete: T -> bool,
                                                                key: T -> string, from: (R, T) -> bool,
                                                                keyed: R -> bool, text: R -> string)
    returns (at: seq<nat>)
    requires forall r :: from(r, clean(r)) && (complete(clean(r)) <==> keyed(r)) && key(clean(r)) == text(r)
    ensures KeptAt(raw, keyed, text, at) && BecomesAt(raw, Pipeline(raw, clean, complete, key), from, at)
  {
    hide Pipeline, KeptAt, BecomesAt;
    if raw == [] {
      at := [];
      NothingPiped(clean, complete, key);
      NothingKept(raw, keyed, text, from);
    } else {
      var n := |raw| - 1;
      var earlier := PipelineNormalises(raw[..n], clean, complete, key, from, keyed, text);
      assert raw == raw[..n] + [raw[n]];
      PipelinePush(raw[..n], raw[n], clean, complete, key);
      InKeptKeys(raw[..n], clean, complete, key, text(raw[n]));
      at := if Kept(raw, keyed, text, n) then earlier + [n] else earlier;
      KeptAtPush(raw, keyed, text, n, earlier);
      KeptIffNew(raw, keyed, text, n);
      BecomesPush(raw, Pipeline(raw[..n], clean, complete, key), from, n, earlier, clean(raw[n]));
    }
  }

  lemma NothingKept<R, T>(raw: seq<R>, keyed: R -> bool, text: R -> string, from: (R, T) -> bool)
    requires raw == []
    ensures KeptAt(raw, keyed, text, []) && BecomesAt(raw, [], from, [])
  {
  }

  lemma KeptAtPush<R>(raw: seq<R>, keyed: R -> bool, text: R -> string, n: nat, earlier: seq<nat>)
    requires |raw| == n + 1 && KeptAt(raw[..n], keyed, text, earlier)
    ensures KeptAt(raw, keyed, text, if Kept(raw, keyed, text, n) then earlier + [n] else earlier)
  {
    hide Kept;
    KeptPush(raw, keyed, text, n);
    forall i: nat | i in earlier ensures i < n {
      assert Kept(raw[..n], keyed, text, i);
    }
    var at := if Kept(raw, keyed, text, n) then earlier + [n] else earlier;
    forall i: nat ensures i in at <==> Kept(raw, keyed, text, i) {
      assert i in earlier <==> Kept(raw[..n], keyed, text, i);
    }
    assert forall m :: 0 <= m < |earlier| ==> earlier[m] in earlier;
  }

  lemma BecomesPush<R, T>(raw: seq<R>, normal: seq<T>, from: (R, T) -> bool, n: nat, earlier: seq<nat>, last: T)
    requires |raw| == n + 1 && BecomesAt(raw[..n], normal, from, earlier) && from(raw[n], last)
    ensures BecomesAt(raw, normal, from, earlier) && BecomesAt(raw, normal + [last], from, earlier + [n])
  {
  }

  lemma NothingPiped<R, T(!new)>(clean: R -> T, complete: T -> bool, key: T -> string)
    ensures Pipeline([], clean, complete, key) == []
  {
  }

  lemma KeptPush<R>(raw: seq<R>, keyed: R -> bool, text: R -> string, n: nat)
    requires |raw| == n + 1
    ensures forall i: nat :: i < n ==> (Kept(raw[..n], keyed, text, i) <==> Kept(raw, keyed, text, i))
    ensures forall i: nat :: Kept(raw[..n], keyed, text, i) ==> i < n
    ensures forall i: nat :: Kept(raw, keyed, text, i) ==> i <= n
  {
    forall i: nat | i < n ensures Kept(raw[..n], keyed, text, i) <==> Kept(raw, keyed, text, i) {
      assert forall j :: 0 <= j <= i ==> raw[..n][j] == raw[j];
    }
  }

  lemma KeptIffNew<R>(raw: seq<R>, keyed: R -> bool, text: R -> string, n: nat)
    requires |raw| == n + 1
    ensures Kept(raw, keyed, text, n) <==>
            keyed(raw[n]) && !exists j :: 0 <= j < n && keyed(raw[..n][j]) && text(raw[..n][j]) == text(raw[n])
  {
    assert forall j :: 0 <= j < n ==> raw[..n][j] == raw[j];
  }

  // The five lists.

  lemma BindingsAreNormalised(raw: seq<RawBinding>)
    ensures Normalised(raw, NormalBindings(raw), FromBinding, KeyedBinding, TextOfBinding)
  {
    hide TrimmedText, Blank, IsTrimOf;
    forall r: RawBinding
      ensures FromBinding(r, CleanBinding(r)) && (CompleteBinding(CleanBinding(r)) <==> KeyedBinding(r))
              && BindingText(CleanBinding(r)) == TextOfBinding(r)
    {
      TrimmedTextIs(r.runtimeKey);
      TrimmedTextIs(r.systemKey);
      TrimmedTextIs(r.deliveryMode);
    }
    var at := PipelineNormalises(raw, CleanBinding, CompleteBinding, BindingText, FromBinding, KeyedBinding,
                                 TextOfBinding);
  }

  lemma ChildrenAreNormalised(raw: seq<RawChild>)
    ensures Normalised(raw, NormalChildren(raw), FromChild, KeyedChild, TextOfChild)
  {
    hide TrimmedText, Blank, IsTrimOf;
    forall r: RawChild
      ensures FromChild(r, CleanChild(r)) && (CompleteChild(CleanChild(r)) <==> KeyedChild(r))
              && ChildText(CleanChild(r)) == TextOfChild(r)
    {
      TrimmedTextIs(r.workflowKey);
      TrimmedTextIs(r.runtimeKey);
      TrimmedTextIs(r.systemKey);
      TrimmedTextIs(r.triggerMode);
      TrimmedTextIs(r.approvalCheckpointKey);
    }
    var at := PipelineNormalises(raw, CleanChild, CompleteChild, ChildText, FromChild, KeyedChild, TextOfChild);
  }

  lemma ApprovalsAreNormalised(raw: seq<RawApproval>)
    ensures Normalised(raw, NormalApprovals(raw), FromApproval, KeyedApproval, TextOfApproval)
  {
    hide TrimmedText, Blank, IsTrimOf;
    forall r: RawApproval
      ensures FromApproval(r, CleanApproval(r)) && (CompleteApproval(CleanApproval(r)) <==> KeyedApproval(r))
              && ApprovalText(CleanApproval(r)) == TextOfApproval(r)
    {
      TrimmedTextIs(r.checkpointKey);
      TrimmedTextIs(r.approverRole);
      TrimmedTextIs(r.channel);
      TrimmedTextIs(r.escalationMode);
    }
    var at := PipelineNormalises(raw, CleanApproval, CompleteApproval, ApprovalText, FromApproval, KeyedApproval,
                                 TextOfApproval);
  }

  lemma EscalationsAreNormalised(raw: seq<RawEscalation>)
    ensures Normalised(raw, NormalEscalations(raw), FromEscalation, KeyedEscalation, TextOfEscalation)
  {
    hide TrimmedText, Blank, IsTrimOf;
    forall r: RawEscalation
      ensures FromEscalation(r, CleanEscalation(r))
              && (CompleteEscalation(CleanEscalation(r)) <==> KeyedEscalation(r))
              && EscalationText(CleanEscalation(r)) == TextOfEscalation(r)
    {
      TrimmedTextIs(r.escalationKey);
      TrimmedTextIs(r.fromCheckpointKey);
      TrimmedTextIs(r.targetRole);
      TrimmedTextIs(r.triggerMode);
    }
    var at := PipelineNormalises(raw, CleanEscalation, CompleteEscalation, EscalationText, FromEscalation,
                                 KeyedEscalation, TextOfEscalation);
  }

  lemma RollbacksAreNormalised(raw: seq<RawRollback>)
    ensures Normalised(raw, NormalRollbacks(raw), FromRollback, KeyedRollback, TextOfRollback)
  {
    hide TrimmedText, Blank, IsTrimOf;
    forall r: RawRollback
      ensures FromRollback(r, CleanRollback(r)) && (CompleteRollback(CleanRollback(r)) <==> KeyedRollback(r))
              && RollbackText(CleanRollback(r)) == TextOfRollback(r)
    {
      TrimmedTextIs(r.rollbackKey);
      TrimmedTextIs(r.fromCheckpointKey);
      TrimmedTextIs(r.targetSystemKey);
      TrimmedTextIs(r.strategy);
    }
    var at := PipelineNormalises(raw, CleanRollback, CompleteRollback, RollbackText, FromRollback, KeyedRollback,
                                 TextOfRollback);
  }

  /** The normal form of a submission, list by list. */
  lemma NormalFormIs(raw: Submission)
    ensures var d := NormalForm(raw);
            && Normalised(raw.bindings, d.bindings, FromBinding, KeyedBinding, TextOfBinding)
            && Normalised(raw.children, d.children, FromChild, KeyedChild, TextOfChild)
            && Normalised(raw.approvals, d.approvals, FromApproval, KeyedApproval, TextOfApproval)
            && Normalised(raw.escalations, d.escalations, FromEscalation, KeyedEscalation, TextOfEscalation)
            && Normalised(raw.rollbacks, d.rollbacks, FromRollback, KeyedRollback, TextOfRollback)
  {
    hide Normalised;
    BindingsAreNormalised(raw.bindings);
    ChildrenAreNormalised(raw.children);
    ApprovalsAreNormalised(raw.approvals);
    EscalationsAreNormalised(raw.escalations);
    RollbacksAreNormalised(raw.rollbacks);
  }
}
