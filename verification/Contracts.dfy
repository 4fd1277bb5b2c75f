/**
 The execution contract as a caller submits it, and the normal form the service reduces it to: every text field
 trimmed, entries without their mandatory fields dropped, and later entries that repeat a `::`-joined key dropped.
 */
module Contracts {
  import opened Wrappers
  import opened Lists
  import opened Text

  /** A JavaScript number argument: absent, NaN or infinite, or a real. */
  datatype Number = Missing | NotFinite | Finite(value: real)

  // What callers send: every field may be absent.
  datatype RawBinding = RawBinding(runtimeKey: Option<string>, systemKey: Option<string>,
                                   deliveryMode: Option<string>, approvalRequired: Option<bool>)
  datatype RawChild = RawChild(workflowKey: Option<string>, runtimeKey: Option<string>, systemKey: Option<string>,
                               triggerMode: Option<string>, approvalRequired: Option<bool>,
                               approvalCheckpointKey: Option<string>)
  datatype RawApproval = RawApproval(checkpointKey: Option<string>, approverRole: Option<string>,
                                     channel: Option<string>, escalationMode: Option<string>, required: Option<bool>)
  datatype RawEscalation = RawEscalation(escalationKey: Option<string>, fromCheckpointKey: Option<string>,
                                         targetRole: Option<string>, triggerMode: Option<string>, delayMinutes: Number)
  datatype RawRollback = RawRollback(rollbackKey: Option<string>, fromCheckpointKey: Option<string>,
                                     targetSystemKey: Option<string>, strategy: Option<string>,
                                     preserveArtifacts: Option<bool>)
  datatype Submission = Submission(bindings: seq<RawBinding>, children: seq<RawChild>, approvals: seq<RawApproval>,
                                   escalations: seq<RawEscalation>, rollbacks: seq<RawRollback>)

  // The normal form.
  datatype Binding = Binding(runtimeKey: string, systemKey: string, deliveryMode: string, approvalRequired: bool)
  datatype Child = Child(workflowKey: string, runtimeKey: string, systemKey: string, triggerMode: string,
                         approvalRequired: bool, approvalCheckpointKey: string)
  datatype Approval = Approval(checkpointKey: string, approverRole: string, channel: string, escalationMode: string,
                               required: bool)
  datatype Escalation = Escalation(escalationKey: string, fromCheckpointKey: string, targetRole: string,
                                   triggerMode: string, delayMinutes: real)
  datatype Rollback = Rollback(rollbackKey: string, fromCheckpointKey: string, targetSystemKey: string,
                               strategy: string, preserveArtifacts: bool)
  datatype Draft = Draft(bindings: seq<Binding>, children: seq<Child>, approvals: seq<Approval>,
                         escalations: seq<Escalation>, rollbacks: seq<Rollback>)

  /** `value?.trim() ?? ''` */
  function TrimmedText(value: Option<string>): string {
    match value
    case None => ""
    case Some(s) => Trim(s)
  }

  function NonNegativeNumber(value: Number): real {
    if value.Finite? && value.value >= 0.0 then value.value else 0.0
  }

  function CleanBinding(b: RawBinding): Binding {
    Binding(TrimmedText(b.runtimeKey), TrimmedText(b.systemKey), TrimmedText(b.deliveryMode),
            b.approvalRequired.GetOr(false))
  }

  function CleanChild(c: RawChild): Child {
    Child(TrimmedText(c.workflowKey), TrimmedText(c.runtimeKey), TrimmedText(c.systemKey), TrimmedText(c.triggerMode),
          c.approvalRequired.GetOr(false), TrimmedText(c.approvalCheckpointKey))
  }

  function CleanApproval(a: RawApproval): Approval {
    Approval(TrimmedText(a.checkpointKey), TrimmedText(a.approverRole), TrimmedText(a.channel),
             TrimmedText(a.escalationMode), a.required.GetOr(true))
  }

  function CleanEscalation(e: RawEscalation): Escalation {
    Escalation(TrimmedText(e.escalationKey), TrimmedText(e.fromCheckpointKey), TrimmedText(e.targetRole),
               TrimmedText(e.triggerMode), NonNegativeNumber(e.delayMinutes))
  }

  function CleanRollback(r: RawRollback): Rollback {
    Rollback(TrimmedText(r.rollbackKey), TrimmedText(r.fromCheckpointKey), TrimmedText(r.targetSystemKey),
             TrimmedText(r.strategy), r.preserveArtifacts.GetOr(false))
  }

  predicate CompleteBinding(b: Binding) { b.runtimeKey != "" && b.systemKey != "" }
  predicate CompleteChild(c: Child) { c.workflowKey != "" && c.runtimeKey != "" && c.systemKey != "" }
  predicate CompleteApproval(a: Approval) { a.checkpointKey != "" && a.approverRole != "" }
  predicate CompleteEscalation(e: Escalation) {
    e.escalationKey != "" && e.fromCheckpointKey != "" && e.targetRole != ""
  }
  predicate CompleteRollback(r: Rollback) {
    r.rollbackKey != "" && r.fromCheckpointKey != "" && r.targetSystemKey != ""
  }

  /** The text under which an entry counts as seen. */
  function Joined(a: string, rest: string): string { a + "::" + rest }

  function BindingText(b: Binding): string { Joined(b.runtimeKey, Joined(b.systemKey, b.deliveryMode)) }
  function ChildText(c: Child): string {
    Joined(c.workflowKey, Joined(c.runtimeKey, Joined(c.systemKey, c.triggerMode)))
  }
  function ApprovalText(a: Approval): string {
    Joined(a.checkpointKey, Joined(a.approverRole, Joined(a.channel, a.escalationMode)))
  }
  function EscalationText(e: Escalation): string {
    Joined(e.escalationKey, Joined(e.fromCheckpointKey, Joined(e.targetRole, e.triggerMode)))
  }
  function RollbackText(r: Rollback): string {
    Joined(r.rollbackKey, Joined(r.fromCheckpointKey, Joined(r.targetSystemKey, r.strategy)))
  }

  /** The keys of a list. */
  function KeySet<T(==,!new)>(s: seq<T>, key: T -> string): set<string> {
    set x | x in s :: key(x)
  }

  lemma KeySetPush<T(!new)>(s: seq<T>, x: T, key: T -> string)
    ensures KeySet(s + [x], key) == KeySet(s, key) + {key(x)}
  {
    assert forall y :: y in s + [x] <==> y in s || y == x;
  }

  /** The first entry for each key, in order. */
  function FirstOfEachKey<T(==,!new)>(s: seq<T>, key: T -> string): (r: seq<T>)
    ensures KeySet(r, key) == KeySet(s, key)
    ensures Distinct(r, key)
    ensures forall x :: x in r ==> x in s
  {
    if s == [] then []
    else
      var last := s[|s| - 1];
      var rest := FirstOfEachKey(s[..|s| - 1], key);
      assert s == s[..|s| - 1] + [last];
      KeySetPush(s[..|s| - 1], last, key);
      KeySetPush(rest, last, key);
      if key(last) in KeySet(s[..|s| - 1], key) then rest else rest + [last]
  }

  lemma FirstOfEachKeyPush<T(!new)>(s: seq<T>, x: T, key: T -> string)
    ensures FirstOfEachKey(s + [x], key) ==
            if key(x) in KeySet(s, key) then FirstOfEachKey(s, key) else FirstOfEachKey(s, key) + [x]
  {
    assert (s + [x])[..|s|] == s;
  }

  lemma InKeySet<T(!new)>(s: seq<T>, key: T -> string, k: string)
    ensures k in KeySet(s, key) <==> exists j :: 0 <= j < |s| && key(s[j]) == k
  {
  }

  /** The entry at position i is the first with its key. */
  ghost predicate FirstWithKey<T>(s: seq<T>, key: T -> string, i: nat) {
    i < |s| && forall j :: 0 <= j < i ==> key(s[j]) != key(s[i])
  }

  /** An entry survives exactly when it stands somewhere in the list with no earlier entry of its key. */
  lemma {:induction false} SurvivesIffFirst<T(!new)>(s: seq<T>, key: T -> string, x: T)
    ensures x in FirstOfEachKey(s, key) <==> exists i: nat :: FirstWithKey(s, key, i) && s[i] == x
  {
    hide FirstOfEachKey, KeySet;
    if s == [] {
      NothingSurvives(key);
    } else {
      var n := |s| - 1;
      var earlier := s[..n];
      assert s == earlier + [s[n]];
      FirstOfEachKeyPush(earlier, s[n], key);
      InKeySet(earlier, key, key(s[n]));
      SurvivesIffFirst(earlier, key, x);
      forall i: nat | i < n ensures FirstWithKey(earlier, key, i) <==> FirstWithKey(s, key, i) {
        FirstInPrefix(s, key, n, i);
      }
      if i: nat :| FirstWithKey(s, key, i) && s[i] == x {
        assert i < n ==> earlier[i] == x;
      }
      if i: nat :| FirstWithKey(earlier, key, i) && earlier[i] == x {
        assert s[i] == x;
      }
    }
  }

  lemma NothingSurvives<T(!new)>(key: T -> string)
    ensures FirstOfEachKey([], key) == []
  {
  }

  lemma FirstInPrefix<T>(s: seq<T>, key: T -> string, n: nat, i: nat)
    requires i < n <= |s|
    ensures FirstWithKey(s[..n], key, i) <==> FirstWithKey(s, key, i)
  {
    assert forall j :: 0 <= j <= i ==> s[..n][j] == s[j];
  }

  /** Entries with distinct keys are all kept. */
  lemma {:induction false} DistinctIsKept<T(!new)>(s: seq<T>, key: T -> string)
    requires Distinct(s, key)
    ensures FirstOfEachKey(s, key) == s
  {
    if s != [] {
      DistinctIsKept(s[..|s| - 1], key);
    }
  }

  lemma OneMoreEntry<T(!new)>(s: seq<T>, i: nat, key: T -> string)
    requires i < |s|
    ensures KeySet(s[..i + 1], key) == KeySet(s[..i], key) + {key(s[i])}
    ensures FirstOfEachKey(s[..i + 1], key) ==
            if key(s[i]) in KeySet(s[..i], key) then FirstOfEachKey(s[..i], key)
            else FirstOfEachKey(s[..i], key) + [s[i]]
  {
    hide Distinct;
    assert s[..i + 1] == s[..i] + [s[i]];
    FirstOfEachKeyPush(s[..i], s[i], key);
    KeySetPush(s[..i], s[i], key);
  }

  /** The shared last step of the five normalisers: one pass with a set of keys already seen. */
  method KeepFirstOfEachKey<T(==,!new)>(s: seq<T>, key: T -> string) returns (r: seq<T>)
    ensures r == FirstOfEachKey(s, key)
  {
    var seen: set<string> := {};
    r := [];
    hide Distinct;
    for i := 0 to |s|
      invariant seen == KeySet(s[..i], key)
      invariant r == FirstOfEachKey(s[..i], key)
    {
      OneMoreEntry(s, i, key);
      var k := key(s[i]);
      if k !in seen {
        seen := seen + {k};
        r := r + [s[i]];
      }
    }
    assert s[..|s|] == s;
  }

  function NormalBindings(raw: seq<RawBinding>): seq<Binding> {
    FirstOfEachKey(Filter(Map(raw, CleanBinding), CompleteBinding), BindingText)
  }
  function NormalChildren(raw: seq<RawChild>): seq<Child> {
    FirstOfEachKey(Filter(Map(raw, CleanChild), CompleteChild), ChildText)
  }
  function NormalApprovals(raw: seq<RawApproval>): seq<Approval> {
    FirstOfEachKey(Filter(Map(raw, CleanApproval), CompleteApproval), ApprovalText)
  }
  function NormalEscalations(raw: seq<RawEscalation>): seq<Escalation> {
    FirstOfEachKey(Filter(Map(raw, CleanEscalation), CompleteEscalation), EscalationText)
  }
  function NormalRollbacks(raw: seq<RawRollback>): seq<Rollback> {
    FirstOfEachKey(Filter(Map(raw, CleanRollback), CompleteRollback), RollbackText)
  }

  function NormalForm(raw: Submission): Draft {
    Draft(NormalBindings(raw.bindings), NormalChildren(raw.children), NormalApprovals(raw.approvals),
          NormalEscalations(raw.escalations), NormalRollbacks(raw.rollbacks))
  }

  method Normalize(raw: Submission) returns (d: Draft)
    ensures d == NormalForm(raw)
  {
    var bindings := KeepFirstOfEachKey(Filter(Map(raw.bindings, CleanBinding), CompleteBinding), BindingText);
    var children := KeepFirstOfEachKey(Filter(Map(raw.children, CleanChild), CompleteChild), ChildText);
    var approvals := KeepFirstOfEachKey(Filter(Map(raw.approvals, CleanApproval), CompleteApproval), ApprovalText);
    var escalations :=
      KeepFirstOfEachKey(Filter(Map(raw.escalations, CleanEscalation), CompleteEscalation), EscalationText);
    var rollbacks := KeepFirstOfEachKey(Filter(Map(raw.rollbacks, CleanRollback), CompleteRollback), RollbackText);
    d := Draft(bindings, children, approvals, escalations, rollbacks);
  }

  // A draft can be sent again as a submission.

  function ResendBinding(b: Binding): RawBinding {
    RawBinding(Some(b.runtimeKey), Some(b.systemKey), Some(b.deliveryMode), Some(b.approvalRequired))
  }
  function ResendChild(c: Child): RawChild {
    RawChild(Some(c.workflowKey), Some(c.runtimeKey), Some(c.systemKey), Some(c.triggerMode), Some(c.approvalRequired),
             Some(c.approvalCheckpointKey))
  }
  function ResendApproval(a: Approval): RawApproval {
    RawApproval(Some(a.checkpointKey), Some(a.approverRole), Some(a.channel), Some(a.escalationMode), Some(a.required))
  }
  function ResendEscalation(e: Escalation): RawEscalation {
    RawEscalation(Some(e.escalationKey), Some(e.fromCheckpointKey), Some(e.targetRole), Some(e.triggerMode),
                  Finite(e.delayMinutes))
  }
  function ResendRollback(r: Rollback): RawRollback {
    RawRollback(Some(r.rollbackKey), Some(r.fromCheckpointKey), Some(r.targetSystemKey), Some(r.strategy),
                Some(r.preserveArtifacts))
  }
  function Resend(d: Draft): Submission {
    Submission(Map(d.bindings, ResendBinding), Map(d.children, ResendChild), Map(d.approvals, ResendApproval),
               Map(d.escalations, ResendEscalation), Map(d.rollbacks, ResendRollback))
  }

  /** Normalising is idempotent: sending a normalised contract again changes nothing. */
  lemma NormalFormIsIdempotent(raw: Submission)
    ensures NormalForm(Resend(NormalForm(raw))) == NormalForm(raw)
  {
    var d := NormalForm(raw);
    forall b | b in d.bindings ensures CleanBinding(ResendBinding(b)) == b && CompleteBinding(b) {
      BindingIsFixed(b, raw);
    }
    NormalListIsFixed(d.bindings, ResendBinding, CleanBinding, CompleteBinding, BindingText);
    forall c | c in d.children ensures CleanChild(ResendChild(c)) == c && CompleteChild(c) {
      ChildIsFixed(c, raw);
    }
    NormalListIsFixed(d.children, ResendChild, CleanChild, CompleteChild, ChildText);
    forall a | a in d.approvals ensures CleanApproval(ResendApproval(a)) == a && CompleteApproval(a) {
      ApprovalIsFixed(a, raw);
    }
    NormalListIsFixed(d.approvals, ResendApproval, CleanApproval, CompleteApproval, ApprovalText);
    forall e | e in d.escalations ensures CleanEscalation(ResendEscalation(e)) == e && CompleteEscalation(e) {
      EscalationIsFixed(e, raw);
    }
    NormalListIsFixed(d.escalations, ResendEscalation, CleanEscalation, CompleteEscalation, EscalationText);
    forall k | k in d.rollbacks ensures CleanRollback(ResendRollback(k)) == k && CompleteRollback(k) {
      RollbackIsFixed(k, raw);
    }
    NormalListIsFixed(d.rollbacks, ResendRollback, CleanRollback, CompleteRollback, RollbackText);
  }

  lemma TextIsFixed(v: Option<string>)
    ensures TrimmedText(Some(TrimmedText(v))) == TrimmedText(v)
  {
    match v
    case None => TrimLaws("");
    case Some(s) => TrimLaws(s);
  }

  lemma BindingIsFixed(b: Binding, raw: Submission)
    requires b in NormalBindings(raw.bindings)
    ensures CleanBinding(ResendBinding(b)) == b && CompleteBinding(b)
  {
    var r :| r in raw.bindings && b == CleanBinding(r);
    TextIsFixed(r.runtimeKey);
    TextIsFixed(r.systemKey);
    TextIsFixed(r.deliveryMode);
  }

  lemma ChildIsFixed(c: Child, raw: Submission)
    requires c in NormalChildren(raw.children)
    ensures CleanChild(ResendChild(c)) == c && CompleteChild(c)
  {
    var r :| r in raw.children && c == CleanChild(r);
    TextIsFixed(r.workflowKey);
    TextIsFixed(r.runtimeKey);
    TextIsFixed(r.systemKey);
    TextIsFixed(r.triggerMode);
    TextIsFixed(r.approvalCheckpointKey);
  }

  lemma ApprovalIsFixed(a: Approval, raw: Submission)
    requires a in NormalApprovals(raw.approvals)
    ensures CleanApproval(ResendApproval(a)) == a && CompleteApproval(a)
  {
    var r :| r in raw.approvals && a == CleanApproval(r);
    TextIsFixed(r.checkpointKey);
    TextIsFixed(r.approverRole);
    TextIsFixed(r.channel);
    TextIsFixed(r.escalationMode);
  }

  lemma EscalationIsFixed(e: Escalation, raw: Submission)
    requires e in NormalEscalations(raw.escalations)
    ensures CleanEscalation(ResendEscalation(e)) == e && CompleteEscalation(e)
  {
    var r :| r in raw.escalations && e == CleanEscalation(r);
    TextIsFixed(r.escalationKey);
    TextIsFixed(r.fromCheckpointKey);
    TextIsFixed(r.targetRole);
    TextIsFixed(r.triggerMode);
  }

  lemma RollbackIsFixed(k: Rollback, raw: Submission)
    requires k in NormalRollbacks(raw.rollbacks)
    ensures CleanRollback(ResendRollback(k)) == k && CompleteRollback(k)
  {
    var r :| r in raw.rollbacks && k == CleanRollback(r);
    TextIsFixed(r.rollbackKey);
    TextIsFixed(r.fromCheckpointKey);
    TextIsFixed(r.targetSystemKey);
    TextIsFixed(r.strategy);
  }

  lemma {:induction false} NormalListIsFixed<R, T(!new)>(list: seq<T>, resend: T -> R, clean: R -> T,
                                                         complete: T -> bool, key: T -> string)
    requires Distinct(list, key)
    requires forall x :: x in list ==> clean(resend(x)) == x && complete(x)
    ensures FirstOfEachKey(Filter(Map(Map(list, resend), clean), complete), key) == list
  {
    assert Map(Map(list, resend), clean) == list;
    FilterAll(list, complete);
    DistinctIsKept(list, key);
  }

  /** Texts without ':' are joined without ambiguity, so such entries are dropped only as true repetitions. */
  lemma JoinedInjective(a: string, x: string, b: string, y: string)
    requires Lacks(a, ':') && Lacks(b, ':')
    ensures Joined(a, x) == Joined(b, y) <==> a == b && x == y
  {
    if Joined(a, x) == Joined(b, y) {
      assert a + [':'] + ([':'] + x) == Joined(a, x);
      assert b + [':'] + ([':'] + y) == Joined(b, y);
      CutInjective(a, [':'] + x, b, [':'] + y, ':');
      assert ([':'] + x)[1..] == x && ([':'] + y)[1..] == y;
    }
  }

  lemma ColonFreeBindingsAreDroppedOnlyAsRepetitions(b: Binding, c: Binding)
    requires Lacks(b.runtimeKey, ':') && Lacks(b.systemKey, ':')
    requires Lacks(c.runtimeKey, ':') && Lacks(c.systemKey, ':')
    ensures BindingText(b) == BindingText(c) <==>
            b.runtimeKey == c.runtimeKey && b.systemKey == c.systemKey && b.deliveryMode == c.deliveryMode
  {
    JoinedInjective(b.runtimeKey, Joined(b.systemKey, b.deliveryMode),
                    c.runtimeKey, Joined(c.systemKey, c.deliveryMode));
    JoinedInjective(b.systemKey, b.deliveryMode, c.systemKey, c.deliveryMode);
  }

  // When a joined text stands for more than one entry.

  function BindingFields(b: Binding): seq<string> { [b.runtimeKey, b.systemKey, b.deliveryMode] }
  function ChildFields(c: Child): seq<string> { [c.workflowKey, c.runtimeKey, c.systemKey, c.triggerMode] }
  function ApprovalFields(a: Approval): seq<string> { [a.checkpointKey, a.approverRole, a.channel, a.escalationMode] }
  function EscalationFields(e: Escalation): seq<string> {
    [e.escalationKey, e.fromCheckpointKey, e.targetRole, e.triggerMode]
  }
  function RollbackFields(r: Rollback): seq<string> {
    [r.rollbackKey, r.fromCheckpointKey, r.targetSystemKey, r.strategy]
  }

  function Colons(n: nat): seq<string> { seq(n, _ => "::") }

  /** Every joined key is its fields with `::` between them. */
  lemma TextsAreWoven()
    ensures forall b :: BindingText(b) == Weave(BindingFields(b), Colons(2))
    ensures forall c :: ChildText(c) == Weave(ChildFields(c), Colons(3))
    ensures forall a :: ApprovalText(a) == Weave(ApprovalFields(a), Colons(3))
    ensures forall e :: EscalationText(e) == Weave(EscalationFields(e), Colons(3))
    ensures forall r :: RollbackText(r) == Weave(RollbackFields(r), Colons(3))
  {
    hide Weave, Joined;
    forall b: Binding ensures BindingText(b) == Weave(BindingFields(b), Colons(2)) {
      WeaveThree(b.runtimeKey, b.systemKey, b.deliveryMode);
    }
    forall c: Child ensures ChildText(c) == Weave(ChildFields(c), Colons(3)) {
      WeaveFour(c.workflowKey, c.runtimeKey, c.systemKey, c.triggerMode);
    }
    forall a: Approval ensures ApprovalText(a) == Weave(ApprovalFields(a), Colons(3)) {
      WeaveFour(a.checkpointKey, a.approverRole, a.channel, a.escalationMode);
    }
    forall e: Escalation ensures EscalationText(e) == Weave(EscalationFields(e), Colons(3)) {
      WeaveFour(e.escalationKey, e.fromCheckpointKey, e.targetRole, e.triggerMode);
    }
    forall r: Rollback ensures RollbackText(r) == Weave(RollbackFields(r), Colons(3)) {
      WeaveFour(r.rollbackKey, r.fromCheckpointKey, r.targetSystemKey, r.strategy);
    }
  }

  lemma WeaveThree(a: string, b: string, c: string)
    ensures Weave([a, b, c], Colons(2)) == Joined(a, Joined(b, c))
  {
    hide Weave, Lengths;
    assert [a, b, c] == [a] + [b, c] && Colons(2)[1..] == ["::"];
    WeaveFirst(a, [b, c], Colons(2));
    WeaveTwo(b, c, "::");
  }

  lemma WeaveFour(a: string, b: string, c: string, d: string)
    ensures Weave([a, b, c, d], Colons(3)) == Joined(a, Joined(b, Joined(c, d)))
  {
    hide Weave, Lengths;
    assert [a, b, c, d] == [a] + [b, c, d] && Colons(3)[1..] == Colons(2);
    WeaveFirst(a, [b, c, d], Colons(3));
    WeaveThree(b, c, d);
  }

  /** Trimmed fields, the mandatory ones not empty. */
  predicate CanonicalFields(fields: seq<string>, mandatory: nat) {
    && (forall i :: 0 <= i < |fields| ==> TrimmedText(Some(fields[i])) == fields[i])
    && forall i :: 0 <= i < mandatory && i < |fields| ==> fields[i] != ""
  }

  /** Some other entry, complete and trimmed, has the joined key of x. */
  ghost predicate Ambiguous<T(!new)>(x: T, text: T -> string, fields: T -> seq<string>, mandatory: nat) {
    exists y :: CanonicalFields(fields(y), mandatory) && fields(y) != fields(x) && text(y) == text(x)
  }

  /** `::` occurs in the text at other places as well, with complete and trimmed fields around them. */
  ghost predicate CutsAgain(text: string, fields: seq<string>, mandatory: nat)
    requires fields != []
  {
    var seps := Colons(|fields| - 1);
    exists at :: IsCut(text, seps, at) && at != Lengths(fields) && CanonicalFields(Pieces(text, seps, at), mandatory)
  }

  /** A list of fields shares its joined text with another one exactly when the text can be cut again. */
  lemma AmbiguousIff(fields: seq<string>, mandatory: nat)
    requires fields != []
    ensures var seps := Colons(|fields| - 1);
            (exists other: seq<string> ::
               && |other| == |fields| && other != fields && CanonicalFields(other, mandatory)
               && Weave(other, seps) == Weave(fields, seps))
            <==> CutsAgain(Weave(fields, seps), fields, mandatory)
  {
    hide Weave, IsCut, Pieces, Lengths, CanonicalFields;
    var seps := Colons(|fields| - 1);
    var text := Weave(fields, seps);
    var ok := (other: seq<string>) => other != fields && CanonicalFields(other, mandatory);
    ReadableIff(text, seps, ok);
    ReadingIsCut(fields, seps);
    forall at | IsCut(text, seps, at) ensures at == Lengths(fields) <==> Pieces(text, seps, at) == fields {
      CutIsReading(text, seps, at);
    }
    if other: seq<string> :| |other| == |fields| && other != fields && CanonicalFields(other, mandatory)
                             && Weave(other, seps) == text {
      assert ok(other);
    }
    if at :| IsCut(text, seps, at) && at != Lengths(fields) && CanonicalFields(Pieces(text, seps, at), mandatory) {
      assert ok(Pieces(text, seps, at));
    }
  }

  lemma EntryIsAmbiguousIff<T(!new)>(x: T, text: T -> string, fields: T -> seq<string>, make: seq<string> -> T, n: nat,
                                     mandatory: nat)
    requires n >= 1
    requires forall y :: |fields(y)| == n && text(y) == Weave(fields(y), Colons(n - 1))
    requires forall f: seq<string> :: |f| == n ==> fields(make(f)) == f
    ensures Ambiguous(x, text, fields, mandatory) <==> CutsAgain(text(x), fields(x), mandatory)
  {
    hide Weave, CanonicalFields, CutsAgain;
    AmbiguousIff(fields(x), mandatory);
    if other: seq<string> :| |other| == n && other != fields(x) && CanonicalFields(other, mandatory)
                             && Weave(other, Colons(n - 1)) == text(x) {
      assert fields(make(other)) == other;
    }
  }

  /** A binding can be dropped for another one exactly when its text can be cut again. */
  lemma BindingIsAmbiguousIff(b: Binding)
    ensures Ambiguous(b, BindingText, BindingFields, 2) <==> CutsAgain(BindingText(b), BindingFields(b), 2)
  {
    hide Weave, CutsAgain, Ambiguous;
    TextsAreWoven();
    EntryIsAmbiguousIff(b, BindingText, BindingFields,
                        (f: seq<string>) => if |f| == 3 then Binding(f[0], f[1], f[2], false) else b, 3, 2);
  }

  lemma ChildIsAmbiguousIff(c: Child)
    ensures Ambiguous(c, ChildText, ChildFields, 3) <==> CutsAgain(ChildText(c), ChildFields(c), 3)
  {
    hide Weave, CutsAgain, Ambiguous;
    TextsAreWoven();
    EntryIsAmbiguousIff(c, ChildText, ChildFields,
                        (f: seq<string>) => if |f| == 4 then Child(f[0], f[1], f[2], f[3], false, "") else c, 4, 3);
  }

  lemma ApprovalIsAmbiguousIff(a: Approval)
    ensures Ambiguous(a, ApprovalText, ApprovalFields, 2) <==> CutsAgain(ApprovalText(a), ApprovalFields(a), 2)
  {
    hide Weave, CutsAgain, Ambiguous;
    TextsAreWoven();
    EntryIsAmbiguousIff(a, ApprovalText, ApprovalFields,
                        (f: seq<string>) => if |f| == 4 then Approval(f[0], f[1], f[2], f[3], true) else a, 4, 2);
  }

  lemma EscalationIsAmbiguousIff(e: Escalation)
    ensures Ambiguous(e, EscalationText, EscalationFields, 3) <==> CutsAgain(EscalationText(e), EscalationFields(e), 3)
  {
    hide Weave, CutsAgain, Ambiguous;
    TextsAreWoven();
    EntryIsAmbiguousIff(e, EscalationText, EscalationFields,
                        (f: seq<string>) => if |f| == 4 then Escalation(f[0], f[1], f[2], f[3], 0.0) else e, 4, 3);
  }

  lemma RollbackIsAmbiguousIff(r: Rollback)
    ensures Ambiguous(r, RollbackText, RollbackFields, 3) <==> CutsAgain(RollbackText(r), RollbackFields(r), 3)
  {
    hide Weave, CutsAgain, Ambiguous;
    TextsAreWoven();
    EntryIsAmbiguousIff(r, RollbackText, RollbackFields,
                        (f: seq<string>) => if |f| == 4 then Rollback(f[0], f[1], f[2], f[3], false) else r, 4, 3);
  }

  lemma SecondRepeatIsDropped<T(!new)>(first: T, second: T, key: T -> string)
    requires key(first) == key(second)
    ensures FirstOfEachKey([first, second], key) == [first]
  {
    assert [first, second][..1] == [first] && [first][..0] == [];
    assert FirstOfEachKey([first][..0], key) == [];
    assert FirstOfEachKey([first], key) == [first];
    assert first in [first] && key(first) in KeySet([first], key);
  }

  /**
   Two bindings of different runtimes and systems share a text, and the second is lost, with '::' inside a key and even
   with a single ':' at its edge.
   */
  lemma BindingsCanCollide()
    ensures var first := Binding("a::b", "c", "", false); var second := Binding("a", "b::c", "", true);
            first.runtimeKey != second.runtimeKey && first.systemKey != second.systemKey
            && FirstOfEachKey([first, second], BindingText) == [first]
    ensures var first := Binding("a:", "b", "", false); var second := Binding("a", ":b", "", true);
            first.runtimeKey != second.runtimeKey && first.systemKey != second.systemKey
            && FirstOfEachKey([first, second], BindingText) == [first]
  {
    var first, second := Binding("a::b", "c", "", false), Binding("a", "b::c", "", true);
    assert BindingText(first) == "a::b::c::" == BindingText(second);
    SecondRepeatIsDropped(first, second, BindingText);
    var third, fourth := Binding("a:", "b", "", false), Binding("a", ":b", "", true);
    assert BindingText(third) == "a:::b::" == BindingText(fourth);
    SecondRepeatIsDropped(third, fourth, BindingText);
  }
}
