/**
 The health record of a connection: a timeline of at most ten entries that stands in for the full log, the recovery
 streak and the alert rules read off it, and the operations that change it.
 */
module Health {
  import opened Wrappers
  import opened Lists
  import opened Text
  import opened Contracts

  datatype EntryStatus =
    | Active | Verified | NeedsSetup | ThresholdsUpdated | Acknowledged | Suppressed | Unsuppressed
    | RecoveryNoted | FollowUpAssigned | FollowUpNotified | FollowUpState(state: string)

  datatype Entry = Entry(status: EntryStatus, at: int)

  /** What is stored in the timeline's place: entries, or values that are no objects. */
  type StoredTimeline = seq<Option<Entry>>

  datatype RawThresholds = RawThresholds(immediateFailures: Number, repeatedFailures: Number, cooldownMinutes: Number)
  datatype Thresholds = Thresholds(immediateFailures: int, repeatedFailures: int, cooldownMinutes: int)

  const TIMELINE_LIMIT: nat := 10

  function Entries(stored: StoredTimeline): seq<Entry> {
    if stored == [] then []
    else Entries(stored[..|stored| - 1])
         + match stored[|stored| - 1] case None => [] case Some(e) => [e]
  }

  /** The last n elements, or all if there are fewer. */
  function LastN<T>(s: seq<T>, n: nat): seq<T> { if |s| <= n then s else s[|s| - n..] }

  /** `[...timeline.slice(-9), entry]`, after dropping what is no entry. */
  function AppendTimelineEntry(stored: StoredTimeline, entry: Entry): StoredTimeline {
    Stored(LastN(Entries(stored), 10 - 1) + [entry])
  }

  function Stored(entries: seq<Entry>): StoredTimeline { Map(entries, (e: Entry) => Some(e)) }

  lemma {:induction false} StoredEntries(entries: seq<Entry>)
    ensures Entries(Stored(entries)) == entries
  {
    if entries != [] {
      var n := |entries| - 1;
      StoredEntries(entries[..n]);
      assert Stored(entries)[..n] == Stored(entries[..n]);
      assert entries == entries[..n] + [entries[n]];
    }
  }

  /** Appending to the last ten entries of a log leaves the last ten of the longer log. */
  lemma AppendKeepsLastTen(log: seq<Entry>, entry: Entry)
    ensures AppendTimelineEntry(Stored(LastN(log, 10)), entry) ==
            Stored(LastN(log + [entry], 10))
  {
    StoredEntries(LastN(log, TIMELINE_LIMIT));
    LastNPush(log, TIMELINE_LIMIT, entry);
  }

  lemma LastNPush<T>(s: seq<T>, n: nat, x: T)
    requires n > 0
    ensures LastN(LastN(s, n), n - 1) + [x] == LastN(s + [x], n)
  {
    assert LastN(LastN(s, n), n - 1) == LastN(s, n - 1);
  }

  // The recovery streak.

  predicate Healthy(e: Entry) { e.status == Verified || e.status == Active }

  /** The length of the longest suffix of healthy entries. */
  function HealthySuffix(s: seq<Entry>): (k: nat)
    ensures k <= |s|
    ensures forall i :: |s| - k <= i < |s| ==> Healthy(s[i])
    ensures k < |s| ==> !Healthy(s[|s| - 1 - k])
  {
    if s == [] || !Healthy(s[|s| - 1]) then 0 else 1 + HealthySuffix(s[..|s| - 1])
  }

  lemma SuffixIsUnique(s: seq<Entry>, k: nat)
    requires k <= |s| && forall i :: |s| - k <= i < |s| ==> Healthy(s[i])
    requires k < |s| ==> !Healthy(s[|s| - 1 - k])
    ensures k == HealthySuffix(s)
  {
  }

  method CalculateRecoveryStreak(timeline: seq<Entry>) returns (streak: nat)
    ensures streak == HealthySuffix(timeline)
    ensures forall i :: |timeline| - streak <= i < |timeline| ==>
              timeline[i].status == Verified || timeline[i].status == Active
    ensures streak < |timeline| ==>
              var last := timeline[|timeline| - streak - 1].status; last != Verified && last != Active
  {
    streak := 0;
    var index := |timeline| - 1;
    while index >= 0
      invariant -1 <= index < |timeline| && streak == |timeline| - 1 - index
      invariant forall i :: index < i < |timeline| ==> Healthy(timeline[i])
    {
      if !Healthy(timeline[index]) {
        break;
      }
      streak := streak + 1;
      index := index - 1;
    }
    SuffixIsUnique(timeline, streak);
  }

  /** The streak of the timeline is the streak of the full log, cut off at ten. */
  lemma StreakOfLog(log: seq<Entry>)
    ensures var full := HealthySuffix(log);
            HealthySuffix(LastN(log, 10)) == if full <= 10 then full else 10
  {
    var full := HealthySuffix(log);
    SuffixIsUnique(LastN(log, TIMELINE_LIMIT), if full <= TIMELINE_LIMIT then full else TIMELINE_LIMIT);
  }

  // The cooldown window.

  function LastFailure(s: seq<Entry>): (r: Option<Entry>)
    ensures r.None? <==> forall e :: e in s ==> e.status != NeedsSetup
  {
    if s == [] then None
    else if s[|s| - 1].status == NeedsSetup then Some(s[|s| - 1])
    else
      assert s == s[..|s| - 1] + [s[|s| - 1]];
      LastFailure(s[..|s| - 1])
  }

  /** The end of the window, if it is still open. */
  function CooldownUntil(timeline: seq<Entry>, minutes: int, now: int): Option<int> {
    var failure := LastFailure(timeline);
    if failure.Some? && failure.value.at + minutes * 60000 > now then Some(failure.value.at + minutes * 60000) else None
  }

  ghost predicate Chronological(log: seq<Entry>) {
    forall i, j :: 0 <= i < j < |log| ==> log[i].at <= log[j].at
  }

  lemma {:induction false} LastFailureIsLatest(s: seq<Entry>)
    requires Chronological(s)
    ensures var r := LastFailure(s);
            r.Some? ==> r.value in s && r.value.status == NeedsSetup
                        && forall e :: e in s && e.status == NeedsSetup ==> e.at <= r.value.at
  {
    if s != [] {
      var n := |s| - 1;
      assert s == s[..n] + [s[n]];
      LastFailureIsLatest(s[..n]);
    }
  }

  predicate Recent(e: Entry, minutes: int, now: int) { e.status == NeedsSetup && e.at + minutes * 60000 > now }

  lemma OpenForAnyRecent(timeline: seq<Entry>, minutes: int, now: int)
    requires Chronological(timeline)
    ensures CooldownUntil(timeline, minutes, now).Some? <==> exists e :: e in timeline && Recent(e, minutes, now)
  {
    hide LastFailure, Chronological;
    LastFailureIsLatest(timeline);
  }

  /**
   The window is open exactly when one of the last ten steps is a failure younger than the cooldown: ten later steps
   close it however recent the failure is.
   */
  lemma CooldownOpenIff(log: seq<Entry>, minutes: int, now: int)
    requires Chronological(log)
    ensures CooldownUntil(LastN(log, 10), minutes, now).Some? <==>
            exists i :: |log| - 10 <= i < |log| && 0 <= i && Recent(log[i], minutes, now)
  {
    hide CooldownUntil, Recent, LastN, Chronological;
    var kept := LastN(log, TIMELINE_LIMIT);
    KeptEntries(log, TIMELINE_LIMIT);
    OpenForAnyRecent(kept, minutes, now);
    if e :| e in kept && Recent(e, minutes, now) {
      var i :| |log| - TIMELINE_LIMIT <= i < |log| && 0 <= i && log[i] == e;
    }
  }

  /** The last n entries are those at the last n positions, in their order. */
  lemma KeptEntries(log: seq<Entry>, n: nat)
    ensures Chronological(log) ==> Chronological(LastN(log, n))
    ensures forall i :: |log| - n <= i < |log| && 0 <= i ==> log[i] in LastN(log, n)
    ensures forall e :: e in LastN(log, n) ==> exists i :: |log| - n <= i < |log| && 0 <= i && log[i] == e
  {
    var kept := LastN(log, n);
    var shift := |log| - |kept|;
    forall i | |log| - n <= i < |log| && 0 <= i ensures log[i] in kept {
      assert kept[i - shift] == log[i];
    }
    forall e | e in kept ensures exists i :: |log| - n <= i < |log| && 0 <= i && log[i] == e {
      var k :| 0 <= k < |kept| && kept[k] == e;
      assert log[shift + k] == e;
    }
  }

  // Thresholds.

  predicate IsWhole(value: Number, least: int) {
    value.Finite? && value.value == value.value.Floor as real && value.value.Floor >= least
  }

  function ResolveThresholds(stored: Option<RawThresholds>): (t: Thresholds)
    ensures 1 <= t.immediateFailures <= t.repeatedFailures && 0 <= t.cooldownMinutes
  {
    if stored.None? then Thresholds(1, 3, 15)
    else
      var raw := stored.value;
      var immediate := if IsWhole(raw.immediateFailures, 1) then raw.immediateFailures.value.Floor else 1;
      var repeated :=
        if IsWhole(raw.repeatedFailures, immediate) then raw.repeatedFailures.value.Floor
        else if immediate > 3 then immediate else 3;
      Thresholds(immediate, repeated,
                 if IsWhole(raw.cooldownMinutes, 0) then raw.cooldownMinutes.value.Floor else 15)
  }

  function StoreThresholds(t: Thresholds): RawThresholds {
    RawThresholds(Finite(t.immediateFailures as real), Finite(t.repeatedFailures as real),
                  Finite(t.cooldownMinutes as real))
  }

  lemma ResolvedThresholdsAreFixed(t: Thresholds)
    requires 1 <= t.immediateFailures <= t.repeatedFailures && 0 <= t.cooldownMinutes
    ensures ResolveThresholds(Some(StoreThresholds(t))) == t
  {
  }

  /** `{ ...current, ...provided }`: a field given as undefined still overrides the current one. */
  function Spread(current: Thresholds, provided: RawThresholds): RawThresholds { provided }

  function NextThresholds(current: Thresholds, provided: RawThresholds): Thresholds {
    ResolveThresholds(Some(Spread(current, provided)))
  }

  /** A field left out of an update keeps its value exactly when that value is the default it is reset to. */
  lemma PartialUpdateKeepsFieldIff(current: Thresholds, provided: RawThresholds)
    ensures var next := NextThresholds(current, provided);
            && (provided.immediateFailures.Missing? ==>
                  (next.immediateFailures == current.immediateFailures <==> current.immediateFailures == 1))
            && (provided.repeatedFailures.Missing? ==>
                  (next.repeatedFailures == current.repeatedFailures <==>
                   current.repeatedFailures == if next.immediateFailures > 3 then next.immediateFailures else 3))
            && (provided.cooldownMinutes.Missing? ==>
                  (next.cooldownMinutes == current.cooldownMinutes <==> current.cooldownMinutes == 15))
  {
  }

  /** Resolved thresholds take each whole number that is large enough, and else the default. */
  lemma ThresholdsAre(raw: RawThresholds)
    ensures ResolveThresholds(None) == Thresholds(1, 3, 15)
    ensures var t := ResolveThresholds(Some(raw));
            && Takes(t.immediateFailures, raw.immediateFailures, 1, 1)
            && Takes(t.repeatedFailures, raw.repeatedFailures, t.immediateFailures,
                     if t.immediateFailures > 3 then t.immediateFailures else 3)
            && Takes(t.cooldownMinutes, raw.cooldownMinutes, 0, 15)
  {
  }

  /** The value is the number given, if that is whole and at least the given bound, and else the default. */
  ghost predicate Takes(value: int, given: Number, least: int, fallback: int) {
    if given.Finite? && given.value.Floor as real == given.value && least as real <= given.value
    then value as real == given.value else value == fallback
  }

  // The alert rules.

  function Failures(entries: seq<Entry>): nat { |Filter(entries, (e: Entry) => e.status == NeedsSetup)| }

  function FailuresStored(stored: StoredTimeline): nat {
    |Filter(stored, (e: Option<Entry>) => e.Some? && e.value.status == NeedsSetup)|
  }

  predicate LatestNeedsSetup(stored: StoredTimeline) {
    stored != [] && stored[|stored| - 1].Some? && stored[|stored| - 1].value.status == NeedsSetup
  }

  /** The summary of the connection service: thresholds resolved, the very last stored value, suppression applied. */
  predicate ShouldAlert(stored: StoredTimeline, thresholds: Option<RawThresholds>, suppressed: bool) {
    LatestNeedsSetup(stored) && FailuresStored(stored) >= ResolveThresholds(thresholds).immediateFailures && !suppressed
  }

  predicate ShouldEscalate(stored: StoredTimeline, thresholds: Option<RawThresholds>, suppressed: bool) {
    LatestNeedsSetup(stored) && FailuresStored(stored) >= ResolveThresholds(thresholds).repeatedFailures && !suppressed
  }

  /**
   The rule of the control plane and of the diagnostics service: the stored threshold as it is, the last stored entry,
   no suppression.
   */
  predicate ShouldEscalateOperator(stored: Option<StoredTimeline>, thresholds: Option<RawThresholds>) {
    stored.Some?
    && LastEntryNeedsSetup(stored.value)
    && AtLeast(FailuresStored(stored.value),
               if thresholds.Some? then thresholds.value.repeatedFailures else Finite(3.0))
  }

  predicate LastEntryNeedsSetup(stored: StoredTimeline) {
    var entries := Entries(stored);
    entries != [] && entries[|entries| - 1].status == NeedsSetup
  }

  /** A threshold that is no number falls back to 3. */
  predicate AtLeast(count: nat, threshold: Number) {
    match threshold
    case Missing => count >= 3
    case NotFinite => false
    case Finite(value) => count as real >= value
  }

  // The operations.

  datatype Annotation =
    | Acknowledgement(note: Option<string>)
    | RecoveryNote(note: Option<string>)
    | Assignment(assigneeEmail: Option<string>, note: Option<string>)
    | Notification(channel: Option<string>, recipient: Option<string>, note: Option<string>)
    | FollowUp(state: Option<string>, note: Option<string>)

  /** The last annotation of each kind is stored in a field of its own. */
  datatype AnnotationField =
    | AlertAcknowledgement
    | RecoveryNoteField
    | FollowUpAssignment
    | FollowUpNotification
    | FollowUpStateField

  datatype StoredAnnotation = StoredAnnotation(texts: seq<string>, note: Option<string>, at: int, actor: string)

  function FieldOf(a: Annotation): AnnotationField {
    match a
    case Acknowledgement(_) => AlertAcknowledgement
    case RecoveryNote(_) => RecoveryNoteField
    case Assignment(_, _) => FollowUpAssignment
    case Notification(_, _, _) => FollowUpNotification
    case FollowUp(_, _) => FollowUpStateField
  }

  /** The texts as they are stored: trimmed, and lower-case except for notes and recipients. */
  function AnnotationTexts(a: Annotation): seq<string> {
    match a
    case Acknowledgement(_) => []
    case RecoveryNote(note) => [TrimmedText(note)]
    case Assignment(email, _) => [Lower(TrimmedText(email))]
    case Notification(channel, recipient, _) => [Lower(TrimmedText(channel)), TrimmedText(recipient)]
    case FollowUp(state, _) => [Lower(TrimmedText(state))]
  }

  /** An empty note is stored as none; a recovery note is its own text. */
  function AnnotationNote(a: Annotation): Option<string> {
    if a.RecoveryNote? || TrimmedText(a.note) == "" then None else Some(TrimmedText(a.note))
  }

  /** The entry an annotation leaves, or nothing if a mandatory text is missing or the state is unknown. */
  function AnnotationStatus(a: Annotation): Option<EntryStatus> {
    match a
    case Acknowledgement(_) => Some(Acknowledged)
    case RecoveryNote(note) => if TrimmedText(note) == "" then None else Some(RecoveryNoted)
    case Assignment(email, _) => if TrimmedText(email) == "" then None else Some(FollowUpAssigned)
    case Notification(channel, recipient, _) =>
      if TrimmedText(channel) == "" || TrimmedText(recipient) == "" then None else Some(FollowUpNotified)
    case FollowUp(state, _) =>
      var s := Lower(TrimmedText(state));
      if s == "in-progress" || s == "blocked" || s == "resolved" then Some(FollowUpState(s)) else None
  }

  /** No accepted annotation stores an empty text. */
  lemma AcceptedTextsAreNonEmpty(a: Annotation)
    requires AnnotationStatus(a).Some?
    ensures forall f :: f in AnnotationTexts(a) ==> f != ""
  {
    match a
    case FollowUp(state, _) => assert AnnotationTexts(a) == [Lower(TrimmedText(state))];
    case _ =>
  }

  class HealthRecord {
    var connectionActive: bool
    var timeline: Option<StoredTimeline>
    var alertThresholds: Option<RawThresholds>
    var suppressedUntil: Option<int>
    var annotations: map<AnnotationField, StoredAnnotation>
    ghost var log: seq<Entry>

    /** The timeline is the end of the log, and stored thresholds are resolved ones. */
    ghost predicate Valid()
      reads this
    {
      && (timeline == if log == [] then None else Some(Stored(LastN(log, TIMELINE_LIMIT))))
      && (alertThresholds.Some? ==> alertThresholds.value == StoreThresholds(ResolveThresholds(alertThresholds)))
    }

    constructor ()
      ensures Valid() && log == [] && !connectionActive && annotations == map[]
    {
      annotations := map[];
      connectionActive, timeline, alertThresholds, suppressedUntil := false, None, None, None;
      log := [];
    }

    method Append(entry: Entry)
      requires Valid()
      modifies this`timeline, this`log
      ensures Valid() && log == old(log) + [entry]
    {
      AppendKeepsLastTen(log, entry);
      assert log == [] ==> Stored(LastN(log, TIMELINE_LIMIT)) == [];
      timeline := Some(AppendTimelineEntry(timeline.GetOr([]), entry));
      log := log + [entry];
    }

    method ActivateConnection(now: int)
      requires Valid()
      modifies this`connectionActive, this`timeline, this`log
      ensures Valid() && log == old(log) + [Entry(Active, now)] && connectionActive
    {
      connectionActive := true;
      Append(Entry(Active, now));
    }

    /** A failed verification is logged but never deactivates the connection. */
    method VerifyConnection(now: int, hasSecret: bool, hasEndpoint: bool, hasMapping: bool, hasSyncPolicy: bool)
      returns (passed: bool)
      requires Valid()
      modifies this`connectionActive, this`timeline, this`log
      ensures Valid() && passed == (hasSecret && hasEndpoint && hasMapping && hasSyncPolicy)
      ensures log == old(log) + [Entry(if passed then Verified else NeedsSetup, now)]
      ensures connectionActive == (old(connectionActive) || passed)
    {
      passed := hasSecret && hasEndpoint && hasMapping && hasSyncPolicy;
      connectionActive := connectionActive || passed;
      Append(Entry(if passed then Verified else NeedsSetup, now));
    }

    method UpdateAlertThresholds(now: int, provided: RawThresholds) returns (next: Option<Thresholds>)
      requires Valid()
      modifies this`alertThresholds, this`timeline, this`log
      ensures Valid()
      ensures next.None? <==> provided == RawThresholds(Missing, Missing, Missing)
      ensures next.None? ==> log == old(log) && alertThresholds == old(alertThresholds)
      ensures next.Some? ==>
                && next.value == NextThresholds(ResolveThresholds(old(alertThresholds)), provided)
                && ResolveThresholds(alertThresholds) == next.value
                && log == old(log) + [Entry(ThresholdsUpdated, now)]
    {
      if provided == RawThresholds(Missing, Missing, Missing) {
        return None;
      }
      var t := NextThresholds(ResolveThresholds(alertThresholds), provided);
      ResolvedThresholdsAreFixed(t);
      alertThresholds := Some(StoreThresholds(t));
      Append(Entry(ThresholdsUpdated, now));
      next := Some(t);
    }

    method SuppressHealthAlert(now: int, durationMinutes: Number) returns (ok: bool)
      requires Valid()
      modifies this`suppressedUntil, this`timeline, this`log
      ensures Valid() && (ok <==> durationMinutes.Missing? || (durationMinutes.Finite? && durationMinutes.value > 0.0))
      ensures !ok ==> log == old(log) && suppressedUntil == old(suppressedUntil)
      ensures ok ==> log == old(log) + [Entry(Suppressed, now)]
                     && suppressedUntil == Some(now + Milliseconds(durationMinutes))
    {
      ok := durationMinutes.Missing? || (durationMinutes.Finite? && durationMinutes.value > 0.0);
      if ok {
        suppressedUntil := Some(now + Milliseconds(durationMinutes));
        Append(Entry(Suppressed, now));
      }
    }

    method UnsuppressHealthAlert(now: int)
      requires Valid()
      modifies this`suppressedUntil, this`timeline, this`log
      ensures Valid() && log == old(log) + [Entry(Unsuppressed, now)] && suppressedUntil == None
    {
      suppressedUntil := None;
      Append(Entry(Unsuppressed, now));
    }

    /** A refused annotation changes nothing; an accepted one is logged and replaces the last of its own kind only. */
    method Annotate(now: int, actor: string, a: Annotation) returns (ok: bool)
      requires Valid()
      modifies this`timeline, this`log, this`annotations
      ensures Valid() && (ok <==> AnnotationStatus(a).Some?)
      ensures log == old(log) + if ok then [Entry(AnnotationStatus(a).value, now)] else []
      ensures annotations ==
              if ok then old(annotations)[FieldOf(a) := StoredAnnotation(AnnotationTexts(a), AnnotationNote(a), now,
                                                                         actor)]
              else old(annotations)
      ensures ok ==> forall f :: f in AnnotationTexts(a) ==> f != ""
    {
      var status := AnnotationStatus(a);
      ok := status.Some?;
      if ok {
        AcceptedTextsAreNonEmpty(a);
        annotations := annotations[FieldOf(a) := StoredAnnotation(AnnotationTexts(a), AnnotationNote(a), now, actor)];
        Append(Entry(status.value, now));
      }
    }

    /** The alerting part of the health summary, the streak of the log up to ten, and the cooldown window. */
    method GetConnectionHealthTimeline(now: int)
      returns (streak: nat, cooldown: Option<int>, alert: bool, escalate: bool)
      requires Valid()
      ensures cooldown ==
              CooldownUntil(LastN(log, 10), ResolveThresholds(alertThresholds).cooldownMinutes, now)
      ensures streak == if HealthySuffix(log) <= 10 then HealthySuffix(log) else 10
      ensures var failures := Failures(LastN(log, 10));
              var failing := log != [] && log[|log| - 1].status == NeedsSetup;
              var suppressed := suppressedUntil.Some? && now < suppressedUntil.value;
              && (alert <==> failing && !suppressed && failures >= ResolveThresholds(alertThresholds).immediateFailures)
              && (escalate <==>
                    failing && !suppressed && failures >= ResolveThresholds(alertThresholds).repeatedFailures)
              && (escalate <==> ShouldEscalateOperator(timeline, alertThresholds) && !suppressed)
      ensures escalate ==> alert
    {
      hide ShouldAlert, ShouldEscalate, ShouldEscalateOperator, ResolveThresholds, HealthySuffix, CooldownUntil,
           Failures, Entries, Stored, LastN;
      var stored := timeline.GetOr([]);
      StoredEntries(LastN(log, TIMELINE_LIMIT));
      NothingStored();
      StreakOfLog(log);
      streak := CalculateRecoveryStreak(Entries(stored));
      cooldown := CooldownUntil(Entries(stored), ResolveThresholds(alertThresholds).cooldownMinutes, now);
      var suppressed := SuppressedAt(suppressedUntil, now);
      alert := ShouldAlert(stored, alertThresholds, suppressed);
      escalate := ShouldEscalate(stored, alertThresholds, suppressed);
      RulesAgree(log, alertThresholds, suppressed);
      AlertsIff(log, alertThresholds, suppressed);
      EscalatesIff(log, alertThresholds);
      SuppressionSilences(stored, alertThresholds, suppressed);
    }
  }

  /** A suppression lasts the given minutes, or sixty. */
  lemma MillisecondsAre(durationMinutes: Number)
    requires durationMinutes.Missing? || durationMinutes.Finite?
    ensures durationMinutes.Missing? ==> Milliseconds(durationMinutes) == 3600000
    ensures durationMinutes.Finite? ==>
              Milliseconds(durationMinutes) as real <= durationMinutes.value * 60000.0
              < Milliseconds(durationMinutes) as real + 1.0
  {
  }

  /** What each kind of annotation demands, is logged as, stores and replaces. */
  lemma AnnotationIs(a: Annotation)
    ensures a.Acknowledgement? ==>
              && AnnotationStatus(a) == Some(Acknowledged) && AnnotationTexts(a) == []
              && FieldOf(a) == AlertAcknowledgement
    ensures a.RecoveryNote? ==>
              && (AnnotationStatus(a) == if TrimmedText(a.note) == "" then None else Some(RecoveryNoted))
              && AnnotationTexts(a) == [TrimmedText(a.note)] && FieldOf(a) == RecoveryNoteField
    ensures a.Assignment? ==>
              && (AnnotationStatus(a) == if TrimmedText(a.assigneeEmail) == "" then None else Some(FollowUpAssigned))
              && AnnotationTexts(a) == [Lower(TrimmedText(a.assigneeEmail))] && FieldOf(a) == FollowUpAssignment
    ensures a.Notification? ==>
              && (AnnotationStatus(a) == if TrimmedText(a.channel) == "" || TrimmedText(a.recipient) == "" then None
                                         else Some(FollowUpNotified))
              && AnnotationTexts(a) == [Lower(TrimmedText(a.channel)), TrimmedText(a.recipient)]
              && FieldOf(a) == FollowUpNotification
    ensures a.FollowUp? ==>
              var state := Lower(TrimmedText(a.state));
              && (AnnotationStatus(a) == if state == "in-progress" || state == "blocked" || state == "resolved"
                                         then Some(FollowUpState(state)) else None)
              && AnnotationTexts(a) == [state] && FieldOf(a) == FollowUpStateField
    ensures AnnotationNote(a) ==
            if a.RecoveryNote? || TrimmedText(a.note) == "" then None else Some(TrimmedText(a.note))
  {
    hide TrimmedText, Lower;
  }

  function Milliseconds(durationMinutes: Number): int
    requires durationMinutes.Missing? || durationMinutes.Finite?
  {
    ((if durationMinutes.Missing? then 60.0 else durationMinutes.value) * 60000.0).Floor
  }

  predicate SuppressedAt(suppressedUntil: Option<int>, now: int) {
    suppressedUntil.Some? && suppressedUntil.value > now
  }

  // The three rules.

  /** On the end of a log, with resolved thresholds, the three escalation rules differ only in suppression. */
  lemma RulesAgree(log: seq<Entry>, thresholds: Option<RawThresholds>, suppressed: bool)
    requires thresholds.Some? ==> thresholds.value == StoreThresholds(ResolveThresholds(thresholds))
    ensures var stored := Stored(LastN(log, 10));
            var visible := if log == [] then None else Some(stored);
            && (ShouldEscalate(stored, thresholds, suppressed) <==>
                ShouldEscalateOperator(visible, thresholds) && !suppressed)
            && (ShouldEscalate(stored, thresholds, suppressed) ==> ShouldAlert(stored, thresholds, suppressed))
  {
    var stored := Stored(LastN(log, TIMELINE_LIMIT));
    StoredEntries(LastN(log, TIMELINE_LIMIT));
    ThresholdsAgree(FailuresStored(stored), thresholds);
  }

  lemma ThresholdsAgree(count: nat, thresholds: Option<RawThresholds>)
    requires thresholds.Some? ==> thresholds.value == StoreThresholds(ResolveThresholds(thresholds))
    ensures AtLeast(count, if thresholds.Some? then thresholds.value.repeatedFailures else Finite(3.0)) <==>
            count >= ResolveThresholds(thresholds).repeatedFailures
  {
  }

  lemma {:induction false} FailuresOfStored(entries: seq<Entry>)
    ensures FailuresStored(Stored(entries)) == Failures(entries)
  {
    if entries != [] {
      FailuresOfStored(entries[1..]);
      assert Stored(entries)[1..] == Stored(entries[1..]);
    }
  }

  lemma NothingStored()
    ensures Stored(LastN([], TIMELINE_LIMIT)) == []
  {
  }

  /** The alert in terms of the log. */
  lemma AlertsIff(log: seq<Entry>, thresholds: Option<RawThresholds>, suppressed: bool)
    ensures ShouldAlert(Stored(LastN(log, 10)), thresholds, suppressed) <==>
            && !suppressed && log != [] && log[|log| - 1].status == NeedsSetup
            && Failures(LastN(log, 10)) >= ResolveThresholds(thresholds).immediateFailures
  {
    hide ResolveThresholds;
    FailuresOfStored(LastN(log, TIMELINE_LIMIT));
  }

  lemma SuppressionSilences(stored: StoredTimeline, thresholds: Option<RawThresholds>, suppressed: bool)
    ensures ShouldEscalate(stored, thresholds, suppressed) <==>
            ShouldEscalate(stored, thresholds, false) && !suppressed
  {
  }

  /** In terms of the log: the last step failed, and enough of the last ten steps did. */
  lemma EscalatesIff(log: seq<Entry>, thresholds: Option<RawThresholds>)
    ensures ShouldEscalate(Stored(LastN(log, 10)), thresholds, false) <==>
            && log != [] && log[|log| - 1].status == NeedsSetup
            && Failures(LastN(log, 10)) >= ResolveThresholds(thresholds).repeatedFailures
  {
    FailuresOfStored(LastN(log, TIMELINE_LIMIT));
  }

  function FailingLog(n: nat): seq<Entry> { seq(n, _ => Entry(NeedsSetup, 0)) }

  /** Some history escalates exactly when the threshold is at most ten: a larger one silences escalation for good. */
  lemma EscalationPossibleIff(thresholds: Option<RawThresholds>)
    ensures (exists log :: ShouldEscalate(Stored(LastN(log, 10)), thresholds, false)) <==>
            ResolveThresholds(thresholds).repeatedFailures <= 10
  {
    if log :| ShouldEscalate(Stored(LastN(log, TIMELINE_LIMIT)), thresholds, false) {
      EscalatesIff(log, thresholds);
    }
    if ResolveThresholds(thresholds).repeatedFailures <= TIMELINE_LIMIT {
      var log := FailingLog(TIMELINE_LIMIT);
      FilterEverything(log);
      EscalatesIff(log, thresholds);
    }
  }

  lemma FilterEverything(log: seq<Entry>)
    requires forall e :: e in log ==> e.status == NeedsSetup
    ensures Failures(log) == |log|
  {
    FilterAll(log, (e: Entry) => e.status == NeedsSetup);
  }
}
