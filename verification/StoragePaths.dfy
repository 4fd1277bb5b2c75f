/**
 Storage write paths: the root prefix of a tenant, workspace and policy, and the guard that keeps every requested path
 under it.
 */
module StoragePaths {
  import opened Wrappers
  import opened Lists
  import opened Text
  import opened Contracts

  datatype PathError = MissingSegment | InvalidSegment

  predicate Alphanumeric(c: char) { 'a' <= c <= 'z' || '0' <= c <= '9' }
  predicate SegmentChar(c: char) { Alphanumeric(c) || c == '.' || c == '_' || c == '-' }

  /** `/^[a-z0-9][a-z0-9._-]*$/` */
  predicate Regular(s: string) {
    s != "" && Alphanumeric(s[0]) && forall i :: 0 <= i < |s| ==> SegmentChar(s[i])
  }

  function NormalizePathSegment(value: string): Result<string, PathError> {
    var normalized := Lower(Trim(value));
    if normalized == "" then Failure(MissingSegment)
    else if normalized == "." || normalized == ".." || '/' in normalized then Failure(InvalidSegment)
    else if !Regular(normalized) then Failure(InvalidSegment)
    else Success(normalized)
  }

  predicate ValidSegment(s: string) { NormalizePathSegment(s).Success? }
  predicate Refused(s: string) { !ValidSegment(s) }

  // Roots.

  /** A tenant's storage policy, its own or one of its workspaces', with every name normalised. */
  datatype StorageScope = StorageScope(tenant: string, workspace: Option<string>, policy: string)

  function BuildTopology(tenantSlug: string, workspaceSlug: Option<string>, policyKey: string)
    : Result<StorageScope, PathError>
  {
    var tenant := NormalizePathSegment(tenantSlug);
    var policy := NormalizePathSegment(policyKey);
    if tenant.Failure? then Failure(tenant.error)
    else if policy.Failure? then Failure(policy.error)
    else if workspaceSlug.None? || workspaceSlug.value == "" then
      Success(StorageScope(tenant.value, None, policy.value))
    else
      var workspace := NormalizePathSegment(workspaceSlug.value);
      if workspace.Failure? then Failure(workspace.error)
      else Success(StorageScope(tenant.value, Some(workspace.value), policy.value))
  }

  predicate NormalScope(s: StorageScope) {
    Regular(s.tenant) && Regular(s.policy) && (s.workspace.Some? ==> Regular(s.workspace.value))
  }

  function RootSegments(s: StorageScope): seq<string> {
    match s.workspace
    case Some(w) => ["tenants", s.tenant, "workspaces", w, "storage", s.policy]
    case None => ["tenants", s.tenant, "storage", s.policy]
  }

  /** `tenants/t/workspaces/w/storage/p`, or `tenants/t/storage/p` */
  function RootPrefix(s: StorageScope): string { Join(RootSegments(s), '/') }

  // The guard.

  /** `replace(/\\+/g, '/')` */
  function ReplaceBackslashes(s: string): string {
    if s == "" then ""
    else if s[0] != '\\' then [s[0]] + ReplaceBackslashes(s[1..])
    else if |s| > 1 && s[1] == '\\' then ReplaceBackslashes(s[1..])
    else ['/'] + ReplaceBackslashes(s[1..])
  }

  /** `replace(/^\/+|\/+$/g, '')` */
  function StripSlashes(s: string): string {
    if s == "" then ""
    else if s[0] == '/' then StripSlashes(s[1..])
    else if s[|s| - 1] == '/' then StripSlashes(s[..|s| - 1])
    else s
  }

  predicate NonEmpty(s: string) { s != "" }

  function NormalizeRelativePath(value: string): Result<string, PathError> {
    var normalized := StripSlashes(ReplaceBackslashes(Trim(value)));
    var segments := Filter(Split(normalized, '/'), NonEmpty);
    if normalized == "" then Success("")
    else
      match Find(segments, Refused)
      case Some(bad) => Failure(NormalizePathSegment(bad).error)
      case None => Success(Join(segments, '/'))
  }

  function EnforceWritePath(rootPrefix: string, requestedPath: string): Result<string, PathError> {
    var normalized := NormalizeRelativePath(requestedPath);
    if normalized.Failure? then normalized
    else if normalized.value == "" then Success(rootPrefix)
    else if rootPrefix + ['/'] <= normalized.value then normalized
    else Success(rootPrefix + ['/'] + normalized.value)
  }

  // Segments.

  lemma BuiltScopeIsNormal(tenantSlug: string, workspaceSlug: Option<string>, policyKey: string)
    requires BuildTopology(tenantSlug, workspaceSlug, policyKey).Success?
    ensures NormalScope(BuildTopology(tenantSlug, workspaceSlug, policyKey).value)
  {
    hide NormalizePathSegment, Regular;
    NormalizedIsRegular(tenantSlug);
    NormalizedIsRegular(policyKey);
    if workspaceSlug.Some? {
      NormalizedIsRegular(workspaceSlug.value);
    }
  }

  lemma NormalizedIsRegular(value: string)
    ensures NormalizePathSegment(value).Success? ==> Regular(NormalizePathSegment(value).value)
  {
    hide Regular, Lower, Trim;
  }

  lemma {:induction false} TrimStartDropsOnlySpace(s: string)
    ensures forall i :: 0 <= i < |s| ==> IsSpace(s[i]) || s[i] in TrimStart(s)
  {
    hide IsSpace;
    if s != "" {
      TrimStartDropsOnlySpace(s[1..]);
      assert forall i :: 0 < i < |s| ==> s[i] == s[1..][i - 1];
    }
  }

  lemma {:induction false} TrimEndDropsOnlySpace(s: string)
    ensures forall i :: 0 <= i < |s| ==> IsSpace(s[i]) || s[i] in TrimEnd(s)
  {
    hide IsSpace;
    if s != "" {
      var n := |s| - 1;
      TrimEndDropsOnlySpace(s[..n]);
      assert forall i :: 0 <= i < n ==> s[i] == s[..n][i];
    }
  }

  lemma CharOfTrimmed(s: string, i: nat)
    requires i < |s|
    ensures IsSpace(s[i]) || s[i] in Trim(s)
  {
    hide IsSpace;
    TrimEndDropsOnlySpace(s);
    TrimStartDropsOnlySpace(TrimEnd(s));
  }

  lemma SegmentCharLaws(c: char)
    ensures SegmentChar(LowerChar(c)) || IsSpace(c) ==> c != '/' && c != '\\'
    ensures SegmentChar(c) ==> !IsSpace(c) && LowerChar(c) == c && c != '/'
  {
  }

  /** A valid segment is not empty and holds no slash of either kind, whatever white space surrounds it. */
  lemma ValidSegmentLaws(s: string)
    requires ValidSegment(s)
    ensures s != "" && Lacks(s, '/') && Lacks(s, '\\')
  {
    hide IsSpace, SegmentChar, LowerChar, Trim, Alphanumeric;
    assert Lower("") == "" && Trim("") == "" by {
      EmptyTexts();
    }
    forall i | 0 <= i < |s| ensures s[i] != '/' && s[i] != '\\' {
      CharOfTrimmed(s, i);
      SegmentCharLaws(s[i]);
      if s[i] in Trim(s) {
        CharOfRegular(Trim(s), s[i]);
      }
    }
  }

  lemma EmptyTexts()
    ensures Lower("") == "" && Trim("") == ""
  {
  }

  lemma CharOfRegular(t: string, c: char)
    requires Regular(Lower(t)) && c in t
    ensures SegmentChar(LowerChar(c))
  {
    hide SegmentChar, LowerChar, Alphanumeric;
    var k :| 0 <= k < |t| && t[k] == c;
    assert SegmentChar(Lower(t)[k]);
  }

  lemma RegularIsTrimmed(s: string)
    requires Regular(s)
    ensures !IsSpace(s[0]) && !IsSpace(s[|s| - 1]) && Lower(s) == s && Lacks(s, '/')
  {
    hide IsSpace, SegmentChar, LowerChar, Alphanumeric;
    forall i | 0 <= i < |s| ensures !IsSpace(s[i]) && LowerChar(s[i]) == s[i] && s[i] != '/' {
      SegmentCharLaws(s[i]);
    }
  }

  lemma RegularIsValid(s: string)
    requires Regular(s)
    ensures ValidSegment(s) && !IsSpace(s[0]) && !IsSpace(s[|s| - 1])
  {
    hide IsSpace, SegmentChar, Trim, Lower;
    RegularIsTrimmed(s);
    TrimLaws(s);
    DotsAreNotRegular();
  }

  lemma DotsAreNotRegular()
    ensures !Regular(".") && !Regular("..")
  {
  }

  ghost predicate AllValid(segments: seq<string>) {
    forall i :: 0 <= i < |segments| ==> ValidSegment(segments[i])
  }

  lemma AllValidLaws(segments: seq<string>)
    requires AllValid(segments)
    ensures forall i :: 0 <= i < |segments| ==> segments[i] != "" && Lacks(segments[i], '/') && Lacks(segments[i], '\\')
  {
    hide ValidSegment;
    forall i | 0 <= i < |segments|
      ensures segments[i] != "" && Lacks(segments[i], '/') && Lacks(segments[i], '\\')
    {
      ValidSegmentLaws(segments[i]);
    }
  }

  lemma FixedNamesAreRegular()
    ensures Regular("tenants") && Regular("workspaces") && Regular("storage") && "workspaces" != "storage"
  {
    assert |"workspaces"| != |"storage"|;
  }

  /** Roots are made of valid segments, and start and end without white space. */
  lemma RootLaws(s: StorageScope)
    requires NormalScope(s)
    ensures AllValid(RootSegments(s)) && Split(RootPrefix(s), '/') == RootSegments(s)
    ensures forall i :: 0 <= i < |RootSegments(s)| ==> Regular(RootSegments(s)[i])
  {
    hide Regular, ValidSegment;
    FixedNamesAreRegular();
    var segments := RootSegments(s);
    forall i | 0 <= i < |segments| ensures ValidSegment(segments[i]) {
      RegularIsValid(segments[i]);
    }
    AllValidLaws(segments);
    SplitJoin(segments, '/');
  }

  // What the guard accepts.

  /** The normalised request is nothing, or valid segments joined. */
  lemma NormalizedSegments(value: string) returns (segments: seq<string>)
    requires NormalizeRelativePath(value).Success? && NormalizeRelativePath(value).value != ""
    ensures segments != [] && AllValid(segments) && NormalizeRelativePath(value).value == Join(segments, '/')
    ensures Split(NormalizeRelativePath(value).value, '/') == segments
  {
    hide ValidSegment;
    segments := Filter(Split(StripSlashes(ReplaceBackslashes(Trim(value))), '/'), NonEmpty);
    forall i | 0 <= i < |segments| ensures ValidSegment(segments[i]) {
      assert segments[i] in segments;
    }
    AllValidLaws(segments);
    SplitJoin(segments, '/');
  }

  /** The path is the root, or the root, a slash, and valid segments. */
  ghost predicate Under(root: string, path: string) {
    path == root
    || exists segments :: segments != [] && AllValid(segments) && path == root + ['/'] + Join(segments, '/')
  }

  lemma AcceptedIsUnder(s: StorageScope, requested: string)
    requires NormalScope(s) && EnforceWritePath(RootPrefix(s), requested).Success?
    ensures Under(RootPrefix(s), EnforceWritePath(RootPrefix(s), requested).value)
  {
    hide NormalizeRelativePath, AllValid, RootPrefix, Regular;
    var root := RootPrefix(s);
    var normalized := NormalizeRelativePath(requested).value;
    if normalized != "" {
      var segments := NormalizedSegments(requested);
      if root + ['/'] <= normalized {
        RootLaws(s);
        RestOfRooted(root, RootSegments(s), normalized, segments);
      }
    }
  }

  lemma RestOfRooted(root: string, rootSegments: seq<string>, path: string, segments: seq<string>)
    requires Split(root, '/') == rootSegments && Split(path, '/') == segments && AllValid(segments)
    requires root + ['/'] <= path
    ensures Under(root, path)
  {
    hide Split, Join, ValidSegment;
    var rest := path[|root| + 1..];
    assert path == root + ['/'] + rest;
    SplitConcat(root, rest, '/');
    assert Split(rest, '/') == segments[|rootSegments|..];
    JoinSplit(rest, '/');
    assert AllValid(Split(rest, '/'));
  }

  /** Text without backslashes, slashes at the ends or white space at the ends reaches the splitting unchanged. */
  lemma {:induction false} ReplaceNothing(s: string)
    requires Lacks(s, '\\')
    ensures ReplaceBackslashes(s) == s
  {
    if s != "" {
      ReplaceNothing(s[1..]);
      assert [s[0]] + s[1..] == s;
    }
  }

  lemma {:induction false} JoinLacks(segments: seq<string>, c: char)
    requires c != '/' && forall i :: 0 <= i < |segments| ==> Lacks(segments[i], c)
    ensures Lacks(Join(segments, '/'), c)
  {
    if |segments| > 1 {
      JoinLacks(segments[1..], c);
    }
  }

  /** The ends of a join are the ends of its first and last parts. */
  lemma {:induction false} JoinEnds(segments: seq<string>)
    requires segments != [] && forall i :: 0 <= i < |segments| ==> segments[i] != ""
    ensures var j := Join(segments, '/');
            && j != "" && j[0] == segments[0][0]
            && j[|j| - 1] == segments[|segments| - 1][|segments[|segments| - 1]| - 1]
  {
    if |segments| > 1 {
      var rest := segments[1..];
      var tail, j := Join(rest, '/'), Join(segments, '/');
      JoinEnds(rest);
      assert j == segments[0] + ['/'] + tail;
      assert j[|j| - 1] == tail[|tail| - 1];
      assert rest[|rest| - 1] == segments[|segments| - 1];
    }
  }

  /** A join of valid segments, with or without a final slash, is its own normal form, if its ends are not trimmed. */
  lemma NormalizeJoin(segments: seq<string>, closing: bool)
    requires segments != [] && AllValid(segments) && !IsSpace(segments[0][0])
    requires closing || Trimmed(Join(segments, '/'))
    ensures NormalizeRelativePath(Join(segments, '/') + if closing then ['/'] else []) == Success(Join(segments, '/'))
  {
    hide ValidSegment, Split, Join, Trim, IsSpace, Filter;
    AllValidLaws(segments);
    var path := Join(segments, '/');
    JoinEnds(segments);
    JoinLacks(segments, '\\');
    var request := path + if closing then ['/'] else [];
    TrimOfRequest(path, request, closing);
    ReplaceNothing(request);
    StripOfRequest(path, request, closing, segments);
    SplitJoin(segments, '/');
    FilterAll(segments, NonEmpty);
  }

  lemma TrimOfRequest(path: string, request: string, closing: bool)
    requires path != "" && !IsSpace(path[0]) && request == path + (if closing then ['/'] else [])
    requires closing || Trimmed(path)
    ensures Trim(request) == request
  {
    hide IsSpace, Trim;
    assert !closing ==> request == path;
    SlashIsNoSpace();
    TrimLaws(request);
  }

  lemma SlashIsNoSpace()
    ensures !IsSpace('/')
  {
  }

  lemma StripOfRequest(path: string, request: string, closing: bool, segments: seq<string>)
    requires path != "" && request == path + (if closing then ['/'] else [])
    requires path[0] != '/' && path[|path| - 1] != '/'
    ensures StripSlashes(request) == path
  {
    if closing {
      assert request[..|request| - 1] == path;
    } else {
      assert request == path;
    }
  }

  lemma UnderIsAccepted(s: StorageScope, path: string) returns (requested: string)
    requires NormalScope(s) && Under(RootPrefix(s), path)
    ensures EnforceWritePath(RootPrefix(s), requested) == Success(path)
  {
    hide NormalizeRelativePath, ValidSegment, RootPrefix, Regular, IsSpace;
    var root := RootPrefix(s);
    if path == root {
      requested := "";
      NormalizeNothing();
    } else {
      var segments :| segments != [] && AllValid(segments) && path == root + ['/'] + Join(segments, '/');
      requested := path + ['/'];
      RootedJoin(s, segments);
      RegularIsValid(RootSegments(s)[0]);
      NormalizeJoin(RootSegments(s) + segments, true);
    }
  }

  lemma NormalizeNothing()
    ensures NormalizeRelativePath("") == Success("")
  {
  }

  lemma RootedJoin(s: StorageScope, segments: seq<string>)
    requires NormalScope(s) && segments != [] && AllValid(segments)
    ensures AllValid(RootSegments(s) + segments) && RootSegments(s) != [] && Regular(RootSegments(s)[0])
    ensures (RootSegments(s) + segments)[0] == RootSegments(s)[0]
    ensures Join(RootSegments(s) + segments, '/') == RootPrefix(s) + ['/'] + Join(segments, '/')
  {
    hide ValidSegment, Regular, Split, Join;
    RootLaws(s);
    var all := RootSegments(s) + segments;
    AllValidLaws(segments);
    SplitJoin(segments, '/');
    SplitConcat(RootPrefix(s), Join(segments, '/'), '/');
    JoinSplit(RootPrefix(s) + ['/'] + Join(segments, '/'), '/');
  }

  /** The write guard accepts exactly the root and the paths of valid segments under the root and a slash. */
  lemma AcceptedIff(s: StorageScope, path: string)
    requires NormalScope(s)
    ensures (exists requested :: EnforceWritePath(RootPrefix(s), requested) == Success(path)) <==>
            Under(RootPrefix(s), path)
  {
    hide EnforceWritePath, Under;
    if requested :| EnforceWritePath(RootPrefix(s), requested) == Success(path) {
      AcceptedIsUnder(s, requested);
    }
    if Under(RootPrefix(s), path) {
      var requested := UnderIsAccepted(s, path);
    }
  }

  // Isolation.

  lemma UnderStartsWithRoot(s: StorageScope, path: string)
    requires NormalScope(s) && Under(RootPrefix(s), path)
    ensures RootSegments(s) <= Split(path, '/') && AllValid(Split(path, '/'))
  {
    hide ValidSegment, Regular, Split, Join;
    RootLaws(s);
    if path != RootPrefix(s) {
      var segments :| segments != [] && AllValid(segments) && path == RootPrefix(s) + ['/'] + Join(segments, '/');
      AllValidLaws(segments);
      SplitJoin(segments, '/');
      SplitConcat(RootPrefix(s), Join(segments, '/'), '/');
    }
  }

  /** No root is a segment-prefix of another. */
  lemma RootsAreIncomparable(a: StorageScope, b: StorageScope, path: seq<string>)
    requires RootSegments(a) <= path && RootSegments(b) <= path
    ensures a == b
  {
    FixedNamesAreRegular();
    assert path[1] == a.tenant == b.tenant;
    assert path[2] == RootSegments(a)[2] == RootSegments(b)[2];
    assert path[3] == RootSegments(a)[3] == RootSegments(b)[3];
    assert a.workspace.Some? ==> path[5] == a.policy;
    assert b.workspace.Some? ==> path[5] == b.policy;
  }

  /** Writes of different scopes never meet: their accepted paths are disjoint. */
  lemma ScopesAreDisjoint(a: StorageScope, b: StorageScope, x: string, y: string)
    requires NormalScope(a) && NormalScope(b)
    requires EnforceWritePath(RootPrefix(a), x).Success? && EnforceWritePath(RootPrefix(b), y).Success?
    requires EnforceWritePath(RootPrefix(a), x).value == EnforceWritePath(RootPrefix(b), y).value
    ensures a == b
  {
    hide EnforceWritePath, RootPrefix, Under, NormalScope, RootSegments;
    var path := EnforceWritePath(RootPrefix(a), x).value;
    AcceptedIsUnder(a, x);
    AcceptedIsUnder(b, y);
    UnderStartsWithRoot(a, path);
    UnderStartsWithRoot(b, path);
    RootsAreIncomparable(a, b, Split(path, '/'));
  }

  /** No accepted path has an empty, `.` or `..` segment, with or without white space around it. */
  lemma AcceptedPathsDoNotClimb(s: StorageScope, requested: string)
    requires NormalScope(s) && EnforceWritePath(RootPrefix(s), requested).Success?
    ensures forall segment :: segment in Split(EnforceWritePath(RootPrefix(s), requested).value, '/') ==>
              Trim(segment) != "" && Trim(segment) != "." && Trim(segment) != ".."
  {
    hide EnforceWritePath, RootPrefix, Under, NormalScope, RootSegments, Split;
    var path := EnforceWritePath(RootPrefix(s), requested).value;
    AcceptedIsUnder(s, requested);
    UnderStartsWithRoot(s, path);
    forall segment | segment in Split(path, '/')
      ensures Trim(segment) != "" && Trim(segment) != "." && Trim(segment) != ".."
    {
      ValidIsNotDots(segment);
    }
  }

  lemma ValidIsNotDots(segment: string)
    requires ValidSegment(segment)
    ensures Trim(segment) != "" && Trim(segment) != "." && Trim(segment) != ".."
  {
    hide Trim;
    assert Lower(".") == "." && Lower("..") == "..";
  }

  /** Guarding a guarded path again changes it exactly when it is the bare root or ends in white space. */
  lemma GuardIsIdempotentIff(s: StorageScope, path: string)
    requires NormalScope(s) && Under(RootPrefix(s), path)
    ensures EnforceWritePath(RootPrefix(s), path) == Success(path) <==>
            path != RootPrefix(s) && !IsSpace(path[|path| - 1])
  {
    hide EnforceWritePath, RootPrefix, Regular, ValidSegment, IsSpace;
    RootLaws(s);
    var root := RootPrefix(s);
    if path == root {
      RootIsGuardedAgain(s);
    } else {
      var segments :| segments != [] && AllValid(segments) && path == root + ['/'] + Join(segments, '/');
      PathIsGuardedAgain(s, segments);
    }
  }

  lemma RootIsGuardedAgain(s: StorageScope)
    requires NormalScope(s)
    ensures RootPrefix(s) != ""
    ensures EnforceWritePath(RootPrefix(s), RootPrefix(s)) == Success(RootPrefix(s) + ['/'] + RootPrefix(s))
  {
    hide NormalizeRelativePath, Regular, ValidSegment, IsSpace;
    RootLaws(s);
    var segments := RootSegments(s);
    AllValidLaws(segments);
    RegularIsValid(segments[0]);
    RegularIsValid(segments[|segments| - 1]);
    JoinEnds(segments);
    NormalizeJoin(segments, false);
    assert RootPrefix(s) + [] == RootPrefix(s);
  }

  lemma PathIsGuardedAgain(s: StorageScope, segments: seq<string>)
    requires NormalScope(s) && segments != [] && AllValid(segments)
    ensures var path := RootPrefix(s) + ['/'] + Join(segments, '/');
            EnforceWritePath(RootPrefix(s), path) == Success(path) <==> !IsSpace(path[|path| - 1])
  {
    hide NormalizeRelativePath, NormalScope, RootSegments, ValidSegment, IsSpace, Join, RootPrefix, Trim;
    var path := RootPrefix(s) + ['/'] + Join(segments, '/');
    var n := |segments| - 1;
    var trimmed := segments[..n] + [TrimEnd(segments[n])];
    TrimmedSegmentIsValid(segments[n]);
    RootedJoin(s, segments);
    RootedJoin(s, trimmed);
    RegularIsValid(RootSegments(s)[0]);
    TrimOfPath(RootSegments(s), segments);
    NormalizeJoin(RootSegments(s) + trimmed, false);
    NormalizeTrimmed(path);
    assert Trim(path) + [] == Trim(path);
    PathStartsPlain(RootSegments(s) + segments);
    TrimChanges(path);
  }

  lemma PathStartsPlain(segments: seq<string>)
    requires segments != [] && AllValid(segments) && !IsSpace(segments[0][0])
    ensures Join(segments, '/') != "" && !IsSpace(Join(segments, '/')[0])
  {
    hide ValidSegment, IsSpace, Join;
    AllValidLaws(segments);
    JoinEnds(segments);
  }

  lemma TrimOfPath(root: seq<string>, segments: seq<string>)
    requires root != [] && segments != [] && AllValid(root + segments) && root[0] != "" && !IsSpace(root[0][0])
    requires TrimEnd(segments[|segments| - 1]) != ""
    ensures var n := |segments| - 1; var trimmed := segments[..n] + [TrimEnd(segments[n])];
            && Trim(Join(root + segments, '/')) == Join(root + trimmed, '/')
            && Trimmed(Join(root + trimmed, '/'))
  {
    hide ValidSegment, IsSpace, Join, Trim;
    var n := |segments| - 1;
    var all := root + segments;
    var before := all[..|all| - 1];
    AllValidLaws(all);
    assert forall i :: 0 <= i < |before| ==> before[i] == all[i];
    assert before[0] == root[0];
    TrimOfJoin(before, segments[n]);
    assert all == before + [segments[n]];
    assert root + (segments[..n] + [TrimEnd(segments[n])]) == before + [TrimEnd(segments[n])];
  }

  lemma TrimmedSegmentIsValid(segment: string)
    requires ValidSegment(segment)
    ensures ValidSegment(TrimEnd(segment)) && TrimEnd(segment) != ""
  {
    hide IsSpace, Regular;
    TrimEndLaws(segment);
    TrimEndLaws(TrimEnd(segment));
    assert TrimEnd(TrimEnd(segment)) == TrimEnd(segment);
    assert Trim(TrimEnd(segment)) == Trim(segment);
  }

  /** Trimming a joined path trims its last segment. */
  lemma TrimOfJoin(before: seq<string>, last: string)
    requires before != [] && TrimEnd(last) != ""
    requires forall i :: 0 <= i < |before| ==> before[i] != ""
    requires !IsSpace(before[0][0])
    ensures Trim(Join(before + [last], '/')) == Join(before + [TrimEnd(last)], '/')
    ensures Trimmed(Join(before + [TrimEnd(last)], '/'))
  {
    hide IsSpace, Join;
    JoinPush(before, last, '/');
    JoinPush(before, TrimEnd(last), '/');
    JoinEnds(before);
    TrimEndOfConcat(Join(before, '/') + ['/'], last);
  }

  lemma {:induction false} TrimEndOfConcat(a: string, b: string)
    requires TrimEnd(b) != ""
    ensures TrimEnd(a + b) == a + TrimEnd(b)
  {
    hide IsSpace;
    var n := |b| - 1;
    assert (a + b)[|a + b| - 1] == b[n];
    if IsSpace(b[n]) {
      assert (a + b)[..|a + b| - 1] == a + b[..n];
      TrimEndOfConcat(a, b[..n]);
    }
  }

  lemma NormalizeTrimmed(path: string)
    ensures NormalizeRelativePath(path) == NormalizeRelativePath(Trim(path))
  {
    hide Trim, ReplaceBackslashes, StripSlashes, Split, Filter, Find, ValidSegment, Join;
    TrimLaws(path);
  }

  lemma TrimChanges(path: string)
    requires path != "" && !IsSpace(path[0])
    ensures Trim(path) == path <==> !IsSpace(path[|path| - 1])
  {
    hide IsSpace, Trim;
    TrimLaws(path);
  }
}
