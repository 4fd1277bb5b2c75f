/**
 Which path answers which write request: the request is read as segments with slashes of either kind between and around
 them, and the answer is a function of those segments.
 */
module StorageRequests {
  import opened Wrappers
  import opened Lists
  import opened Text
  import opened StoragePaths

  predicate IsSlash(c: char) { c == '/' || c == '\\' }

  predicate Gap(g: string) { forall i :: 0 <= i < |g| ==> IsSlash(g[i]) }

  predicate Chunk(s: string) { s != "" && forall i :: 0 <= i < |s| ==> !IsSlash(s[i]) }

  /** A gap, and then each segment with the gap behind it. */
  function Layout(segments: seq<string>, gaps: seq<string>): string
    requires |gaps| == |segments| + 1
  {
    if segments == [] then gaps[0] else gaps[0] + (segments[0] + Layout(segments[1..], gaps[1..]))
  }

  /** Segments free of slashes, slashes alone around them, and at least one slash between any two. */
  ghost predicate LaidOut(segments: seq<string>, gaps: seq<string>) {
    && |gaps| == |segments| + 1
    && (forall i :: 0 <= i < |segments| ==> Chunk(segments[i]))
    && (forall i :: 0 <= i < |gaps| ==> Gap(gaps[i]))
    && (forall i :: 0 < i < |segments| ==> gaps[i] != "")
  }

  /** The request, trimmed, is made of these segments. */
  ghost predicate Reads(request: string, segments: seq<string>) {
    exists gaps :: LaidOut(segments, gaps) && Trim(request) == Layout(segments, gaps)
  }

  // Every request can be read.

  lemma LaidOutTail(segments: seq<string>, gaps: seq<string>)
    requires LaidOut(segments, gaps) && segments != []
    ensures LaidOut(segments[1..], gaps[1..])
  {
  }

  lemma PrependSlash(c: char, segments: seq<string>, gaps: seq<string>)
    requires IsSlash(c) && LaidOut(segments, gaps)
    ensures LaidOut(segments, [[c] + gaps[0]] + gaps[1..])
    ensures Layout(segments, [[c] + gaps[0]] + gaps[1..]) == [c] + Layout(segments, gaps)
  {
    var longer := [[c] + gaps[0]] + gaps[1..];
    assert longer[1..] == gaps[1..];
    assert forall i :: 0 < i < |gaps| ==> longer[i] == gaps[i];
  }

  /** A character before a segment joins it, and before a slash or the end it is a segment of its own. */
  lemma PrependChar(c: char, segments: seq<string>, gaps: seq<string>)
    returns (segments': seq<string>, gaps': seq<string>)
    requires !IsSlash(c) && LaidOut(segments, gaps)
    ensures LaidOut(segments', gaps') && Layout(segments', gaps') == [c] + Layout(segments, gaps)
  {
    if gaps[0] == "" && segments != [] {
      segments', gaps' := [[c] + segments[0]] + segments[1..], gaps;
      assert segments'[1..] == segments[1..];
      assert forall i :: 0 < i < |segments| ==> segments'[i] == segments[i];
      assert [c] + ("" + (segments[0] + Layout(segments[1..], gaps[1..]))) ==
             "" + (([c] + segments[0]) + Layout(segments[1..], gaps[1..]));
    } else {
      segments', gaps' := [[c]] + segments, [""] + gaps;
      assert segments'[1..] == segments && gaps'[1..] == gaps;
      assert forall i :: 0 < i < |segments'| ==> segments'[i] == segments[i - 1];
      assert forall i :: 0 < i < |gaps'| ==> gaps'[i] == gaps[i - 1];
    }
  }

  lemma {:induction false} TextIsLaidOut(text: string) returns (segments: seq<string>, gaps: seq<string>)
    ensures LaidOut(segments, gaps) && Layout(segments, gaps) == text
  {
    hide LaidOut, Layout;
    if text == "" {
      segments, gaps := [], [""];
      NothingIsLaidOut();
    } else {
      segments, gaps := TextIsLaidOut(text[1..]);
      assert text == [text[0]] + text[1..];
      if IsSlash(text[0]) {
        PrependSlash(text[0], segments, gaps);
        GapsAreSome(segments, gaps);
        gaps := [[text[0]] + gaps[0]] + gaps[1..];
      } else {
        segments, gaps := PrependChar(text[0], segments, gaps);
      }
    }
  }

  lemma NothingIsLaidOut()
    ensures LaidOut([], [""]) && Layout([], [""]) == ""
  {
  }

  lemma GapsAreSome(segments: seq<string>, gaps: seq<string>)
    requires LaidOut(segments, gaps)
    ensures |gaps| == |segments| + 1
  {
  }

  // The pipeline finds the segments.

  function Words(s: string): seq<string> { Filter(Split(s, '/'), NonEmpty) }

  lemma WordsConcat(a: string, b: string)
    ensures Words(a + ['/'] + b) == Words(a) + Words(b)
  {
    SplitConcat(a, b, '/');
    FilterConcat(Split(a, '/'), Split(b, '/'), NonEmpty);
  }

  lemma NoWords()
    ensures Words("") == []
  {
  }

  lemma OneWord(s: string)
    requires Chunk(s)
    ensures Words(s) == [s]
  {
    SplitLacks(s, '/');
    FilterOne(s, NonEmpty);
  }

  lemma WordsAfterSlash(s: string)
    ensures Words(['/'] + s) == Words(s) && Words(s + ['/']) == Words(s)
  {
    NoWords();
    WordsConcat("", s);
    WordsConcat(s, "");
    assert "" + ['/'] + s == ['/'] + s && s + ['/'] + "" == s + ['/'];
  }

  lemma {:induction false} WordsOfStripped(s: string)
    ensures Words(StripSlashes(s)) == Words(s)
  {
    hide Words;
    if s != "" {
      if s[0] == '/' {
        WordsOfStripped(s[1..]);
        WordsAfterSlash(s[1..]);
        assert s == ['/'] + s[1..];
      } else if s[|s| - 1] == '/' {
        var n := |s| - 1;
        WordsOfStripped(s[..n]);
        WordsAfterSlash(s[..n]);
        assert s == s[..n] + ['/'];
      }
    }
  }

  predicate Slashes(s: string) { forall i :: 0 <= i < |s| ==> s[i] == '/' }

  lemma {:induction false} WordsAfterSlashes(slashes: string, s: string)
    requires Slashes(slashes)
    ensures Words(slashes + s) == Words(s)
  {
    hide Words;
    if slashes == "" {
      assert slashes + s == s;
    } else {
      WordsAfterSlashes(slashes[1..], s);
      WordsAfterSlash(slashes[1..] + s);
      assert slashes + s == ['/'] + (slashes[1..] + s);
    }
  }

  /** Backslashes are replaced run by run, so nothing changes across a border that is no run. */
  lemma {:induction false} ReplaceConcat(a: string, b: string)
    requires a == "" || b == "" || a[|a| - 1] != '\\' || b[0] != '\\'
    ensures ReplaceBackslashes(a + b) == ReplaceBackslashes(a) + ReplaceBackslashes(b)
  {
    if a == "" {
      assert a + b == b;
    } else {
      assert (a + b)[1..] == a[1..] + b;
      ReplaceConcat(a[1..], b);
    }
  }

  lemma {:induction false} ReplacedGap(g: string)
    requires Gap(g)
    ensures Slashes(ReplaceBackslashes(g))
  {
    if g != "" {
      ReplacedGap(g[1..]);
    }
  }

  lemma {:induction false} ReplacedHead(s: string)
    requires s != "" && IsSlash(s[0])
    ensures ReplaceBackslashes(s) != "" && ReplaceBackslashes(s)[0] == '/'
  {
    if |s| > 1 && s[0] == '\\' && s[1] == '\\' {
      ReplacedHead(s[1..]);
    }
  }

  /** Behind a segment stands nothing or a slash. */
  lemma LayoutHead(segments: seq<string>, gaps: seq<string>)
    requires LaidOut(segments, gaps) && segments != []
    ensures var rest := Layout(segments[1..], gaps[1..]); rest == "" || IsSlash(rest[0])
  {
    if |segments| > 1 {
      assert gaps[1] != "" && Gap(gaps[1]);
    } else {
      assert Gap(gaps[1]);
    }
  }

  /** The words of a segment and what follows it, once its backslashes are replaced. */
  lemma WordsOfSegment(segment: string, rest: string)
    requires Chunk(segment) && (rest == "" || IsSlash(rest[0]))
    ensures ReplaceBackslashes(segment + rest) == segment + ReplaceBackslashes(rest)
    ensures Words(segment + ReplaceBackslashes(rest)) == [segment] + Words(ReplaceBackslashes(rest))
  {
    hide Words, ReplaceBackslashes;
    ReplaceConcat(segment, rest);
    ReplaceNothing(segment);
    if rest == "" {
      ReplaceNothing(rest);
    } else {
      ReplacedHead(rest);
    }
    WordsBehind(segment, ReplaceBackslashes(rest));
  }

  lemma WordsBehind(segment: string, rest: string)
    requires Chunk(segment) && (rest == "" || rest[0] == '/')
    ensures Words(segment + rest) == [segment] + Words(rest)
  {
    hide Words;
    OneWord(segment);
    if rest == "" {
      NoWords();
      assert segment + rest == segment;
    } else {
      assert segment + rest == segment + ['/'] + rest[1..] && rest == ['/'] + rest[1..];
      WordsConcat(segment, rest[1..]);
      WordsAfterSlash(rest[1..]);
    }
  }

  lemma {:induction false} WordsOfLayout(segments: seq<string>, gaps: seq<string>)
    requires LaidOut(segments, gaps)
    ensures Words(ReplaceBackslashes(Layout(segments, gaps))) == segments
  {
    hide Words;
    assert Gap(gaps[0]);
    ReplacedGap(gaps[0]);
    if segments == [] {
      WordsAfterSlashes(ReplaceBackslashes(gaps[0]), "");
      NoWords();
      assert ReplaceBackslashes(gaps[0]) + "" == ReplaceBackslashes(gaps[0]);
    } else {
      var rest := Layout(segments[1..], gaps[1..]);
      assert Chunk(segments[0]);
      LaidOutTail(segments, gaps);
      WordsOfLayout(segments[1..], gaps[1..]);
      LayoutHead(segments, gaps);
      WordsOfSegment(segments[0], rest);
      ReplaceConcat(gaps[0], segments[0] + rest);
      WordsAfterSlashes(ReplaceBackslashes(gaps[0]), segments[0] + ReplaceBackslashes(rest));
    }
  }

  /** A stripped text is empty exactly when it had no words. */
  lemma {:induction false} StrippedIsEmptyIff(s: string)
    ensures StripSlashes(s) == "" <==> Slashes(s)
  {
    if s != "" {
      if s[0] == '/' {
        StrippedIsEmptyIff(s[1..]);
        assert forall i :: 0 < i < |s| ==> s[i] == s[1..][i - 1];
      } else if s[|s| - 1] == '/' {
        StrippedIsEmptyIff(s[..|s| - 1]);
        assert s[0] == s[..|s| - 1][0];
      }
    }
  }

  lemma SlashesHaveNoWords(s: string)
    ensures Slashes(s) ==> Words(s) == []
    ensures s != "" && s[0] != '/' ==> Words(s) != []
  {
    if Slashes(s) {
      WordsAfterSlashes(s, "");
      NoWords();
      assert s + "" == s;
    }
    if s != "" && s[0] != '/' {
      assert Split(s, '/')[0] != "";
      assert NonEmpty(Split(s, '/')[0]) && Split(s, '/')[0] in Split(s, '/');
    }
  }

  lemma StrippedHead(s: string)
    ensures StripSlashes(s) != "" ==> StripSlashes(s)[0] != '/'
  {
  }

  // The answer.

  /** The segment at position k is the first that is not valid. */
  ghost predicate FirstBad(segments: seq<string>, k: nat) {
    k < |segments| && !ValidSegment(segments[k]) && forall i :: 0 <= i < k ==> ValidSegment(segments[i])
  }

  lemma {:induction false} SomeFirstBad(segments: seq<string>) returns (k: nat)
    requires !AllValid(segments)
    ensures FirstBad(segments, k)
  {
    hide ValidSegment;
    if !ValidSegment(segments[0]) {
      k := 0;
    } else {
      var i :| 0 <= i < |segments| && !ValidSegment(segments[i]);
      assert segments[1..][i - 1] == segments[i];
      k := SomeFirstBad(segments[1..]);
      assert forall j :: 0 < j < k + 1 ==> segments[j] == segments[1..][j - 1];
      k := k + 1;
    }
  }

  /** Letters, digits, dots, underscores and hyphens, and one of the first two at the front. */
  predicate RegularName(t: string) {
    && t != "" && ('a' <= t[0] <= 'z' || '0' <= t[0] <= '9')
    && forall i :: 0 <= i < |t| ==>
         'a' <= t[i] <= 'z' || '0' <= t[i] <= '9' || t[i] == '.' || t[i] == '_' || t[i] == '-'
  }

  lemma RegularIs(t: string)
    ensures Regular(t) <==> RegularName(t)
  {
  }

  /** A segment is valid exactly when its trimmed lower-case text is a regular name. */
  lemma ValidIff(s: string)
    ensures ValidSegment(s) <==> RegularName(Lower(Trim(s)))
    ensures NormalizePathSegment(s) ==
            if RegularName(Lower(Trim(s))) then Success(Lower(Trim(s)))
            else Failure(if Trim(s) == "" then MissingSegment else InvalidSegment)
  {
    hide Trim, Regular, RegularName, LowerChar;
    RegularIs(Lower(Trim(s)));
    DotsAreNotRegular();
    SlashIsNotRegular(Lower(Trim(s)));
    assert Lower("") == "";
  }

  lemma SlashIsNotRegular(s: string)
    ensures Regular(s) ==> s != "" && '/' !in s
  {
    hide Alphanumeric;
    assert !SegmentChar('/') by {
      SegmentCharLaws('/');
    }
  }

  /** The request without its gaps, or the refusal of its first invalid segment. */
  lemma NormalizedIs(request: string, segments: seq<string>)
    requires Reads(request, segments)
    ensures AllValid(segments) ==> NormalizeRelativePath(request) == Success(Join(segments, '/'))
    ensures forall k: nat :: FirstBad(segments, k) ==>
              NormalizeRelativePath(request) ==
              Failure(if Trim(segments[k]) == "" then MissingSegment else InvalidSegment)
  {
    hide Words, ValidSegment, StripSlashes, ReplaceBackslashes, Trim, NormalizePathSegment, Layout, FirstBad;
    var gaps :| LaidOut(segments, gaps) && Trim(request) == Layout(segments, gaps);
    var replaced := ReplaceBackslashes(Trim(request));
    WordsOfLayout(segments, gaps);
    WordsOfStripped(replaced);
    StrippedIsEmptyIff(replaced);
    SlashesHaveNoWords(replaced);
    SlashesHaveNoWords(StripSlashes(replaced));
    StrippedHead(replaced);
    PipelineAnswers(request, segments);
  }

  lemma PipelineAnswers(request: string, segments: seq<string>)
    requires var normalized := StripSlashes(ReplaceBackslashes(Trim(request)));
             Words(normalized) == segments && (normalized == "" <==> segments == [])
    ensures AllValid(segments) ==> NormalizeRelativePath(request) == Success(Join(segments, '/'))
    ensures forall k: nat :: FirstBad(segments, k) ==>
              NormalizeRelativePath(request) ==
              Failure(if Trim(segments[k]) == "" then MissingSegment else InvalidSegment)
  {
    hide StripSlashes, ReplaceBackslashes, Trim, NormalizePathSegment, Split, Filter, Find;
    forall k: nat | FirstBad(segments, k)
      ensures NormalizeRelativePath(request) ==
              Failure(if Trim(segments[k]) == "" then MissingSegment else InvalidSegment)
    {
      FindUnique(segments, Refused, k);
      ValidIff(segments[k]);
    }
    forall s | AllValid(segments) && s in segments ensures !Refused(s) {
      var i :| 0 <= i < |segments| && segments[i] == s;
    }
  }

  /** The path a request names under a root: its own segments, with the root in front unless it is there already. */
  function Named(root: seq<string>, segments: seq<string>): seq<string> {
    if root < segments then segments else root + segments
  }

  lemma StartsWithRootIff(s: StorageScope, segments: seq<string>)
    requires NormalScope(s) && segments != [] && AllValid(segments)
    ensures RootPrefix(s) + ['/'] <= Join(segments, '/') <==> RootSegments(s) < segments
  {
    hide ValidSegment, Regular, Split, Join, NormalScope;
    var root, path := RootSegments(s), Join(segments, '/');
    RootLaws(s);
    AllValidLaws(segments);
    SplitJoin(segments, '/');
    if RootPrefix(s) + ['/'] <= path {
      var rest := path[|RootPrefix(s)| + 1..];
      assert path == RootPrefix(s) + ['/'] + rest;
      SplitConcat(RootPrefix(s), rest, '/');
    }
    if root < segments {
      var rest := segments[|root|..];
      assert segments == root + rest && AllValid(rest);
      RootedJoin(s, rest);
    }
  }

  /**
   The path that answers a request: the root if it has no segments, else its segments with the root in front, once.
   It is refused exactly when a segment is not valid, by the first such segment.
   */
  lemma RequestIs(s: StorageScope, request: string, segments: seq<string>)
    requires NormalScope(s) && Reads(request, segments)
    ensures AllValid(segments) ==>
              EnforceWritePath(RootPrefix(s), request) == Success(Join(Named(RootSegments(s), segments), '/'))
    ensures forall k: nat :: FirstBad(segments, k) ==>
              EnforceWritePath(RootPrefix(s), request) ==
              Failure(if Trim(segments[k]) == "" then MissingSegment else InvalidSegment)
  {
    hide NormalizeRelativePath, ValidSegment, Reads, RootSegments, NormalScope, FirstBad, Trim;
    NormalizedIs(request, segments);
    if AllValid(segments) {
      if segments == [] {
        assert RootSegments(s) + segments == RootSegments(s);
      } else {
        AllValidLaws(segments);
        JoinEnds(segments);
        StartsWithRootIff(s, segments);
        RootedJoin(s, segments);
      }
    }
  }

  /** Every request has its segments, so the law above is about all of them. */
  lemma EveryRequestReads(request: string) returns (segments: seq<string>)
    ensures Reads(request, segments)
  {
    hide LaidOut, Layout;
    var gaps;
    segments, gaps := TextIsLaidOut(Trim(request));
    GapsAreSome(segments, gaps);
  }

  /** A request is refused exactly when one of its segments is not valid. */
  lemma RefusedIff(s: StorageScope, request: string, segments: seq<string>)
    requires NormalScope(s) && Reads(request, segments)
    ensures EnforceWritePath(RootPrefix(s), request).Failure? <==> !AllValid(segments)
  {
    hide EnforceWritePath, Reads, NormalScope;
    RequestIs(s, request, segments);
    if !AllValid(segments) {
      var k := SomeFirstBad(segments);
    }
  }

  /** Two accepted requests get one path exactly when they name one path, so no two documents are merged. */
  lemma SamePathIff(s: StorageScope, x: string, xs: seq<string>, y: string, ys: seq<string>)
    requires NormalScope(s) && Reads(x, xs) && Reads(y, ys) && AllValid(xs) && AllValid(ys)
    ensures EnforceWritePath(RootPrefix(s), x) == EnforceWritePath(RootPrefix(s), y) <==>
            Named(RootSegments(s), xs) == Named(RootSegments(s), ys)
  {
    hide EnforceWritePath, Reads, NormalScope, RootSegments, ValidSegment, Join, Split;
    RequestIs(s, x, xs);
    RequestIs(s, y, ys);
    NamedIsValid(s, xs);
    NamedIsValid(s, ys);
    SplitJoin(Named(RootSegments(s), xs), '/');
    SplitJoin(Named(RootSegments(s), ys), '/');
  }

  lemma NamedIsValid(s: StorageScope, segments: seq<string>)
    requires NormalScope(s) && AllValid(segments)
    ensures var named := Named(RootSegments(s), segments);
            named != [] && forall i :: 0 <= i < |named| ==> Lacks(named[i], '/')
  {
    hide NormalScope, ValidSegment, Regular;
    RootLaws(s);
    AllValidLaws(RootSegments(s));
    AllValidLaws(segments);
  }

  /** The root of a scope, in full, and when there is none. */
  lemma TopologyIs(tenant: string, workspace: Option<string>, policy: string)
    ensures var built := BuildTopology(tenant, workspace, policy);
            var own := workspace.Some? && workspace.value != "";
            && (built.Success? <==>
                  ValidSegment(tenant) && ValidSegment(policy) && (own ==> ValidSegment(workspace.value)))
            && (built == Failure(MissingSegment) ==>
                  Trim(tenant) == "" || Trim(policy) == "" || (own && Trim(workspace.value) == ""))
            && (built.Failure? && Trim(tenant) == "" ==> built == Failure(MissingSegment))
            && (built.Success? ==>
                  RootPrefix(built.value) ==
                  Join(["tenants", Lower(Trim(tenant))]
                       + (if own then ["workspaces", Lower(Trim(workspace.value))] else [])
                       + ["storage", Lower(Trim(policy))], '/'))
  {
    hide Trim, Regular, Join;
    ValidIff(tenant);
    ValidIff(policy);
    if workspace.Some? {
      ValidIff(workspace.value);
      assert ["tenants", Lower(Trim(tenant))] + ["workspaces", Lower(Trim(workspace.value))]
             + ["storage", Lower(Trim(policy))] ==
             ["tenants", Lower(Trim(tenant)), "workspaces", Lower(Trim(workspace.value)), "storage",
              Lower(Trim(policy))];
    }
    assert ["tenants", Lower(Trim(tenant))] + [] + ["storage", Lower(Trim(policy))] ==
           ["tenants", Lower(Trim(tenant)), "storage", Lower(Trim(policy))];
  }
}
