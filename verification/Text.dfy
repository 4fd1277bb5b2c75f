/** The string operations the services rely on: trim, lower-casing, joining and splitting on a separator. */
module Text {
  import opened Wrappers

  /** White space and line terminators as String.prototype.trim removes them. */
  predicate IsSpace(c: char) {
    || '\t' <= c <= '\r' || c == ' ' || c == '\U{00A0}' || c == '\U{1680}'
    || '\U{2000}' <= c <= '\U{200A}' || c == '\U{2028}' || c == '\U{2029}'
    || c == '\U{202F}' || c == '\U{205F}' || c == '\U{3000}' || c == '\U{FEFF}'
  }

  /** The same characters by their numbers. */
  lemma SpacesAre(c: char)
    ensures IsSpace(c) <==>
            c as int in {9, 10, 11, 12, 13, 32, 160, 5760, 8192, 8193, 8194, 8195, 8196, 8197, 8198, 8199, 8200, 8201,
                         8202, 8232, 8233, 8239, 8287, 12288, 65279}
  {
  }

  function TrimStart(s: string): string {
    if s == "" then ""
    else if IsSpace(s[0]) then TrimStart(s[1..])
    else s
  }

  function TrimEnd(s: string): string {
    if s == "" then ""
    else if IsSpace(s[|s| - 1]) then TrimEnd(s[..|s| - 1])
    else s
  }

  function Trim(s: string): string {
    TrimStart(TrimEnd(s))
  }

  /** Neither end is white space. */
  predicate Trimmed(s: string) {
    s == "" || (!IsSpace(s[0]) && !IsSpace(s[|s| - 1]))
  }

  lemma {:induction false} TrimStartLaws(s: string)
    ensures var r := TrimStart(s);
            && |r| <= |s|
            && (r != "" ==> !IsSpace(r[0]))
            && (s != "" && !IsSpace(s[|s| - 1]) ==> r != "" && r[|r| - 1] == s[|s| - 1])
            && (s == "" || !IsSpace(s[0]) ==> r == s)
  {
    hide IsSpace;
    if s != "" {
      TrimStartLaws(s[1..]);
    }
  }

  lemma {:induction false} TrimEndLaws(s: string)
    ensures var r := TrimEnd(s);
            && |r| <= |s|
            && (r != "" ==> !IsSpace(r[|r| - 1]) && r[0] == s[0])
            && (s == "" || !IsSpace(s[|s| - 1]) ==> r == s)
  {
    hide IsSpace;
    if s != "" {
      TrimEndLaws(s[..|s| - 1]);
    }
  }

  lemma TrimLaws(s: string)
    ensures Trimmed(Trim(s))
    ensures Trimmed(s) ==> Trim(s) == s
    ensures Trim(Trim(s)) == Trim(s)
  {
    hide IsSpace, TrimStart, TrimEnd;
    var e := TrimEnd(s);
    var t := TrimStart(e);
    TrimEndLaws(s);
    TrimStartLaws(e);
    TrimEndLaws(t);
    TrimStartLaws(t);
  }

  lemma {:induction false} TrimStartCuts(s: string) returns (i: nat)
    ensures i <= |s| && TrimStart(s) == s[i..] && forall k :: 0 <= k < i ==> IsSpace(s[k])
  {
    hide IsSpace;
    if s != "" && IsSpace(s[0]) {
      i := TrimStartCuts(s[1..]);
      assert forall k :: 0 < k < i + 1 ==> s[k] == s[1..][k - 1];
      i := i + 1;
    } else {
      i := 0;
    }
  }

  lemma {:induction false} TrimEndCuts(s: string) returns (j: nat)
    ensures j <= |s| && TrimEnd(s) == s[..j] && forall k :: j <= k < |s| ==> IsSpace(s[k])
  {
    hide IsSpace;
    if s != "" && IsSpace(s[|s| - 1]) {
      j := TrimEndCuts(s[..|s| - 1]);
    } else {
      j := |s|;
    }
  }

  /** Trimming cuts white space off both ends, all of it and nothing else. */
  lemma TrimCuts(s: string) returns (i: nat, j: nat)
    ensures i <= j <= |s| && Trim(s) == s[i..j] && Trimmed(s[i..j])
    ensures forall k :: 0 <= k < i || j <= k < |s| ==> IsSpace(s[k])
  {
    hide IsSpace;
    TrimLaws(s);
    j := TrimEndCuts(s);
    i := TrimStartCuts(s[..j]);
    assert s[..j][i..] == s[i..j];
    assert forall k :: 0 <= k < i ==> s[k] == s[..j][k];
  }

  /** ASCII letters, and the Kelvin sign: the only other character whose lower case is one ASCII character. */
  function LowerChar(c: char): char {
    if 'A' <= c <= 'Z' then c - 'A' + 'a' else if c == '\U{212A}' then 'k' else c
  }

  /** The same by numbers. */
  lemma LowerCharIs(c: char)
    ensures LowerChar(c) as int ==
            if 65 <= c as int <= 90 then c as int + 32 else if c as int == 8490 then 107 else c as int
  {
  }

  function Lower(s: string): (r: string)
    ensures |r| == |s|
    ensures forall i :: 0 <= i < |s| ==> r[i] == LowerChar(s[i])
  {
    seq(|s|, i requires 0 <= i < |s| => LowerChar(s[i]))
  }

  lemma LowerKeepsSpace(c: char)
    ensures IsSpace(LowerChar(c)) <==> IsSpace(c)
    ensures LowerChar(LowerChar(c)) == LowerChar(c)
  {
  }

  /** `s.trim().toLowerCase()` is its own normal form. */
  lemma LowerTrimIdempotent(s: string)
    ensures Trimmed(Lower(Trim(s)))
    ensures Lower(Trim(Lower(Trim(s)))) == Lower(Trim(s))
    ensures Lower(Trim(s)) == "" <==> Trim(s) == ""
  {
    TrimLaws(s);
    LowerLaws(Trim(s));
    TrimLaws(Lower(Trim(s)));
  }

  lemma LowerLaws(t: string)
    ensures Lower(Lower(t)) == Lower(t)
    ensures Trimmed(t) ==> Trimmed(Lower(t))
  {
    forall i | 0 <= i < |t| ensures Lower(Lower(t))[i] == Lower(t)[i] {
      LowerKeepsSpace(t[i]);
    }
    if t != "" {
      LowerKeepsSpace(t[0]);
      LowerKeepsSpace(t[|t| - 1]);
    }
  }

  predicate Lacks(s: string, c: char) {
    forall i :: 0 <= i < |s| ==> s[i] != c
  }

  /** A string cut at its first separator has only one reading. */
  lemma {:induction false} CutInjective(a: string, x: string, b: string, y: string, c: char)
    requires Lacks(a, c) && Lacks(b, c)
    requires a + [c] + x == b + [c] + y
    ensures a == b && x == y
  {
    var l, r := a + [c] + x, b + [c] + y;
    assert l[0] == r[0];
    if a == "" || b == "" {
      assert l[1..] == x && r[1..] == y;
    } else {
      assert l[1..] == a[1..] + [c] + x && r[1..] == b[1..] + [c] + y;
      CutInjective(a[1..], x, b[1..], y, c);
      assert a == [a[0]] + a[1..] && b == [b[0]] + b[1..];
    }
  }

  /** `s.split(c)` */
  function Split(s: string, c: char): (r: seq<string>)
    ensures |r| >= 1
  {
    if s == "" then [""]
    else
      var rest := Split(s[1..], c);
      if s[0] == c then [""] + rest
      else [[s[0]] + rest[0]] + rest[1..]
  }

  /** `parts.join(c)` */
  function Join(parts: seq<string>, c: char): string {
    if parts == [] then ""
    else if |parts| == 1 then parts[0]
    else parts[0] + [c] + Join(parts[1..], c)
  }

  /** Splitting distributes over a separator. */
  lemma {:induction false} SplitConcat(a: string, b: string, c: char)
    ensures Split(a + [c] + b, c) == Split(a, c) + Split(b, c)
  {
    if a == "" {
      assert a + [c] + b == [c] + b;
      SplitHead(c, b, c);
    } else {
      SplitConcat(a[1..], b, c);
      assert a + [c] + b == [a[0]] + (a[1..] + [c] + b);
      SplitHeadConcat(a[0], a[1..], a[1..] + [c] + b, Split(b, c), c);
      assert [a[0]] + a[1..] == a;
    }
  }

  lemma SplitHeadConcat(x: char, a: string, s: string, rest: seq<string>, c: char)
    requires Split(s, c) == Split(a, c) + rest
    ensures Split([x] + s, c) == Split([x] + a, c) + rest
  {
    SplitHead(x, s, c);
    SplitHead(x, a, c);
    if x == c {
      ConcatAssoc([""], Split(a, c), rest);
    } else {
      HeadTailConcat(Split(a, c), rest);
      ConcatAssoc([[x] + Split(a, c)[0]], Split(a, c)[1..], rest);
    }
  }

  lemma ConcatAssoc<T>(p: seq<T>, q: seq<T>, r: seq<T>)
    ensures p + (q + r) == (p + q) + r
  {
  }

  lemma HeadTailConcat<T>(t: seq<T>, rest: seq<T>)
    requires t != []
    ensures (t + rest)[0] == t[0] && (t + rest)[1..] == t[1..] + rest
  {
  }

  lemma {:induction false} SplitLacks(s: string, c: char)
    ensures forall i :: 0 <= i < |Split(s, c)| ==> Lacks(Split(s, c)[i], c)
    ensures Lacks(s, c) ==> Split(s, c) == [s]
  {
    if s != "" {
      SplitLacks(s[1..], c);
      assert [s[0]] + s[1..] == s;
    }
  }

  /** The first character of a string joins, or opens, the first piece. */
  lemma SplitHead(x: char, s: string, c: char)
    ensures Split([x] + s, c) == if x == c then [""] + Split(s, c)
                                 else [[x] + Split(s, c)[0]] + Split(s, c)[1..]
  {
    assert ([x] + s)[1..] == s;
  }

  /** Splitting a join of separator-free parts gives the parts back. */
  lemma {:induction false} SplitJoin(parts: seq<string>, c: char)
    requires parts != []
    requires forall i :: 0 <= i < |parts| ==> Lacks(parts[i], c)
    ensures Split(Join(parts, c), c) == parts
  {
    SplitLacks(parts[0], c);
    if |parts| > 1 {
      SplitConcat(parts[0], Join(parts[1..], c), c);
      SplitJoin(parts[1..], c);
    }
  }

  /** Joining the pieces of a split gives the string back. */
  lemma {:induction false} JoinSplit(s: string, c: char)
    ensures Join(Split(s, c), c) == s
  {
    if s != "" {
      var rest := Split(s[1..], c);
      JoinSplit(s[1..], c);
      if s[0] == c {
        assert Split(s, c)[1..] == rest;
      } else {
        var first := [s[0]] + rest[0];
        assert Split(s, c)[1..] == rest[1..];
        if |rest| > 1 {
          assert first + [c] + Join(rest[1..], c) == [s[0]] + (rest[0] + [c] + Join(rest[1..], c));
        }
      }
    }
  }

  /** A string that splits into one piece has no separator. */
  lemma OnePieceLacks(s: string, c: char)
    requires |Split(s, c)| == 1
    ensures Lacks(s, c)
  {
    SplitLacks(s, c);
    JoinSplit(s, c);
  }

  /** A join never has fewer pieces than parts, and has more as soon as one part holds the separator. */
  lemma {:induction false} PiecesOfJoin(parts: seq<string>, c: char)
    requires parts != []
    ensures |Split(Join(parts, c), c)| >= |parts|
    ensures |Split(Join(parts, c), c)| == |parts| ==> forall i :: 0 <= i < |parts| ==> Lacks(parts[i], c)
  {
    if |parts| == 1 {
      if |Split(parts[0], c)| == 1 {
        OnePieceLacks(parts[0], c);
      }
    } else {
      var rest := parts[1..];
      SplitConcat(parts[0], Join(rest, c), c);
      PiecesOfJoin(rest, c);
      if |Split(Join(parts, c), c)| == |parts| {
        OnePieceLacks(parts[0], c);
        forall i | 0 <= i < |parts| ensures Lacks(parts[i], c) {
          if i > 0 {
            assert parts[i] == rest[i - 1];
          }
        }
      }
    }
  }

  lemma JoinFirst(first: string, rest: seq<string>, c: char)
    requires rest != []
    ensures Join([first] + rest, c) == first + [c] + Join(rest, c)
  {
    assert ([first] + rest)[1..] == rest;
  }

  lemma {:induction false} JoinPush(parts: seq<string>, last: string, c: char)
    requires parts != []
    ensures Join(parts + [last], c) == Join(parts, c) + [c] + last
  {
    if |parts| > 1 {
      JoinPush(parts[1..], last, c);
      assert (parts + [last])[1..] == parts[1..] + [last];
      assert parts[0] + [c] + (Join(parts[1..], c) + [c] + last) ==
             parts[0] + [c] + Join(parts[1..], c) + [c] + last;
    } else {
      assert (parts + [last])[1..] == [last];
    }
  }

  // Texts joined by fixed separators, and the ways to read them back.

  /** The parts with the separators between them. */
  function Weave(parts: seq<string>, seps: seq<string>): string
    requires |parts| == |seps| + 1
  {
    if seps == [] then parts[0] else parts[0] + seps[0] + Weave(parts[1..], seps[1..])
  }

  /** The text has the separators in order, with parts of the given lengths before them. */
  predicate IsCut(text: string, seps: seq<string>, at: seq<nat>) {
    && |at| == |seps|
    && (seps == [] ||
        (&& at[0] + |seps[0]| <= |text|
         && text[at[0]..at[0] + |seps[0]|] == seps[0]
         && IsCut(text[at[0] + |seps[0]|..], seps[1..], at[1..])))
  }

  function Pieces(text: string, seps: seq<string>, at: seq<nat>): (r: seq<string>)
    requires IsCut(text, seps, at)
    ensures |r| == |seps| + 1
  {
    if seps == [] then [text] else [text[..at[0]]] + Pieces(text[at[0] + |seps[0]|..], seps[1..], at[1..])
  }

  function Lengths(parts: seq<string>): seq<nat>
    requires parts != []
  {
    seq(|parts| - 1, i requires 0 <= i < |parts| - 1 => |parts[i]|)
  }

  /** Every reading is a cut. */
  lemma {:induction false} ReadingIsCut(parts: seq<string>, seps: seq<string>)
    requires |parts| == |seps| + 1
    ensures IsCut(Weave(parts, seps), seps, Lengths(parts))
    ensures Pieces(Weave(parts, seps), seps, Lengths(parts)) == parts
  {
    if seps != [] {
      var n := |parts[0]| + |seps[0]|;
      var text := Weave(parts, seps);
      assert text[..|parts[0]|] == parts[0] && text[|parts[0]|..n] == seps[0];
      assert text[n..] == Weave(parts[1..], seps[1..]);
      assert Lengths(parts)[1..] == Lengths(parts[1..]);
      ReadingIsCut(parts[1..], seps[1..]);
    }
  }

  lemma WeaveFirst(first: string, rest: seq<string>, seps: seq<string>)
    requires seps != [] && |rest| == |seps|
    ensures Weave([first] + rest, seps) == first + seps[0] + Weave(rest, seps[1..])
    ensures Lengths([first] + rest) == [|first|] + Lengths(rest)
  {
    assert ([first] + rest)[1..] == rest;
  }

  /** Every cut is a reading. */
  lemma {:induction false} CutIsReading(text: string, seps: seq<string>, at: seq<nat>)
    requires IsCut(text, seps, at)
    ensures Weave(Pieces(text, seps, at), seps) == text
    ensures Lengths(Pieces(text, seps, at)) == at
  {
    hide Weave, Lengths;
    if seps == [] {
      NoSeparators(text);
    } else {
      var n := at[0] + |seps[0]|;
      var rest := Pieces(text[n..], seps[1..], at[1..]);
      CutIsReading(text[n..], seps[1..], at[1..]);
      WeaveFirst(text[..at[0]], rest, seps);
      assert text == text[..at[0]] + text[at[0]..n] + text[n..];
      assert at == [at[0]] + at[1..];
    }
  }

  lemma WeaveTwo(first: string, second: string, sep: string)
    ensures Weave([first, second], [sep]) == first + sep + second
  {
    assert [first, second][1..] == [second] && [sep][1..] == [];
  }

  lemma NoSeparators(text: string)
    ensures Weave([text], []) == text && Lengths([text]) == []
  {
  }

  /** A text is a list of acceptable parts joined by the separators exactly when some cut of it gives such parts. */
  lemma ReadableIff(text: string, seps: seq<string>, ok: seq<string> -> bool)
    ensures (exists parts: seq<string> :: |parts| == |seps| + 1 && ok(parts) && Weave(parts, seps) == text) <==>
            (exists at :: IsCut(text, seps, at) && ok(Pieces(text, seps, at)))
  {
    hide Weave, IsCut, Pieces, Lengths;
    if parts: seq<string> :| |parts| == |seps| + 1 && ok(parts) && Weave(parts, seps) == text {
      ReadingIsCut(parts, seps);
    }
    if at :| IsCut(text, seps, at) && ok(Pieces(text, seps, at)) {
      CutIsReading(text, seps, at);
      assert ok(Pieces(text, seps, at)) && Weave(Pieces(text, seps, at), seps) == text;
    }
  }
}
