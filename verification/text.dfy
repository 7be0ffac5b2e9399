/**
 * The string operations the pipeline relies on, with Python's meaning:
 * `str.strip()` with no argument, `s.split(';')` and `';'.join(parts)`.
 */
module Text {

  /** The characters `str.isspace()` accepts (ASCII and Unicode white space). */
  predicate IsSpace(c: char)
  {
    ('\t' <= c <= '\r') || ('\U{1c}' <= c <= ' ') || c == '\U{85}' || c == '\U{a0}' ||
    c == '\U{1680}' || ('\U{2000}' <= c <= '\U{200a}') || c == '\U{2028}' || c == '\U{2029}' ||
    c == '\U{202f}' || c == '\U{205f}' || c == '\U{3000}'
  }

  /** `s` with its leading white space removed. */
  function TrimStart(s: string): (r: string)
    ensures |r| <= |s|
  {
    if s != [] && IsSpace(s[0]) then TrimStart(s[1..]) else s
  }

  /** `s` with its trailing white space removed. */
  function TrimEnd(s: string): (r: string)
    ensures |r| <= |s|
  {
    if s != [] && IsSpace(s[|s| - 1]) then TrimEnd(s[..|s| - 1]) else s
  }

  /** Python's `s.strip()`. */
  function Strip(s: string): (r: string)
    ensures |r| <= |s|
  {
    TrimEnd(TrimStart(s))
  }

  /** `TrimStart` removes a prefix of white space and stops at the first other character. */
  lemma {:induction false} TrimStartSpec(s: string)
    ensures var r := TrimStart(s);
      |r| <= |s| && r == s[|s| - |r|..] &&
      (forall i :: 0 <= i < |s| - |r| ==> IsSpace(s[i])) &&
      (r != [] ==> !IsSpace(r[0]))
  {
    if s != [] && IsSpace(s[0]) {
      TrimStartSpec(s[1..]);
    }
  }

  /** `TrimEnd` removes a suffix of white space and stops at the last other character. */
  lemma {:induction false} TrimEndSpec(s: string)
    ensures var r := TrimEnd(s);
      |r| <= |s| && r == s[..|r|] &&
      (forall i :: |r| <= i < |s| ==> IsSpace(s[i])) &&
      (r != [] ==> !IsSpace(r[|r| - 1]))
  {
    if s != [] && IsSpace(s[|s| - 1]) {
      TrimEndSpec(s[..|s| - 1]);
    }
  }

  /** `Strip(s)` is the slice of `s` left between the white space at either end:
      everything cut off is white space, and what is left neither starts nor ends
      with white space. */
  lemma StripSpec(s: string)
    ensures var r := Strip(s); var lo := |s| - |TrimStart(s)|;
      lo + |r| <= |s| && r == s[lo..lo + |r|] &&
      (forall i :: 0 <= i < |s| && !(lo <= i < lo + |r|) ==> IsSpace(s[i])) &&
      (r != [] ==> !IsSpace(r[0]) && !IsSpace(r[|r| - 1]))
  {
    var t := TrimStart(s);
    var r := TrimEnd(t);
    var lo := |s| - |t|;
    TrimStartSpec(s);
    TrimEndSpec(t);
    assert r == t[..|r|];
    forall i | lo + |r| <= i < |s|
      ensures IsSpace(s[i])
    {
      assert s[i] == t[i - lo];
    }
  }

  /** A string strips to nothing exactly when it is all white space. */
  lemma StripEmpty(s: string)
    ensures Strip(s) == [] <==> forall i :: 0 <= i < |s| ==> IsSpace(s[i])
  {
    StripSpec(s);
    var lo := |s| - |TrimStart(s)|;
    if Strip(s) != [] {
      assert s[lo] == Strip(s)[0];
    }
  }

  /** A string that neither starts nor ends with white space is its own strip. */
  lemma StripFixed(s: string)
    requires s != [] ==> !IsSpace(s[0]) && !IsSpace(s[|s| - 1])
    ensures Strip(s) == s
  {
    assert TrimStart(s) == s;
  }

  /** Stripping twice is stripping once. */
  lemma StripIdempotent(s: string)
    ensures Strip(Strip(s)) == Strip(s)
  {
    StripSpec(s);
    StripFixed(Strip(s));
  }

  /** `StripIdempotent` for every string at once. */
  lemma StripIdempotentAll()
    ensures forall s :: Strip(Strip(s)) == Strip(s)
  {
    forall s: string
      ensures Strip(Strip(s)) == Strip(s)
    {
      StripIdempotent(s);
    }
  }

  /** Stripping introduces no character. */
  lemma StripChars(s: string, c: char)
    requires c in Strip(s)
    ensures c in s
  {
    var r := Strip(s);
    var lo := |s| - |TrimStart(s)|;
    StripSpec(s);
    var k :| 0 <= k < |r| && r[k] == c;
    assert s[lo + k] == c;
  }

  /** The separator the configuration reader joins and splits on. */
  const Separator: char := ';'

  /** Python's `s.split(';')`: the pieces between separators, always at least one. */
  function Split(s: string): (parts: seq<string>)
    ensures |parts| >= 1
    ensures forall i :: 0 <= i < |parts| ==> Separator !in parts[i]
  {
    if s == [] then [[]]
    else if s[0] == Separator then [[]] + Split(s[1..])
    else
      var rest := Split(s[1..]);
      [[s[0]] + rest[0]] + rest[1..]
  }

  /** Python's `';'.join(parts)`. */
  function Join(parts: seq<string>): string
  {
    if |parts| == 0 then []
    else if |parts| == 1 then parts[0]
    else parts[0] + [Separator] + Join(parts[1..])
  }

  /** Splitting at a separator splits the two sides independently. */
  lemma {:induction false} SplitAtSeparator(a: string, b: string)
    ensures Split(a + [Separator] + b) == Split(a) + Split(b)
  {
    if a == [] {
      assert a + [Separator] + b == [Separator] + b;
      assert ([Separator] + b)[1..] == b;
    } else {
      assert (a + [Separator] + b)[1..] == a[1..] + [Separator] + b;
      SplitAtSeparator(a[1..], b);
    }
  }

  /** Joining the pieces of a split gives back the string. */
  lemma {:induction false} JoinSplit(s: string)
    ensures Join(Split(s)) == s
  {
    if s == [] {
    } else if s[0] == Separator {
      JoinSplit(s[1..]);
      assert s == [] + [Separator] + s[1..];
    } else {
      var rest := Split(s[1..]);
      JoinSplit(s[1..]);
      if |rest| == 1 {
        assert s == [s[0]] + s[1..];
      } else {
        assert Join(rest) == rest[0] + [Separator] + Join(rest[1..]);
        assert Split(s)[1..] == rest[1..];
        assert s == [s[0]] + s[1..];
      }
    }
  }

  /** The pieces of every string, one after the other. */
  function SplitEach(xs: seq<string>): seq<string>
  {
    if xs == [] then [] else Split(xs[0]) + SplitEach(xs[1..])
  }

  /** Splitting a join splits each joined string: the separator bounds every piece. */
  lemma {:induction false} SplitJoin(xs: seq<string>)
    requires xs != []
    ensures Split(Join(xs)) == SplitEach(xs)
  {
    if |xs| == 1 {
      assert SplitEach(xs[1..]) == [];
    } else {
      SplitJoin(xs[1..]);
      SplitAtSeparator(xs[0], Join(xs[1..]));
    }
  }

  /** Pieces free of the separator survive a join and a split unchanged. */
  lemma {:induction false} SplitJoinRoundTrip(xs: seq<string>)
    requires xs != []
    requires forall i :: 0 <= i < |xs| ==> Separator !in xs[i]
    ensures Split(Join(xs)) == xs
  {
    SplitJoin(xs);
    SplitEachFree(xs);
  }

  lemma {:induction false} SplitFree(s: string)
    requires Separator !in s
    ensures Split(s) == [s]
  {
    if s != [] {
      SplitFree(s[1..]);
      assert [s[0]] + s[1..] == s;
    }
  }

  lemma {:induction false} SplitEachFree(xs: seq<string>)
    requires forall i :: 0 <= i < |xs| ==> Separator !in xs[i]
    ensures SplitEach(xs) == xs
  {
    if xs != [] {
      SplitFree(xs[0]);
      SplitEachFree(xs[1..]);
    }
  }
}
