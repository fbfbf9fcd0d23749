/**
 * The two java.lang.String operations the wrapper relies on: trim(), which
 * removes every leading and trailing character at or below U+0020, and
 * equalsIgnoreCase, here with ASCII case folding only.
 */
module JavaStrings {

  /** trim() drops exactly the characters whose code is at most that of ' '. */
  predicate Trimmable(c: char)
  {
    c <= ' '
  }

  /** Drops leading trimmable characters. */
  function TrimStart(s: string): (r: string)
    ensures |r| <= |s| && r == s[|s| - |r|..]
    ensures forall i :: 0 <= i < |s| - |r| ==> Trimmable(s[i])
    ensures r == [] || !Trimmable(r[0])
    decreases |s|
  {
    if |s| > 0 && Trimmable(s[0]) then TrimStart(s[1..]) else s
  }

  /** Drops trailing trimmable characters. */
  function TrimEnd(s: string): (r: string)
    ensures |r| <= |s| && r == s[..|r|]
    ensures forall i :: |r| <= i < |s| ==> Trimmable(s[i])
    ensures r == [] || !Trimmable(r[|r| - 1])
    decreases |s|
  {
    if |s| > 0 && Trimmable(s[|s| - 1]) then TrimEnd(s[..|s| - 1]) else s
  }

  /** String.trim(). */
  function Trim(s: string): (r: string)
  {
    TrimEnd(TrimStart(s))
  }

  /** The trimmed string is the contiguous piece of the original that starts
      where TrimStart stopped. */
  lemma TrimIsSlice(s: string)
    ensures var lo := |s| - |TrimStart(s)|;
      lo + |Trim(s)| <= |s| && Trim(s) == s[lo..lo + |Trim(s)|]
  {
    var u := TrimStart(s);
    var t := TrimEnd(u);
    var lo := |s| - |u|;
    assert u == s[lo..];
    assert t == u[..|t|];
    assert u[..|t|] == s[lo..lo + |t|];
  }

  /** The trimmed string neither starts nor ends with a trimmable character. */
  lemma TrimEndsAreNotTrimmable(s: string)
    ensures Trim(s) == [] || (!Trimmable(Trim(s)[0]) && !Trimmable(Trim(s)[|Trim(s)| - 1]))
  {
    var u := TrimStart(s);
    var t := TrimEnd(u);
    if t != [] {
      assert t == u[..|t|];
      assert t[0] == u[0];
    }
  }

  /** Everything trim() cuts off, on either side, is trimmable. */
  lemma TrimCutsOnlyTrimmable(s: string)
    ensures var lo := |s| - |TrimStart(s)|;
      (forall i :: 0 <= i < lo ==> Trimmable(s[i])) &&
      (forall i :: lo + |Trim(s)| <= i < |s| ==> Trimmable(s[i]))
  {
    var u := TrimStart(s);
    var t := TrimEnd(u);
    var lo := |s| - |u|;
    assert u == s[lo..];
    forall i | lo + |t| <= i < |s| ensures Trimmable(s[i]) {
      assert s[i] == u[i - lo];
    }
  }

  /** line.trim().isEmpty() holds exactly when every character is trimmable. */
  lemma TrimEmptyIffAllTrimmable(s: string)
    ensures Trim(s) == [] <==> forall i :: 0 <= i < |s| ==> Trimmable(s[i])
  {
    var u := TrimStart(s);
    var t := TrimEnd(u);
    if t != [] {
      assert t[0] == u[0];
      assert u[0] == s[|s| - |u|];
    }
  }

  /** A line counts as blank when trim() leaves nothing of it, that is
      (TrimEmptyIffAllTrimmable) when all its characters are trimmable. */
  predicate IsBlank(line: string)
  {
    forall i :: 0 <= i < |line| ==> Trimmable(line[i])
  }

  /** ASCII upper-casing: 'a'..'z' become 'A'..'Z', everything else stays. */
  function ToUpperAscii(c: char): (r: char)
  {
    if 'a' <= c <= 'z' then (c as int - 32) as char else c
  }

  /** ASCII lower-casing: 'A'..'Z' become 'a'..'z', everything else stays. */
  function ToLowerAscii(c: char): (r: char)
  {
    if 'A' <= c <= 'Z' then (c as int + 32) as char else c
  }

  /** The character test of String.regionMatches with ignoreCase set: equal,
      or equal once upper-cased, or equal once lower-cased. */
  predicate CharsEqualIgnoreCase(c1: char, c2: char)
  {
    c1 == c2 || ToUpperAscii(c1) == ToUpperAscii(c2) || ToLowerAscii(c1) == ToLowerAscii(c2)
  }

  /** String.equalsIgnoreCase with ASCII folding: same length, and the
      characters agree position by position once upper-cased. */
  predicate EqualsIgnoreCase(a: string, b: string)
  {
    |a| == |b| && forall i :: 0 <= i < |a| ==> ToUpperAscii(a[i]) == ToUpperAscii(b[i])
  }

  /** Comparing upper-cased characters is the same as Java's three-way
      character test, so EqualsIgnoreCase is equalsIgnoreCase restricted to
      ASCII folding. */
  lemma EqualsIgnoreCaseIsJavaRule(a: string, b: string)
    ensures EqualsIgnoreCase(a, b) <==>
      |a| == |b| && forall i :: 0 <= i < |a| ==> CharsEqualIgnoreCase(a[i], b[i])
  {
    if |a| == |b| {
      forall i | 0 <= i < |a|
        ensures ToUpperAscii(a[i]) == ToUpperAscii(b[i]) <==> CharsEqualIgnoreCase(a[i], b[i])
      {
        UpperAgreesWithJavaRule(a[i], b[i]);
      }
    }
  }

  lemma UpperAgreesWithJavaRule(c1: char, c2: char)
    ensures ToUpperAscii(c1) == ToUpperAscii(c2) <==> CharsEqualIgnoreCase(c1, c2)
  {
  }

  /** Case-insensitive equality is an equivalence relation. */
  lemma EqualsIgnoreCaseIsEquivalence(a: string, b: string, c: string)
    ensures EqualsIgnoreCase(a, a)
    ensures EqualsIgnoreCase(a, b) ==> EqualsIgnoreCase(b, a)
    ensures EqualsIgnoreCase(a, b) && EqualsIgnoreCase(b, c) ==> EqualsIgnoreCase(a, c)
  {
  }
}
