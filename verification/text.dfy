/** The string helpers the handlers and the command line rely on: Python's
    `str.strip()` without arguments and the lower-casing used by the exit test. */
module Text {

  /** The characters Python's `str.strip()` removes when called without
      arguments (those for which `str.isspace()` holds). */
  predicate IsSpace(c: char) {
    ('\t' <= c <= '\r') || ('\U{1C}' <= c <= ' ') || c == '\U{85}' || c == '\U{A0}'
    || c == '\U{1680}' || ('\U{2000}' <= c <= '\U{200A}') || c == '\U{2028}'
    || c == '\U{2029}' || c == '\U{202F}' || c == '\U{205F}' || c == '\U{3000}'
  }

  /** Removes the longest whitespace prefix. */
  function TrimStart(s: string): string {
    if s != [] && IsSpace(s[0]) then TrimStart(s[1..]) else s
  }

  /** Removes the longest whitespace suffix. */
  function TrimEnd(s: string): string {
    if s != [] && IsSpace(s[|s| - 1]) then TrimEnd(s[..|s| - 1]) else s
  }

  /** Python `s.strip()`. */
  function Strip(s: string): string {
    TrimEnd(TrimStart(s))
  }

  /** What `TrimStart` keeps is a suffix of its input. */
  lemma {:induction false} TrimStartIsSuffix(s: string)
    ensures |TrimStart(s)| <= |s| && TrimStart(s) == s[|s| - |TrimStart(s)|..]
  {
    if s != [] && IsSpace(s[0]) {
      TrimStartIsSuffix(s[1..]);
      assert s[1..][|s| - 1 - |TrimStart(s)|..] == s[|s| - |TrimStart(s)|..];
    }
  }

  /** `TrimStart` drops a prefix made only of whitespace, and what it keeps does
      not start with whitespace: the dropped prefix is the longest one. */
  lemma {:induction false} TrimStartDropsLongestSpacePrefix(s: string)
    ensures |TrimStart(s)| <= |s| && TrimStart(s) == s[|s| - |TrimStart(s)|..]
    ensures forall i :: 0 <= i < |s| - |TrimStart(s)| ==> IsSpace(s[i])
    ensures TrimStart(s) == [] || !IsSpace(TrimStart(s)[0])
  {
    TrimStartIsSuffix(s);
    if s != [] && IsSpace(s[0]) {
      var t := s[1..];
      TrimStartDropsLongestSpacePrefix(t);
      forall i | 0 <= i < |s| - |TrimStart(s)|
        ensures IsSpace(s[i])
      {
        if i > 0 {
          assert s[i] == t[i - 1];
        }
      }
    }
  }

  /** What `TrimEnd` keeps is a prefix of its input. */
  lemma {:induction false} TrimEndIsPrefix(s: string)
    ensures |TrimEnd(s)| <= |s| && TrimEnd(s) == s[..|TrimEnd(s)|]
  {
    if s != [] && IsSpace(s[|s| - 1]) {
      TrimEndIsPrefix(s[..|s| - 1]);
      assert s[..|s| - 1][..|TrimEnd(s)|] == s[..|TrimEnd(s)|];
    }
  }

  /** `TrimEnd` drops a suffix made only of whitespace, and what it keeps does
      not end with whitespace. */
  lemma {:induction false} TrimEndDropsLongestSpaceSuffix(s: string)
    ensures |TrimEnd(s)| <= |s| && TrimEnd(s) == s[..|TrimEnd(s)|]
    ensures forall i :: |TrimEnd(s)| <= i < |s| ==> IsSpace(s[i])
    ensures TrimEnd(s) == [] || !IsSpace(TrimEnd(s)[|TrimEnd(s)| - 1])
  {
    TrimEndIsPrefix(s);
    if s != [] && IsSpace(s[|s| - 1]) {
      var t := s[..|s| - 1];
      TrimEndDropsLongestSpaceSuffix(t);
      forall i | |TrimEnd(s)| <= i < |s|
        ensures IsSpace(s[i])
      {
        if i < |s| - 1 {
          assert s[i] == t[i];
        }
      }
    }
  }

  /** A string strips to the empty string exactly when every character of it is
      whitespace. */
  lemma StripEmptyIffAllSpace(s: string)
    ensures Strip(s) == [] <==> forall i :: 0 <= i < |s| ==> IsSpace(s[i])
  {
    var t := TrimStart(s);
    TrimStartDropsLongestSpacePrefix(s);
    TrimEndDropsLongestSpaceSuffix(t);
    if !forall i :: 0 <= i < |s| ==> IsSpace(s[i]) {
      var i :| 0 <= i < |s| && !IsSpace(s[i]);
      assert |s| - |t| <= i;
      assert t != [] && !IsSpace(t[0]);
      assert TrimEnd(t) != [];
    }
  }

  /** The stripped string has whitespace at neither end, so stripping twice is
      stripping once. */
  lemma StripIdempotent(s: string)
    ensures Strip(Strip(s)) == Strip(s)
  {
    var u := TrimStart(s);
    var t := Strip(s);
    TrimStartDropsLongestSpacePrefix(s);
    TrimEndDropsLongestSpaceSuffix(u);
    TrimEndDropsLongestSpaceSuffix(t);
    if t != [] {
      assert t == u[..|t|];
      assert t[0] == u[0];
      assert TrimStart(t) == t;
    }
  }

  /** Python's lower-casing on the ASCII letters; every other character is
      kept. */
  function LowerChar(c: char): char {
    if 'A' <= c <= 'Z' then (c as int + 32) as char else c
  }

  /** `s.lower() == word` for a lower-case ASCII `word` without the letter `k`:
      the only character outside ASCII that lower-cases to a single ASCII letter
      is the Kelvin sign (to `k`), so only the ASCII letters of `s` need
      lowering. */
  predicate LowerEquals(s: string, word: string) {
    if s == [] || word == [] then s == word
    else LowerChar(s[0]) == word[0] && LowerEquals(s[1..], word[1..])
  }

  /** `LowerEquals` compares character by character: the two strings have the
      same length and each character of `s`, lowered, is the one at the same
      position of `word`. */
  lemma {:induction false} LowerEqualsPerChar(s: string, word: string)
    ensures LowerEquals(s, word) <==>
      |s| == |word| && forall i :: 0 <= i < |s| ==> LowerChar(s[i]) == word[i]
  {
    if s != [] && word != [] {
      LowerEqualsPerChar(s[1..], word[1..]);
      if |s| == |word| && forall i :: 0 <= i < |s| ==> LowerChar(s[i]) == word[i] {
        forall i | 0 <= i < |s| - 1
          ensures LowerChar(s[1..][i]) == word[1..][i]
        {
          assert LowerChar(s[i + 1]) == word[i + 1];
        }
      }
    }
  }
}
