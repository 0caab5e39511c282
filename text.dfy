/** Optional values, used wherever the analyser reads a key that may be absent. */
module Options {
  datatype Option<T> = None | Some(value: T)
}

/**
 * String primitives the analyser relies on: Python's lower(), strip(),
 * startswith/endswith, the `in` substring test, str.count and re.split on a
 * character class. Case folding covers the ASCII letters only.
 */
module Text {

  /** ASCII lower-casing of one character. */
  function LowerChar(c: char): (r: char)
    ensures 'A' <= c <= 'Z' ==> r as int == c as int + 32
    ensures !('A' <= c <= 'Z') ==> r == c
  {
    if 'A' <= c <= 'Z' then (c as int + 32) as char else c
  }

  function Lower(s: string): (r: string)
    ensures |r| == |s|
    ensures forall i :: 0 <= i < |s| ==> r[i] == LowerChar(s[i])
  {
    seq(|s|, i requires 0 <= i < |s| => LowerChar(s[i]))
  }

  lemma LowerAppend(a: string, b: string)
    ensures Lower(a + b) == Lower(a) + Lower(b)
  {
  }

  lemma LowerSlice(s: string, i: nat, j: nat)
    requires i <= j <= |s|
    ensures Lower(s[i..j]) == Lower(s)[i..j]
  {
  }

  /** The characters Python's str.isspace() accepts. */
  predicate IsSpace(c: char)
  {
    ('\U{9}' <= c <= '\U{D}') || ('\U{1C}' <= c <= '\U{20}') || c == '\U{85}' || c == '\U{A0}'
    || c == '\U{1680}' || ('\U{2000}' <= c <= '\U{200A}') || c == '\U{2028}' || c == '\U{2029}'
    || c == '\U{202F}' || c == '\U{205F}' || c == '\U{3000}'
  }

  /** Drops leading whitespace; the result is a suffix of s and what was dropped is whitespace. */
  function TrimStart(s: string): (r: string)
    ensures |r| <= |s| && r == s[|s| - |r|..]
    ensures r == [] || !IsSpace(r[0])
    ensures forall i :: 0 <= i < |s| - |r| ==> IsSpace(s[i])
  {
    if |s| > 0 && IsSpace(s[0]) then TrimStart(s[1..]) else s
  }

  /** Drops trailing whitespace; the result is a prefix of s and what was dropped is whitespace. */
  function TrimEnd(s: string): (r: string)
    ensures |r| <= |s| && r == s[..|r|]
    ensures r == [] || !IsSpace(r[|r| - 1])
    ensures forall i :: |r| <= i < |s| ==> IsSpace(s[i])
  {
    if |s| > 0 && IsSpace(s[|s| - 1]) then TrimEnd(s[..|s| - 1]) else s
  }

  /** s neither starts nor ends with whitespace. */
  predicate Stripped(s: string)
  {
    s == [] || (!IsSpace(s[0]) && !IsSpace(s[|s| - 1]))
  }

  /** Python's str.strip() with no argument. */
  function Strip(s: string): (r: string)
    ensures Stripped(r)
    ensures |r| <= |s|
  {
    TrimEnd(TrimStart(s))
  }

  /** A string that neither starts nor ends with whitespace is its own strip. */
  lemma StripUnchanged(s: string)
    requires Stripped(s)
    ensures Strip(s) == s
  {
  }

  predicate StartsWith(s: string, prefix: string)
  {
    |prefix| <= |s| && s[..|prefix|] == prefix
  }

  predicate EndsWith(s: string, suffix: string)
  {
    |suffix| <= |s| && s[|s| - |suffix|..] == suffix
  }

  /** sub starts at position i of s. */
  predicate OccursAt(sub: string, s: string, i: int)
  {
    0 <= i <= |s| - |sub| && s[i..i + |sub|] == sub
  }

  /** `sub in s`: sub occurs at some position of s (reference definition). */
  ghost predicate OccursIn(sub: string, s: string)
  {
    exists i :: OccursAt(sub, s, i)
  }

  /** `sub in s`, computed by scanning the end positions of s from the right. */
  function Contains(s: string, sub: string): (r: bool)
    decreases |s|
  {
    if |s| < |sub| then false
    else EndsWith(s, sub) || Contains(s[..|s| - 1], sub)
  }

  /** The scan finds sub exactly when sub occurs somewhere in s. */
  lemma {:induction false} ContainsIffOccurs(s: string, sub: string)
    ensures Contains(s, sub) <==> OccursIn(sub, s)
    decreases |s|
  {
    if |s| >= |sub| && !EndsWith(s, sub) {
      var front := s[..|s| - 1];
      ContainsIffOccurs(front, sub);
      OccursInFront(s, sub);
    } else if |s| >= |sub| {
      assert OccursAt(sub, s, |s| - |sub|);
    }
  }

  /** When s does not end with sub, sub occurs in s exactly when it occurs in s without its last character. */
  lemma OccursInFront(s: string, sub: string)
    requires |s| >= |sub| && !EndsWith(s, sub)
    ensures OccursIn(sub, s) <==> OccursIn(sub, s[..|s| - 1])
  {
    var front := s[..|s| - 1];
    if OccursIn(sub, front) {
      var i :| OccursAt(sub, front, i);
      assert front[i..i + |sub|] == s[i..i + |sub|];
      assert OccursAt(sub, s, i);
    }
    if OccursIn(sub, s) {
      var i :| OccursAt(sub, s, i);
      assert front[i..i + |sub|] == s[i..i + |sub|];
      assert OccursAt(sub, front, i);
    }
  }

  /** Python's str.count: non-overlapping occurrences of a non-empty pattern, left to right. */
  function CountOf(s: string, pattern: string): (r: nat)
    requires |pattern| > 0
    ensures r * |pattern| <= |s|
    decreases |s|
  {
    if |s| < |pattern| then 0
    else if s[..|pattern|] == pattern then 1 + CountOf(s[|pattern|..], pattern)
    else CountOf(s[1..], pattern)
  }

  /** A string with no occurrence counted does not start with the pattern. */
  lemma CountZeroNoPrefix(s: string, pattern: string)
    requires |pattern| > 0 && CountOf(s, pattern) == 0
    ensures !StartsWith(s, pattern)
    ensures |s| > 0 ==> CountOf(s[1..], pattern) == 0
  {
  }

  /** Skipping characters of s that cannot begin the pattern leaves the count unchanged. */
  lemma {:induction false} CountSkip(s: string, pattern: string, k: nat)
    requires |pattern| > 0 && k <= |s|
    requires forall i :: 0 <= i < k ==> s[i] != pattern[0]
    ensures CountOf(s, pattern) == CountOf(s[k..], pattern)
    decreases k
  {
    if k > 0 {
      if |s| >= |pattern| {
        assert s[..|pattern|][0] == s[0];
      }
      assert s[1..][k - 1..] == s[k..];
      CountSkip(s[1..], pattern, k - 1);
    }
  }

  /** re.split on a set of delimiter characters: the pieces between delimiters, empty ones included. */
  function SplitOn(s: string, delims: set<char>): (r: seq<string>)
    ensures |r| >= 1
    ensures forall k :: 0 <= k < |r| ==> forall c :: c in r[k] ==> c !in delims
    decreases |s|
  {
    if s == [] then [""]
    else
      var rest := SplitOn(s[1..], delims);
      if s[0] in delims then [""] + rest
      else [[s[0]] + rest[0]] + rest[1..]
  }

  /** The characters of s that are not delimiters. */
  function Without(s: string, delims: set<char>): string
    decreases |s|
  {
    if s == [] then "" else (if s[0] in delims then "" else [s[0]]) + Without(s[1..], delims)
  }

  /** The number of delimiter characters in s. */
  function DelimiterCount(s: string, delims: set<char>): nat
    decreases |s|
  {
    if s == [] then 0 else (if s[0] in delims then 1 else 0) + DelimiterCount(s[1..], delims)
  }

  function Concat(pieces: seq<string>): string
  {
    if pieces == [] then "" else pieces[0] + Concat(pieces[1..])
  }

  lemma ConcatCons(p: string, ps: seq<string>)
    ensures Concat([p] + ps) == p + Concat(ps)
  {
    assert ([p] + ps)[1..] == ps;
  }

  /**
   * Splitting loses nothing but the delimiters: there is one piece more than
   * there are delimiters, and the pieces glued together give s without them.
   */
  lemma {:induction false} SplitOnRoundTrip(s: string, delims: set<char>)
    ensures |SplitOn(s, delims)| == DelimiterCount(s, delims) + 1
    ensures Concat(SplitOn(s, delims)) == Without(s, delims)
    decreases |s|
  {
    if s != [] {
      SplitOnRoundTrip(s[1..], delims);
      var rest := SplitOn(s[1..], delims);
      if s[0] in delims {
        ConcatCons("", rest);
      } else {
        assert rest == [rest[0]] + rest[1..];
        ConcatCons(rest[0], rest[1..]);
        ConcatCons([s[0]] + rest[0], rest[1..]);
      }
    }
  }
}
