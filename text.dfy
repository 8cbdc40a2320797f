/** The few JavaScript string operations the pages rely on: `trim()`, the
    `\s` character class, `slice(0, n)`, and the first and last occurrence
    of a character that a regular-expression match depends on.
    Strings are sequences of characters; a JavaScript string is a sequence of
    UTF-16 code units, so lengths agree for text outside the astral planes. */
module Text {
  import opened Wrappers

  /** ECMAScript WhiteSpace and LineTerminator characters: what `trim()`
      strips and what the regular-expression class `\s` matches. None of
      the characters the page's patterns look for is among them. */
  predicate IsSpace(c: char)
    ensures IsSpace(c) ==> c != '@' && c != '.' && c != '{' && c != '}'
  {
    || c == '\t' || c == '\n' || c == '\U{000B}' || c == '\U{000C}' || c == '\r'
    || c == ' ' || c == '\U{00A0}' || c == '\U{1680}'
    || ('\U{2000}' <= c <= '\U{200A}')
    || c == '\U{2028}' || c == '\U{2029}' || c == '\U{202F}' || c == '\U{205F}'
    || c == '\U{3000}' || c == '\U{FEFF}'
  }

  predicate AllSpace(s: string) {
    forall i | 0 <= i < |s| :: IsSpace(s[i])
  }

  /** `s.trimStart()`: drops the leading white space and nothing else. */
  function TrimStart(s: string): (r: string)
    ensures |r| <= |s| && r == s[|s| - |r|..]
    ensures r == [] || !IsSpace(r[0])
    ensures forall i | 0 <= i < |s| - |r| :: IsSpace(s[i])
    decreases |s|
  {
    if |s| > 0 && IsSpace(s[0]) then TrimStart(s[1..]) else s
  }

  /** `s.trimEnd()`: drops the trailing white space and nothing else. */
  function TrimEnd(s: string): (r: string)
    ensures |r| <= |s| && r == s[..|r|]
    ensures r == [] || !IsSpace(r[|r| - 1])
    ensures forall i | |r| <= i < |s| :: IsSpace(s[i])
    decreases |s|
  {
    if |s| > 0 && IsSpace(s[|s| - 1]) then TrimEnd(s[..|s| - 1]) else s
  }

  /** `s.trim()`: the text between the leading and the trailing white
      space. It is empty exactly when every character is white space, which
      is what `!s.trim()` tests. */
  function Trim(s: string): (r: string)
    ensures r == [] <==> AllSpace(s)
    ensures r == [] || (!IsSpace(r[0]) && !IsSpace(r[|r| - 1]))
    ensures StrippedAt(s, |s| - |TrimStart(s)|, r)
  {
    var t := TrimStart(s);
    StripBothEnds(s, t, TrimEnd(t));
    TrimEnd(t)
  }

  /** Stripping a white-space prefix and then a white-space suffix leaves a
      piece of the original framed by white space. */
  lemma StripBothEnds(s: string, t: string, r: string)
    requires |t| <= |s| && t == s[|s| - |t|..]
    requires forall i | 0 <= i < |s| - |t| :: IsSpace(s[i])
    requires |r| <= |t| && r == t[..|r|]
    requires forall i | |r| <= i < |t| :: IsSpace(t[i])
    ensures StrippedAt(s, |s| - |t|, r)
  {
    var a := |s| - |t|;
    assert r == s[a..a + |r|];
    forall i | a + |r| <= i < |s| ensures IsSpace(s[i]) {
      assert s[i] == t[i - a];
    }
  }

  /** `r` is the piece of `s` that starts at `a`, and everything before and
      after it is white space. */
  predicate StrippedAt(s: string, a: int, r: string) {
    && 0 <= a <= |s| - |r|
    && r == s[a..a + |r|]
    && (forall i | 0 <= i < a :: IsSpace(s[i]))
    && (forall i | a + |r| <= i < |s| :: IsSpace(s[i]))
  }

  /** `s.slice(0, n)` for `n >= 0`: the first `n` characters, or all of `s`
      when it is shorter. */
  function Prefix(s: string, n: nat): (r: string)
    ensures |r| == if |s| <= n then |s| else n
    ensures r == s[..|r|]
    ensures |s| <= n ==> r == s
  {
    if |s| <= n then s else s[..n]
  }

  /** `i` is the position of the first occurrence of `c` in `s`. */
  predicate IsFirst(s: string, c: char, i: int) {
    0 <= i < |s| && s[i] == c && forall k | 0 <= k < i :: s[k] != c
  }

  /** `j` is the position of the last occurrence of `c` in `s`. */
  predicate IsLast(s: string, c: char, j: int) {
    0 <= j < |s| && s[j] == c && forall k | j < k < |s| :: s[k] != c
  }

  /** The position of the first `c` in `s`, if any: where the leftmost
      attempt of a regular expression that starts with `c` begins. */
  function IndexOf(s: string, c: char): (r: Option<nat>)
    ensures r.Some? ==> IsFirst(s, c, r.value)
    ensures r.None? <==> forall k | 0 <= k < |s| :: s[k] != c
  {
    if |s| == 0 then None
    else if s[0] == c then Some(0)
    else match IndexOf(s[1..], c)
      case None => None
      case Some(i) => Some(i + 1)
  }

  /** The position of the last `c` in `s`, if any: where a greedy
      `[\s\S]*` followed by `c` stops. */
  function LastIndexOf(s: string, c: char): (r: Option<nat>)
    ensures r.Some? ==> IsLast(s, c, r.value)
    ensures r.None? <==> forall k | 0 <= k < |s| :: s[k] != c
  {
    if |s| == 0 then None
    else if s[|s| - 1] == c then Some(|s| - 1)
    else LastIndexOf(s[..|s| - 1], c)
  }
}
