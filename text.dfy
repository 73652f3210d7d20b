/**
  Character classes and string operations of Python 3 that the log filter
  relies on: the `\s` class and `str.strip()` (both use `str.isspace`),
  `str.lower()` on ASCII letters, the character class `[a-zA-Z0-9_.]`,
  and a literal regular-expression fragment in which `.` is a wildcard.
 */
module Text {

  /** Python's `str.isspace`, which is also what `\s` and `strip()` use. */
  predicate IsSpace(c: char) {
    ('\t' <= c <= '\r') || ('\U{1C}' <= c <= ' ') ||
    c == '\U{85}' || c == '\U{A0}' || c == '\U{1680}' ||
    ('\U{2000}' <= c <= '\U{200A}') ||
    c == '\U{2028}' || c == '\U{2029}' || c == '\U{202F}' ||
    c == '\U{205F}' || c == '\U{3000}'
  }

  /** The regular-expression class `[A-Z]`. */
  predicate IsUpper(c: char) {
    'A' <= c <= 'Z'
  }

  /** The regular-expression class `[a-zA-Z0-9_.]`. */
  predicate IsIdChar(c: char) {
    ('a' <= c <= 'z') || ('A' <= c <= 'Z') || ('0' <= c <= '9') || c == '_' || c == '.'
  }

  predicate AllSpace(s: string) {
    forall j :: 0 <= j < |s| ==> IsSpace(s[j])
  }

  /** `str.lower()` restricted to ASCII letters. */
  function Lower(s: string): (r: string)
    ensures |r| == |s|
    ensures forall j :: 0 <= j < |s| ==>
      r[j] == if 'A' <= s[j] <= 'Z' then s[j] - 'A' + 'a' else s[j]
  {
    if s == [] then []
    else [if 'A' <= s[0] <= 'Z' then s[0] - 'A' + 'a' else s[0]] + Lower(s[1..])
  }

  /** The end of the run of whitespace that starts at `i`. */
  function SpaceFrom(s: string, i: nat): (k: nat)
    requires i <= |s|
    ensures i <= k <= |s|
    ensures forall j :: i <= j < k ==> IsSpace(s[j])
    ensures k < |s| ==> !IsSpace(s[k])
    decreases |s| - i
  {
    if i < |s| && IsSpace(s[i]) then SpaceFrom(s, i + 1) else i
  }

  /** The start of the run of whitespace that ends at `e`. */
  function SpaceUntil(s: string, e: nat): (k: nat)
    requires e <= |s|
    ensures k <= e
    ensures forall j :: k <= j < e ==> IsSpace(s[j])
    ensures k > 0 ==> !IsSpace(s[k - 1])
  {
    if e > 0 && IsSpace(s[e - 1]) then SpaceUntil(s, e - 1) else e
  }

  /** Drops leading whitespace. */
  function TrimStart(s: string): (r: string)
    ensures |r| <= |s| && r == s[|s| - |r|..]
    ensures AllSpace(s[..|s| - |r|])
    ensures r == [] || !IsSpace(r[0])
  {
    s[SpaceFrom(s, 0)..]
  }

  /** Drops trailing whitespace. */
  function TrimEnd(s: string): (r: string)
    ensures |r| <= |s| && r == s[..|r|]
    ensures AllSpace(s[|r|..])
    ensures r == [] || !IsSpace(r[|r| - 1])
  {
    s[..SpaceUntil(s, |s|)]
  }

  /**
    `str.strip()`: the stripped string is a slice of the input whose
    outside is whitespace and whose first and last characters are not.
   */
  function Strip(s: string): (r: string)
    ensures exists i :: 0 <= i <= |s| - |r| && r == s[i..i + |r|]
                        && AllSpace(s[..i]) && AllSpace(s[i + |r|..])
    ensures r == [] || (!IsSpace(r[0]) && !IsSpace(r[|r| - 1]))
  {
    var t := TrimEnd(s);
    var r := TrimStart(t);
    var i := |t| - |r|;
    assert s[..i] == t[..i];
    assert s[i + |r|..] == s[|t|..];
    r
  }

  /** One character of a literal pattern: `.` matches anything but a line feed. */
  predicate CharMatches(p: char, c: char) {
    if p == '.' then c != '\n' else c == p
  }

  /** `s` is matched by the literal pattern `pat` in which `.` is a wildcard. */
  predicate Matches(pat: string, s: string) {
    |pat| == |s| && forall j :: 0 <= j < |s| ==> CharMatches(pat[j], s[j])
  }

  /** `pat` matches `line` at offset `at`. */
  predicate MatchesAt(pat: string, line: string, at: nat) {
    at + |pat| <= |line| && Matches(pat, line[at..at + |pat|])
  }
}
