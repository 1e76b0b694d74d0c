/** The string operations the pages rely on: `toLowerCase`, `includes`,
    `replace(/([A-Z])/g, " $1")` and the `\S+@\S+\.\S+` e-mail test. */
module Text {

  /** `toLowerCase` on one character, for ASCII and the Latin-1 capitals (Á, É, Ñ, ...). */
  function LowerChar(c: char): char
  {
    if 'A' <= c <= 'Z' then (c as int + 32) as char
    else if 'À' <= c <= 'Þ' && c != '×' then (c as int + 32) as char
    else c
  }

  function Lower(s: string): (r: string)
    ensures |r| == |s|
  {
    if s == [] then [] else [LowerChar(s[0])] + Lower(s[1..])
  }

  /** `s.includes(sub)`: `sub` occurs in `s` at some position. */
  predicate Contains(s: string, sub: string)
  {
    exists i :: 0 <= i <= |s| - |sub| && OccursAt(s, sub, i)
  }

  predicate OccursAt(s: string, sub: string, i: int)
  {
    0 <= i <= |s| - |sub| && s[i..i + |sub|] == sub
  }

  /** Every string includes the empty string, so an empty search keeps everything. */
  lemma ContainsEmpty(s: string)
    ensures Contains(s, "")
  {
    assert OccursAt(s, "", 0);
  }

  /** `posicion.replace(/([A-Z])/g, " $1")`: a space before each ASCII capital. */
  function SpaceBeforeCapitals(s: string): (r: string)
    ensures |r| >= |s|
  {
    if s == [] then []
    else (if 'A' <= s[0] <= 'Z' then [' ', s[0]] else [s[0]]) + SpaceBeforeCapitals(s[1..])
  }

  /** The characters JavaScript's `\s` matches. */
  predicate IsSpace(c: char)
  {
    c == ' ' || c == '\t' || c == '\n' || c == '\r' || c == '\U{000B}' || c == '\U{000C}'
    || c == '\U{00A0}' || c == '\U{1680}' || ('\U{2000}' <= c <= '\U{200A}')
    || c == '\U{2028}' || c == '\U{2029}' || c == '\U{202F}' || c == '\U{205F}'
    || c == '\U{3000}' || c == '\U{FEFF}'
  }

  /** `s[i..j]` is a non-empty run of `\S` characters. */
  predicate NonSpaceRun(s: string, i: int, j: int)
  {
    0 <= i < j <= |s| && forall k :: i <= k < j ==> !IsSpace(s[k])
  }

  /** What `/\S+@\S+\.\S+/.test(s)` means: somewhere in `s` three non-empty runs of
      non-space characters are separated by an `@` and then a `.`. */
  ghost predicate MatchesEmailPattern(s: string)
  {
    exists a, b, c, d :: PatternAt(s, a, b, c, d)
  }

  /** The pattern matches `s[a..d]`, with the `@` at `b` and the `.` at `c`. */
  predicate PatternAt(s: string, a: int, b: int, c: int, d: int)
  {
    0 <= a < b < c < d <= |s|
    && NonSpaceRun(s, a, b) && s[b] == '@' && NonSpaceRun(s, b + 1, c) && s[c] == '.'
    && NonSpaceRun(s, c + 1, d)
  }

  /** The test as a scan: an `@` preceded by a non-space and followed by a non-space run
      that ends just before a `.` that is itself followed by a non-space. */
  predicate EmailTest(s: string)
  {
    exists b, c :: 0 <= b < |s| && 0 <= c < |s| && ShortestAt(s, b, c)
  }

  predicate ShortestAt(s: string, b: int, c: int)
  {
    1 <= b && b + 1 < c && c + 1 < |s| && s[b] == '@' && s[c] == '.'
    && !IsSpace(s[b - 1]) && NonSpaceRun(s, b + 1, c) && !IsSpace(s[c + 1])
  }

  /** The scan decides exactly the regular expression's search. */
  lemma EmailTestMatchesPattern(s: string)
    ensures EmailTest(s) <==> MatchesEmailPattern(s)
  {
    if EmailTest(s) {
      var b, c :| 0 <= b < |s| && 0 <= c < |s| && ShortestAt(s, b, c);
      assert PatternAt(s, b - 1, b, c, c + 2);
    }
    if MatchesEmailPattern(s) {
      var a, b, c, d :| PatternAt(s, a, b, c, d);
      assert !IsSpace(s[b - 1]) && !IsSpace(s[c + 1]);
      assert ShortestAt(s, b, c);
    }
  }
}
