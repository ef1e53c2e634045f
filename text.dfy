/**
 * Trimming of surrounding whitespace, as Foundation's
 * `trimmingCharacters(in: .whitespacesAndNewlines)` does it.
 * Which characters count as whitespace is left abstract: every function
 * takes the character class `ws` (a `CharacterSet`) as a parameter.
 */
module Text {

  /** `s` neither starts nor ends with a character of `ws`. */
  predicate Bare(s: string, ws: set<char>) {
    |s| == 0 || (s[0] !in ws && s[|s| - 1] !in ws)
  }

  /** The first position at or after `i` that does not hold whitespace (or `|s|`). */
  function SkipForward(s: string, ws: set<char>, i: nat): (n: nat)
    requires i <= |s|
    ensures i <= n <= |s|
    ensures forall j :: i <= j < n ==> s[j] in ws
    ensures n == |s| || s[n] !in ws
    decreases |s| - i
  {
    if i < |s| && s[i] in ws then SkipForward(s, ws, i + 1) else i
  }

  /** The end of `s[lo..e]` once its trailing whitespace is dropped. */
  function SkipBackward(s: string, ws: set<char>, lo: nat, e: nat): (n: nat)
    requires lo <= e <= |s|
    ensures lo <= n <= e
    ensures forall j :: n <= j < e ==> s[j] in ws
    ensures n == lo || s[n - 1] !in ws
    decreases e
  {
    if lo < e && s[e - 1] in ws then SkipBackward(s, ws, lo, e - 1) else e
  }

  /**
   * Where the trimmed text starts and ends: everything before the start and
   * from the end on is whitespace, and the text between, if any, starts and
   * ends with a character that is not.
   */
  function TrimBounds(s: string, ws: set<char>): (b: (nat, nat))
    ensures b.0 <= b.1 <= |s|
    ensures forall j :: 0 <= j < b.0 ==> s[j] in ws
    ensures forall j :: b.1 <= j < |s| ==> s[j] in ws
    ensures b.0 < b.1 ==> s[b.0] !in ws && s[b.1 - 1] !in ws
  {
    var start := SkipForward(s, ws, 0);
    (start, SkipBackward(s, ws, start, |s|))
  }

  /**
   * Removes leading and trailing `ws` characters. The result has no
   * surrounding whitespace, and a string without any is its own trim.
   */
  function Trim(s: string, ws: set<char>): (r: string)
    ensures |r| <= |s|
    ensures Bare(r, ws)
    ensures Bare(s, ws) ==> r == s
    ensures var b := TrimBounds(s, ws); r == s[b.0..b.1]
  {
    var b := TrimBounds(s, ws);
    assert Bare(s, ws) ==> b == (0, |s|) && s[0..|s|] == s;
    s[b.0..b.1]
  }

  /** Trimming twice gives what trimming once gives. */
  lemma TrimIdempotent(s: string, ws: set<char>)
    ensures Trim(Trim(s, ws), ws) == Trim(s, ws)
  {
  }
}
