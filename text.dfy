/**
 * String helpers with the meaning Python gives them: `str.isspace` (which is
 * also what the `\s` class of a `re` pattern over `str` matches), `str.strip()`
 * with no argument, ASCII case folding, and the first-occurrence searches that
 * `str.split(sep, 1)` and `in` perform.
 */
module Text {
  import opened Values

  /** Python's `str.isspace()` for a single character (and the regex class `\s`). */
  predicate IsSpace(c: char) {
    c == ' ' || ('\t' <= c <= '\r') || ('\U{1c}' <= c <= '\U{1f}')
    || c == '\U{85}' || c == '\U{a0}' || c == '\U{1680}'
    || ('\U{2000}' <= c <= '\U{200a}') || c == '\U{2028}' || c == '\U{2029}'
    || c == '\U{202f}' || c == '\U{205f}' || c == '\U{3000}'
  }

  /** Every character of `s[lo..hi]` is white space. */
  predicate AllSpace(s: string, lo: int, hi: int)
    requires 0 <= lo <= hi <= |s|
  {
    forall k | lo <= k < hi :: IsSpace(s[k])
  }

  /** Number of leading white-space characters of `s`. */
  function LeadingSpace(s: string): (n: nat)
    ensures n <= |s|
    ensures AllSpace(s, 0, n)
    ensures n < |s| ==> !IsSpace(s[n])
  {
    if s == [] || !IsSpace(s[0]) then 0
    else
      var m := LeadingSpace(s[1..]);
      assert forall k | 1 <= k < m + 1 :: s[k] == s[1..][k - 1];
      m + 1
  }

  /** Number of trailing white-space characters of `s`. */
  function TrailingSpace(s: string): (n: nat)
    ensures n <= |s|
    ensures AllSpace(s, |s| - n, |s|)
    ensures n < |s| ==> !IsSpace(s[|s| - n - 1])
  {
    if s == [] || !IsSpace(s[|s| - 1]) then 0
    else
      var m := TrailingSpace(s[..|s| - 1]);
      assert forall k | |s| - 1 - m <= k < |s| - 1 :: s[k] == s[..|s| - 1][k];
      m + 1
  }

  /** Python's `s.strip()`: white space removed at both ends. */
  function Strip(s: string): (r: string)
    ensures |r| <= |s|
    ensures r == [] || (!IsSpace(r[0]) && !IsSpace(r[|r| - 1]))
  {
    var t := s[LeadingSpace(s)..];
    assert t != [] ==> !IsSpace(t[0]);
    t[..|t| - TrailingSpace(t)]
  }

  /** What `Strip` removes is white space on both sides of the result. */
  lemma StripRemovesOnlySpace(s: string)
    ensures exists a | 0 <= a <= |s| - |Strip(s)| :: StrippedAt(s, Strip(s), a)
  {
    var a := LeadingSpace(s);
    var t := s[a..];
    var b := TrailingSpace(t);
    assert forall k | |s| - b <= k < |s| :: s[k] == t[k - a];
    assert StrippedAt(s, Strip(s), a);
  }

  /** `r` sits in `s` at offset `a`, and everything around it in `s` is white space. */
  predicate StrippedAt(s: string, r: string, a: int) {
    0 <= a && a + |r| <= |s| && s[a..a + |r|] == r
    && AllSpace(s, 0, a) && AllSpace(s, a + |r|, |s|)
  }

  /** Stripping a stripped string changes nothing. */
  lemma StripIdempotent(s: string)
    ensures Strip(Strip(s)) == Strip(s)
  {
    var r := Strip(s);
    assert LeadingSpace(r) == 0;
    if r != [] {
      assert TrailingSpace(r[0..]) == 0 by { assert r[0..] == r; }
      assert r[0..|r| - 0] == r;
    }
  }

  /** White space in front of a string adds exactly its length to the leading run. */
  lemma {:induction false} LeadingSpaceAfterSpace(w: string, t: string)
    requires AllSpace(w, 0, |w|)
    ensures LeadingSpace(w + t) == |w| + LeadingSpace(t)
  {
    if w != [] {
      assert (w + t)[1..] == w[1..] + t;
      LeadingSpaceAfterSpace(w[1..], t);
    } else {
      assert w + t == t;
    }
  }

  /** White space in front of a string is invisible to `Strip`. */
  lemma StripIgnoresLeadingSpace(w: string, t: string)
    requires AllSpace(w, 0, |w|)
    ensures Strip(w + t) == Strip(t)
  {
    LeadingSpaceAfterSpace(w, t);
    var a := LeadingSpace(t);
    assert (w + t)[|w| + a..] == t[a..];
  }

  /** A string that neither starts nor ends with white space is its own strip. */
  lemma StripOfTrimmed(s: string)
    requires s == [] || (!IsSpace(s[0]) && !IsSpace(s[|s| - 1]))
    ensures Strip(s) == s
  {
    if s != [] {
      assert LeadingSpace(s) == 0;
      assert s[0..] == s;
      assert TrailingSpace(s) == 0;
    }
  }

  /** ASCII lower-casing of one character. */
  function LowerChar(c: char): (d: char)
    ensures 'A' <= c <= 'Z' ==> 'a' <= d <= 'z'
    ensures !('A' <= c <= 'Z') ==> d == c
  {
    if 'A' <= c <= 'Z' then (c as int - 'A' as int + 'a' as int) as char else c
  }

  /** ASCII lower-casing of a string, character by character. */
  function Lower(s: string): (r: string)
    ensures |r| == |s|
    ensures forall k | 0 <= k < |s| :: r[k] == LowerChar(s[k])
  {
    if s == [] then [] else [LowerChar(s[0])] + Lower(s[1..])
  }

  /** Index of the first occurrence of `c` in `s`, if any. */
  function FindChar(s: string, c: char): (r: Option<nat>)
    ensures r.Some? ==> r.value < |s| && s[r.value] == c && c !in s[..r.value]
    ensures r.None? ==> c !in s
  {
    if s == [] then None
    else if s[0] == c then Some(0)
    else
      match FindChar(s[1..], c)
      case None => None
      case Some(k) =>
        assert s[..k + 1] == [s[0]] + s[1..][..k];
        Some(k + 1)
  }

  /** The first occurrence is where `c` occurs with no `c` before it. */
  lemma FindCharFirst(s: string, c: char, k: nat)
    requires k < |s| && s[k] == c && c !in s[..k]
    ensures FindChar(s, c) == Some(k)
  {
  }

  /** Python's `s.split(sep)[0]`: the text before the first `sep`, or all of `s`. */
  function BeforeFirst(s: string, sep: char): (r: string)
    ensures sep !in r
    ensures sep in s ==> |r| < |s| && s == r + [sep] + s[|r| + 1..]
    ensures sep !in s ==> r == s
  {
    match FindChar(s, sep)
    case None => s
    case Some(k) => assert s == s[..k] + [sep] + s[k + 1..]; s[..k]
  }

  /** Python's `s.split(sep, 1)[1]` when `sep in s`: the text after the first `sep`. */
  function AfterFirst(s: string, sep: char): (r: string)
    requires sep in s
    ensures s == BeforeFirst(s, sep) + [sep] + r
  {
    s[|BeforeFirst(s, sep)| + 1..]
  }

  /** Concatenation of `parts` with `sep` between neighbours (Python's `sep.join(parts)`). */
  function Join(parts: seq<string>, sep: string): (r: string)
    ensures |parts| == 1 ==> r == parts[0]
  {
    if parts == [] then ""
    else if |parts| == 1 then parts[0]
    else parts[0] + sep + Join(parts[1..], sep)
  }

  /** One more part adds the separator and that part at the end: `", ".join(["a", "b"])` is `"a, b"`. */
  lemma {:induction false} JoinSnoc(parts: seq<string>, p: string, sep: string)
    requires parts != []
    ensures Join(parts + [p], sep) == Join(parts, sep) + sep + p
    decreases |parts|
  {
    if |parts| == 1 {
      assert (parts + [p])[1..] == [p];
    } else {
      assert (parts + [p])[1..] == parts[1..] + [p];
      JoinSnoc(parts[1..], p, sep);
    }
  }
}
