/** The two Python `str` operations the pika worker applies to Gemini's reply:
    `strip()` with no argument and slicing `s[i:j]` with negative indices
    counted from the end. */
module PyText {

  /** `c.isspace()`: the characters Python treats as whitespace (the ASCII
      controls TAB..CR, the four information separators, space, NEL, NBSP and
      the Unicode space separators, line and paragraph separators). */
  predicate IsSpace(c: char)
  {
    ('\t' <= c <= '\r') || ('\U{1c}' <= c <= '\U{1f}') || c == ' ' ||
    c == '\U{85}' || c == '\U{a0}' || c == '\U{1680}' ||
    ('\U{2000}' <= c <= '\U{200a}') || c == '\U{2028}' || c == '\U{2029}' ||
    c == '\U{202f}' || c == '\U{205f}' || c == '\U{3000}'
  }

  /** `s.lstrip()`. */
  function LStrip(s: string): string
    decreases |s|
  {
    if s != [] && IsSpace(s[0]) then LStrip(s[1..]) else s
  }

  /** `s.rstrip()`. */
  function RStrip(s: string): string
    decreases |s|
  {
    if s != [] && IsSpace(s[|s| - 1]) then RStrip(s[..|s| - 1]) else s
  }

  /** What `lstrip()` leaves is a suffix of `s` that does not start with
      whitespace, and everything it dropped was whitespace. */
  lemma {:induction false} LStripSuffix(s: string)
    ensures |LStrip(s)| <= |s| && LStrip(s) == s[|s| - |LStrip(s)|..]
    ensures forall i :: 0 <= i < |s| - |LStrip(s)| ==> IsSpace(s[i])
    ensures LStrip(s) != [] ==> !IsSpace(LStrip(s)[0])
    decreases |s|
  {
    if s != [] && IsSpace(s[0]) {
      LStripSuffix(s[1..]);
      forall i | 1 <= i < |s| - |LStrip(s)|
        ensures IsSpace(s[i])
      {
        assert s[i] == s[1..][i - 1];
      }
    }
  }

  /** What `rstrip()` leaves is a prefix of `s` that does not end with
      whitespace, and everything it dropped was whitespace. */
  lemma {:induction false} RStripPrefix(s: string)
    ensures |RStrip(s)| <= |s| && RStrip(s) == s[..|RStrip(s)|]
    ensures forall i :: |RStrip(s)| <= i < |s| ==> IsSpace(s[i])
    ensures RStrip(s) != [] ==> !IsSpace(RStrip(s)[|RStrip(s)| - 1])
    decreases |s|
  {
    if s != [] && IsSpace(s[|s| - 1]) {
      RStripPrefix(s[..|s| - 1]);
    }
  }

  /** `s.strip()`. */
  function Strip(s: string): string
  {
    RStrip(LStrip(s))
  }

  /** A slice bound as Python normalises it: a negative index counts from the
      end, and the result is clamped to `0..n`. */
  function Bound(i: int, n: nat): nat
  {
    if i < 0 then (if n + i < 0 then 0 else n + i) else if i > n then n else i
  }

  /** `s[i:j]`: empty when the normalised bounds cross. */
  function Slice(s: string, i: int, j: int): string
  {
    var lo, hi := Bound(i, |s|), Bound(j, |s|);
    if lo < hi then s[lo..hi] else ""
  }

  /** `strip()` keeps exactly the part between leading and trailing
      whitespace: the result sits in `s` at some offset, with only
      whitespace around it, and does not itself begin or end with whitespace. */
  lemma StripBounds(s: string)
    ensures |Strip(s)| <= |LStrip(s)| <= |s|
    ensures var r := Strip(s); var a := |s| - |LStrip(s)|;
            r == s[a..a + |r|] &&
            (forall i :: 0 <= i < a ==> IsSpace(s[i])) &&
            (forall i :: a + |r| <= i < |s| ==> IsSpace(s[i])) &&
            (r != [] ==> !IsSpace(r[0]) && !IsSpace(r[|r| - 1]))
  {
    var l := LStrip(s);
    var r := RStrip(l);
    LStripSuffix(s);
    RStripPrefix(l);
    var a := |s| - |l|;
    forall i | a + |r| <= i < |s|
      ensures IsSpace(s[i])
    {
      assert s[i] == l[i - a];
    }
  }
}
