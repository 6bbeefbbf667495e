/** Python's `json.dumps` applied to a `str` (default `ensure_ascii=True`),
    which the Celery worker uses to store a summary, and the decoding of a
    JSON string literal (section 7 of RFC 8259), which the front end applies
    to the stored value before parsing the summary itself. */
module JsonString {
  import opened Outcomes

  /** Characters json.dumps writes as they are: printable ASCII except the
      quotation mark and the backslash. */
  predicate Plain(c: char)
  {
    ' ' <= c <= '~' && c != '"' && c != '\\'
  }

  function HexDigit(d: nat): char
    requires d < 16
  {
    if d < 10 then ('0' as int + d) as char else ('a' as int + d - 10) as char
  }

  /** Four lower-case hex digits, as Python's `'{0:04x}'.format(n)`. */
  function Hex4(n: nat): (r: string)
    requires n < 0x10000
    ensures |r| == 4
  {
    [HexDigit(n / 16 / 16 / 16), HexDigit(n / 16 / 16 % 16), HexDigit(n / 16 % 16), HexDigit(n % 16)]
  }

  /** The replacement `json.dumps` writes for one character. */
  function EscapeChar(c: char): (r: string)
    ensures r != []
  {
    if Plain(c) then [c]
    else if c == '"' then "\\\""
    else if c == '\\' then "\\\\"
    else if c == '\U{8}' then "\\b"
    else if c == '\U{c}' then "\\f"
    else if c == '\n' then "\\n"
    else if c == '\r' then "\\r"
    else if c == '\t' then "\\t"
    else if c as int < 0x10000 then "\\u" + Hex4(c as int)
    else
      var n := c as int - 0x10000;
      "\\u" + Hex4(0xD800 + n / 0x400) + "\\u" + Hex4(0xDC00 + n % 0x400)
  }

  function Escape(s: string): string
  {
    if s == [] then [] else EscapeChar(s[0]) + Escape(s[1..])
  }

  /** `json.dumps(s)` for a string `s`. */
  function Dumps(s: string): (r: string)
    ensures |r| >= 2 && r[0] == '"' && r[|r| - 1] == '"'
  {
    "\"" + Escape(s) + "\""
  }

  function HexValue(c: char): Option<nat>
  {
    if '0' <= c <= '9' then Some(c as int - '0' as int)
    else if 'a' <= c <= 'f' then Some(c as int - 'a' as int + 10)
    else if 'A' <= c <= 'F' then Some(c as int - 'A' as int + 10)
    else None
  }

  function ParseHex4(s: string): (r: Option<nat>)
    requires |s| == 4
    ensures r.Some? ==> r.value < 0x10000
  {
    match (HexValue(s[0]), HexValue(s[1]), HexValue(s[2]), HexValue(s[3]))
    case (Some(a), Some(b), Some(c), Some(d)) =>
      if a < 16 && b < 16 && c < 16 && d < 16 then Some(((a * 16 + b) * 16 + c) * 16 + d) else None
    case _ => None
  }

  function Prepend(c: char, rest: Option<string>): Option<string>
  {
    if rest.Some? then Some([c] + rest.value) else None
  }

  /** The characters a JSON string literal's body denotes, for the
      well-formed subset of section 7 of RFC 8259: None for a bare quotation
      mark or control character, an unknown escape, or an unpaired surrogate
      escape. (JavaScript's `JSON.parse` accepts an unpaired surrogate; a
      `char` here is a Unicode scalar value and cannot hold one.) */
  function Unescape(s: string): Option<string>
    decreases |s|
  {
    if s == [] then Some([])
    else if s[0] == '"' || s[0] < ' ' then None
    else if s[0] != '\\' then Prepend(s[0], Unescape(s[1..]))
    else if |s| < 2 then None
    else if s[1] == '"' then Prepend('"', Unescape(s[2..]))
    else if s[1] == '\\' then Prepend('\\', Unescape(s[2..]))
    else if s[1] == '/' then Prepend('/', Unescape(s[2..]))
    else if s[1] == 'b' then Prepend('\U{8}', Unescape(s[2..]))
    else if s[1] == 'f' then Prepend('\U{c}', Unescape(s[2..]))
    else if s[1] == 'n' then Prepend('\n', Unescape(s[2..]))
    else if s[1] == 'r' then Prepend('\r', Unescape(s[2..]))
    else if s[1] == 't' then Prepend('\t', Unescape(s[2..]))
    else if s[1] != 'u' || |s| < 6 then None
    else
      var unit := ParseHex4(s[2..6]);
      if unit.None? then None
      else if 0xDC00 <= unit.value < 0xE000 then None
      else if unit.value < 0xD800 || 0xE000 <= unit.value then Prepend(unit.value as char, Unescape(s[6..]))
      else if |s| < 12 || s[6] != '\\' || s[7] != 'u' then None
      else
        var low := ParseHex4(s[8..12]);
        if low.None? || !(0xDC00 <= low.value < 0xE000) then None
        else Prepend((0x10000 + (unit.value - 0xD800) * 0x400 + (low.value - 0xDC00)) as char, Unescape(s[12..]))
  }

  /** Decoding a JSON text that is a single string literal. */
  function Loads(s: string): Option<string>
  {
    if |s| >= 2 && s[0] == '"' && s[|s| - 1] == '"' then Unescape(s[1..|s| - 1]) else None
  }

  lemma HexRoundTrip(n: nat)
    requires n < 0x10000
    ensures ParseHex4(Hex4(n)) == Some(n)
  {
    var q1 := n / 16;
    var q2 := q1 / 16;
    var q3 := q2 / 16;
    assert n == q1 * 16 + n % 16;
    assert q1 == q2 * 16 + q1 % 16;
    assert q2 == q3 * 16 + q2 % 16;
    HexDigitValue(q3);
    HexDigitValue(q2 % 16);
    HexDigitValue(q1 % 16);
    HexDigitValue(n % 16);
  }

  lemma HexDigitValue(d: nat)
    requires d < 16
    ensures HexValue(HexDigit(d)) == Some(d)
  {
  }

  /** Decoding undoes the escape of one character, whatever follows it. */
  lemma UnescapeChar(c: char, rest: string)
    ensures Unescape(EscapeChar(c) + rest) == Prepend(c, Unescape(rest))
  {
    if Plain(c) {
      var s := EscapeChar(c) + rest;
      assert s[1..] == rest;
    } else if c == '"' || c == '\\' || c == '\U{8}' || c == '\U{c}' || c == '\n' || c == '\r' || c == '\t' {
      UnescapeNamed(c, rest);
    } else if c as int < 0x10000 {
      UnescapeBasic(c, rest);
    } else {
      UnescapeAstral(c, rest);
    }
  }

  lemma UnescapeNamed(c: char, rest: string)
    requires c == '"' || c == '\\' || c == '\U{8}' || c == '\U{c}' || c == '\n' || c == '\r' || c == '\t'
    ensures Unescape(EscapeChar(c) + rest) == Prepend(c, Unescape(rest))
  {
    var s := EscapeChar(c) + rest;
    assert s[2..] == rest;
  }

  lemma UnescapeBasic(c: char, rest: string)
    requires !Plain(c) && c as int < 0x10000
    requires !(c == '"' || c == '\\' || c == '\U{8}' || c == '\U{c}' || c == '\n' || c == '\r' || c == '\t')
    ensures Unescape(EscapeChar(c) + rest) == Prepend(c, Unescape(rest))
  {
    var s := EscapeChar(c) + rest;
    HexRoundTrip(c as int);
    assert s[2..6] == Hex4(c as int);
    assert s[6..] == rest;
  }

  lemma UnescapeAstral(c: char, rest: string)
    requires c as int >= 0x10000
    ensures Unescape(EscapeChar(c) + rest) == Prepend(c, Unescape(rest))
  {
    var n := c as int - 0x10000;
    var hi, lo := 0xD800 + n / 0x400, 0xDC00 + n % 0x400;
    assert n == (n / 0x400) * 0x400 + n % 0x400;
    assert EscapeChar(c) == "\\u" + Hex4(hi) + "\\u" + Hex4(lo);
    UnescapePair(hi, lo, rest);
  }

  lemma UnescapePair(hi: nat, lo: nat, rest: string)
    requires 0xD800 <= hi < 0xDC00 && 0xDC00 <= lo < 0xE000
    ensures Unescape("\\u" + Hex4(hi) + "\\u" + Hex4(lo) + rest) ==
            Prepend((0x10000 + (hi - 0xD800) * 0x400 + (lo - 0xDC00)) as char, Unescape(rest))
  {
    var h, l := Hex4(hi), Hex4(lo);
    HexRoundTrip(hi);
    HexRoundTrip(lo);
    var s := "\\u" + h + "\\u" + l + rest;
    assert s[2..6] == h && s[6] == '\\' && s[7] == 'u';
    assert s[8..12] == l && s[12..] == rest;
  }

  lemma {:induction false} UnescapeEscape(s: string)
    ensures Unescape(Escape(s)) == Some(s)
  {
    if s != [] {
      UnescapeEscape(s[1..]);
      UnescapeChar(s[0], Escape(s[1..]));
      assert [s[0]] + s[1..] == s;
    }
  }

  /** Decoding what `json.dumps` wrote gives back the original string: the
      summary the Celery worker stores survives the front end's first
      JSON.parse unchanged. */
  lemma DumpsRoundTrip(s: string)
    ensures Loads(Dumps(s)) == Some(s)
  {
    var d := Dumps(s);
    assert d[1..|d| - 1] == Escape(s);
    UnescapeEscape(s);
  }

  /** The stored text is pure printable ASCII, whatever the summary holds. */
  lemma {:induction false} DumpsIsAscii(s: string)
    ensures forall i :: 0 <= i < |Dumps(s)| ==> ' ' <= Dumps(s)[i] <= '~'
  {
    EscapeIsAscii(s);
  }

  lemma {:induction false} EscapeIsAscii(s: string)
    ensures forall i :: 0 <= i < |Escape(s)| ==> ' ' <= Escape(s)[i] <= '~'
  {
    if s != [] {
      EscapeIsAscii(s[1..]);
      var e := EscapeChar(s[0]);
      assert forall i :: 0 <= i < |e| ==> ' ' <= e[i] <= '~' by {
        if !Plain(s[0]) && !(s[0] == '"' || s[0] == '\\' || s[0] == '\U{8}' || s[0] == '\U{c}' || s[0] == '\n' || s[0] == '\r' || s[0] == '\t') {
          forall n: nat | n < 0x10000 ensures forall i :: 0 <= i < 4 ==> ' ' <= Hex4(n)[i] <= '~' { }
        }
      }
    }
  }
}
