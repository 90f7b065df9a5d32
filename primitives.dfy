/** The pieces of Rust's standard library the ticket code leans on: fixed-width
    unsigned integers, `String::len` (a byte count), ASCII lowercasing, the `{:?}`
    rendering of a string, and collecting the values of a `HashMap`. */
module Primitives {
  import opened Wrappers

  const U32_MAX: nat := 0xFFFF_FFFF
  const U64_MAX: nat := 0xFFFF_FFFF_FFFF_FFFF

  /** Rust's `u32`. */
  type uint32 = x: nat | x <= U32_MAX
  /** Rust's `u64`. */
  type uint64 = x: nat | x <= U64_MAX

  /** A `chrono::DateTime<Utc>` reading. The stores take the clock's value as a
      parameter; nothing is assumed about it. */
  datatype Timestamp = Instant(utcNanos: int)

  // ---------------------------------------------------------------------------
  // String::len: the number of bytes of the UTF-8 encoding

  /** Bytes taken by one Unicode scalar value in UTF-8. */
  function Utf8Width(c: char): (n: nat)
    ensures 1 <= n <= 4
    ensures n == 1 <==> c as int < 0x80
  {
    if c as int < 0x80 then 1
    else if c as int < 0x800 then 2
    else if c as int < 0x1_0000 then 3
    else 4
  }

  /** `String::len`: the length in bytes, not in characters. */
  function ByteLen(s: string): (n: nat)
    ensures |s| <= n <= 4 * |s|
  {
    if s == [] then 0 else Utf8Width(s[0]) + ByteLen(s[1..])
  }

  predicate IsAscii(s: string) {
    forall i :: 0 <= i < |s| ==> s[i] as int < 0x80
  }

  /** On ASCII text bytes and characters agree. */
  lemma {:induction false} ByteLenAscii(s: string)
    requires IsAscii(s)
    ensures ByteLen(s) == |s|
  {
    if s != [] {
      assert IsAscii(s[1..]) by {
        forall i | 0 <= i < |s[1..]| ensures s[1..][i] as int < 0x80 {
          assert s[1..][i] == s[i + 1];
        }
      }
      ByteLenAscii(s[1..]);
    }
  }

  /** A character of four UTF-8 bytes (U+1F600), used to build witnesses. */
  const WIDE_CHAR: char := '\U{1F600}'

  /** A string made of `n` copies of `c`. */
  function Repeat(c: char, n: nat): (s: string)
    ensures |s| == n
    ensures forall i :: 0 <= i < n ==> s[i] == c
  {
    if n == 0 then [] else [c] + Repeat(c, n - 1)
  }

  /** The byte length of `n` copies of `c` is `n` times the width of `c`. */
  lemma {:induction false} ByteLenRepeat(c: char, n: nat)
    ensures ByteLen(Repeat(c, n)) == n * Utf8Width(c)
  {
    if n > 0 {
      assert Repeat(c, n)[1..] == Repeat(c, n - 1);
      ByteLenRepeat(c, n - 1);
    }
  }

  // ---------------------------------------------------------------------------
  // str::to_lowercase, restricted to ASCII

  function LowerChar(c: char): (l: char)
    ensures 'A' <= c <= 'Z' ==> l as int == c as int + 32
    ensures !('A' <= c <= 'Z') ==> l == c
  {
    if 'A' <= c <= 'Z' then (c as int + 32) as char else c
  }

  /** `to_lowercase` on ASCII letters; every other character is kept. */
  function ToLowerAscii(s: string): (r: string)
    ensures |r| == |s|
    ensures forall i :: 0 <= i < |s| ==> r[i] == LowerChar(s[i])
    ensures forall i :: 0 <= i < |r| ==> !('A' <= r[i] <= 'Z')
  {
    seq(|s|, i requires 0 <= i < |s| => LowerChar(s[i]))
  }

  /** Lowercasing twice is lowercasing once. */
  lemma ToLowerAsciiIdempotent(s: string)
    ensures ToLowerAscii(ToLowerAscii(s)) == ToLowerAscii(s)
  {
    var once := ToLowerAscii(s);
    assert forall i :: 0 <= i < |once| ==> ToLowerAscii(once)[i] == once[i];
  }

  /** Text without upper-case ASCII letters is its own lower-case form. */
  lemma ToLowerAsciiOfLower(s: string)
    requires forall i :: 0 <= i < |s| ==> !('A' <= s[i] <= 'Z')
    ensures ToLowerAscii(s) == s
  {
    assert forall i :: 0 <= i < |s| ==> ToLowerAscii(s)[i] == s[i];
  }

  // ---------------------------------------------------------------------------
  // The `{:?}` (Debug) rendering of a string: quoted, with escapes

  function HexDigit(d: nat): (c: char)
    requires d < 16
  {
    if d < 10 then ('0' as int + d) as char else ('a' as int + d - 10) as char
  }

  /** Lower-case hexadecimal without leading zeros, as in `\u{1b}`. */
  function Hex(n: nat): (s: string)
    requires n < 256
    ensures 1 <= |s| <= 2
  {
    if n < 16 then [HexDigit(n)] else [HexDigit(n / 16), HexDigit(n % 16)]
  }

  /** Characters that `char::escape_debug` writes as `\u{..}`: the ASCII control
      characters that have no short escape, and DEL. */
  predicate IsUnicodeEscaped(c: char) {
    (c as int < 0x20 && c !in {'\0', '\t', '\n', '\r'}) || c as int == 0x7f
  }

  /** Characters the Debug rendering of a string does not write as themselves. */
  predicate NeedsEscape(c: char) {
    c in {'\0', '\t', '\n', '\r', '\\', '"'} || IsUnicodeEscaped(c)
  }

  /** How one character of a string appears between the quotes of its `{:?}`. */
  function EscapeChar(c: char): (e: string)
    ensures !NeedsEscape(c) <==> e == [c]
    ensures NeedsEscape(c) ==> |e| >= 2 && e[0] == '\\'
  {
    if c == '\0' then "\\0"
    else if c == '\t' then "\\t"
    else if c == '\n' then "\\n"
    else if c == '\r' then "\\r"
    else if c == '\\' then "\\\\"
    else if c == '"' then "\\\""
    else if IsUnicodeEscaped(c) then "\\u{" + Hex(c as int) + "}"
    else [c]
  }

  function Escape(s: string): (e: string)
    ensures |e| >= |s|
  {
    if s == [] then [] else EscapeChar(s[0]) + Escape(s[1..])
  }

  /** `format!("{:?}", s)` for a string `s`. */
  function DebugString(s: string): (r: string)
    ensures |r| >= |s| + 2 && r[0] == '"' && r[|r| - 1] == '"'
  {
    "\"" + Escape(s) + "\""
  }

  /** Text that needs no escape is rendered verbatim between the quotes. */
  lemma {:induction false} EscapePlain(s: string)
    requires forall i :: 0 <= i < |s| ==> !NeedsEscape(s[i])
    ensures Escape(s) == s
  {
    if s != [] {
      EscapePlain(s[1..]);
    }
  }

  // Reading the escapes back, as a Rust string literal does.

  predicate IsHexDigit(c: char) {
    '0' <= c <= '9' || 'a' <= c <= 'f'
  }

  function HexValue(c: char): (d: nat)
    requires IsHexDigit(c)
    ensures d < 16
  {
    if '0' <= c <= '9' then c as int - '0' as int else c as int - 'a' as int + 10
  }

  function Prepend(c: char, r: Option<string>): Option<string> {
    match r
    case None => None
    case Some(t) => Some([c] + t)
  }

  /** The characters denoted by the body of a string literal, or `None` when it holds
      an escape that `Escape` never writes. */
  function Unescape(e: string): (r: Option<string>)
    decreases |e|
  {
    if e == [] then Some([])
    else if e[0] != '\\' then Prepend(e[0], Unescape(e[1..]))
    else if |e| < 2 then None
    else if e[1] == '0' then Prepend('\0', Unescape(e[2..]))
    else if e[1] == 't' then Prepend('\t', Unescape(e[2..]))
    else if e[1] == 'n' then Prepend('\n', Unescape(e[2..]))
    else if e[1] == 'r' then Prepend('\r', Unescape(e[2..]))
    else if e[1] == '\\' then Prepend('\\', Unescape(e[2..]))
    else if e[1] == '"' then Prepend('"', Unescape(e[2..]))
    else if e[1] == 'u' && |e| >= 5 && e[2] == '{' && IsHexDigit(e[3]) && e[4] == '}' then
      Prepend(HexValue(e[3]) as char, Unescape(e[5..]))
    else if e[1] == 'u' && |e| >= 6 && e[2] == '{' && IsHexDigit(e[3]) && IsHexDigit(e[4]) && e[5] == '}' then
      Prepend((16 * HexValue(e[3]) + HexValue(e[4])) as char, Unescape(e[6..]))
    else None
  }

  lemma HexDigitValue(d: nat)
    requires d < 16
    ensures IsHexDigit(HexDigit(d)) && HexValue(HexDigit(d)) == d && HexDigit(d) != '}'
  {
  }

  /** Reading back the escape of one character yields that character. */
  lemma UnescapeChar(c: char, rest: string)
    ensures Unescape(EscapeChar(c) + rest) == Prepend(c, Unescape(rest))
  {
    var e := EscapeChar(c) + rest;
    if IsUnicodeEscaped(c) && !(c in {'\0', '\t', '\n', '\r', '\\', '"'}) {
      var n := c as int;
      if n < 16 {
        HexDigitValue(n);
        assert e == ['\\', 'u', '{', HexDigit(n), '}'] + rest;
        assert e[5..] == rest;
        assert (HexValue(e[3]) as char) == c;
      } else {
        HexDigitValue(n / 16);
        HexDigitValue(n % 16);
        assert e == ['\\', 'u', '{', HexDigit(n / 16), HexDigit(n % 16), '}'] + rest;
        assert e[6..] == rest;
        assert ((16 * HexValue(e[3]) + HexValue(e[4])) as char) == c;
      }
    } else if NeedsEscape(c) {
      assert e[2..] == rest;
    } else {
      assert e[1..] == rest;
    }
  }

  /** The Debug escaping loses nothing: reading it back gives the original text. */
  lemma {:induction false} UnescapeEscape(s: string)
    ensures Unescape(Escape(s)) == Some(s)
  {
    if s != [] {
      UnescapeChar(s[0], Escape(s[1..]));
      UnescapeEscape(s[1..]);
      assert [s[0]] + s[1..] == s;
    }
  }

  /** Hence two strings with the same Debug rendering are equal. */
  lemma DebugStringInjective(a: string, b: string)
    requires DebugString(a) == DebugString(b)
    ensures a == b
  {
    var ea, eb := Escape(a), Escape(b);
    assert ea == DebugString(a)[1..|DebugString(a)| - 1];
    assert eb == DebugString(b)[1..|DebugString(b)| - 1];
    UnescapeEscape(a);
    UnescapeEscape(b);
  }

  // ---------------------------------------------------------------------------
  // HashMap::values().collect(): every value once, in an unspecified order

  /** The values of `m` in the order of the keys `ks` that a walk over the map met;
      which order the walk takes is left open. */
  method CollectValues<K, V>(m: map<K, V>) returns (vs: seq<V>, ghost ks: seq<K>)
    ensures |vs| == |ks| == |m|
    ensures forall i :: 0 <= i < |ks| ==> ks[i] in m && vs[i] == m[ks[i]]
    ensures forall i, j :: 0 <= i < j < |ks| ==> ks[i] != ks[j]
    ensures forall k :: k in m ==> k in ks
  {
    vs, ks := [], [];
    var rest := m.Keys;
    while rest != {}
      invariant rest <= m.Keys
      invariant |vs| == |ks| && |ks| + |rest| == |m|
      invariant forall i :: 0 <= i < |ks| ==> ks[i] in m && ks[i] !in rest && vs[i] == m[ks[i]]
      invariant forall i, j :: 0 <= i < j < |ks| ==> ks[i] != ks[j]
      invariant forall k :: k in m ==> k in rest || k in ks
      decreases rest
    {
      var k :| k in rest;
      vs := vs + [m[k]];
      ks := ks + [k];
      rest := rest - {k};
    }
  }
}
