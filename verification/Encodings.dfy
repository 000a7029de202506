/** Unpadded base64url (section 5 of RFC 4648) and lowercase hexadecimal (internal/hmac/keys.go). */
module Encodings {
  import opened Wrappers

  type Byte = n: int | 0 <= n < 256

  type Bytes = seq<Byte>

  // ---------- base64url ----------

  type Sextet = n: int | 0 <= n < 64

  /** The alphabet: upper-case letters, lower-case letters, digits, minus and underscore. */
  function Symbol(n: Sextet): char {
    if n < 26 then ('A' as int + n) as char
    else if n < 52 then ('a' as int + n - 26) as char
    else if n < 62 then ('0' as int + n - 52) as char
    else if n == 62 then '-' else '_'
  }

  predicate IsSymbol(c: char) {
    'A' <= c <= 'Z' || 'a' <= c <= 'z' || '0' <= c <= '9' || c == '-' || c == '_'
  }

  function SymbolValue(c: char): (n: Sextet)
    requires IsSymbol(c)
    ensures Symbol(n) == c
  {
    if 'A' <= c <= 'Z' then c as int - 'A' as int
    else if 'a' <= c <= 'z' then c as int - 'a' as int + 26
    else if '0' <= c <= '9' then c as int - '0' as int + 52
    else if c == '-' then 62 else 63
  }

  lemma ValueOfSymbol(n: Sextet)
    ensures IsSymbol(Symbol(n)) && SymbolValue(Symbol(n)) == n
  {
  }

  predicate AllSymbols(s: string) {
    forall c :: c in s ==> IsSymbol(c)
  }

  function Encode(b: Bytes): (s: string)
    ensures AllSymbols(s) && (s == "" <==> b == [])
  {
    if |b| == 0 then ""
    else if |b| == 1 then EncodeOne(b[0])
    else if |b| == 2 then EncodeTwo(b[0], b[1])
    else EncodeThree(b[0], b[1], b[2]) + Encode(b[3..])
  }

  function EncodeOne(a: Byte): (s: string)
    ensures AllSymbols(s) && |s| == 2
  {
    ValueOfSymbol(a / 4); ValueOfSymbol(a % 4 * 16);
    [Symbol(a / 4), Symbol(a % 4 * 16)]
  }

  function EncodeTwo(a: Byte, b: Byte): (s: string)
    ensures AllSymbols(s) && |s| == 3
  {
    ValueOfSymbol(a / 4); ValueOfSymbol(a % 4 * 16 + b / 16); ValueOfSymbol(b % 16 * 4);
    [Symbol(a / 4), Symbol(a % 4 * 16 + b / 16), Symbol(b % 16 * 4)]
  }

  function EncodeThree(a: Byte, b: Byte, c: Byte): (s: string)
    ensures AllSymbols(s) && |s| == 4
  {
    ValueOfSymbol(a / 4); ValueOfSymbol(a % 4 * 16 + b / 16); ValueOfSymbol(b % 16 * 4 + c / 64); ValueOfSymbol(c % 64);
    [Symbol(a / 4), Symbol(a % 4 * 16 + b / 16), Symbol(b % 16 * 4 + c / 64), Symbol(c % 64)]
  }

  /** Decodes leniently: bits that do not fill a byte are dropped. None for a foreign symbol or an impossible length. */
  function Decode(s: string): Option<Bytes> {
    if !AllSymbols(s) then None else DecodeSymbols(s)
  }

  function DecodeSymbols(s: string): Option<Bytes>
    requires AllSymbols(s)
  {
    if |s| == 0 then Some([])
    else if |s| == 1 then None
    else
      var w, x := SymbolValue(s[0]), SymbolValue(s[1]);
      var first: Byte := w * 4 + x / 16;
      if |s| == 2 then Some([first])
      else
        var y := SymbolValue(s[2]);
        var second: Byte := x % 16 * 16 + y / 4;
        if |s| == 3 then Some([first, second])
        else
          var third: Byte := y % 4 * 64 + SymbolValue(s[3]);
          match DecodeSymbols(s[4..])
          case None => None
          case Some(rest) => Some([first, second, third] + rest)
  }

  lemma DecodeOne(a: Byte)
    ensures DecodeSymbols(EncodeOne(a)) == Some([a])
  {
    ValueOfSymbol(a / 4);
    ValueOfSymbol(a % 4 * 16);
  }

  lemma DecodeTwo(a: Byte, b: Byte)
    ensures DecodeSymbols(EncodeTwo(a, b)) == Some([a, b])
  {
    ValueOfSymbol(a / 4);
    ValueOfSymbol(a % 4 * 16 + b / 16);
    ValueOfSymbol(b % 16 * 4);
  }

  lemma DecodeThree(a: Byte, b: Byte, c: Byte, s: string)
    requires AllSymbols(s)
    ensures AllSymbols(EncodeThree(a, b, c) + s)
    ensures DecodeSymbols(EncodeThree(a, b,
                                      c) + s) == match DecodeSymbols(s) case None => None case Some(rest) => Some([a, b,
                                          c] + rest)
  {
    var e := EncodeThree(a, b, c);
    assert e == [Symbol(a / 4), Symbol(a % 4 * 16 + b / 16), Symbol(b % 16 * 4 + c / 64), Symbol(c % 64)];
    assert (e + s)[4..] == s;
    ValueOfSymbol(a / 4);
    ValueOfSymbol(a % 4 * 16 + b / 16);
    ValueOfSymbol(b % 16 * 4 + c / 64);
    ValueOfSymbol(c % 64);
    Regrouped(a, b, c);
    hide EncodeThree, Symbol, SymbolValue, IsSymbol;
  }

  /** Four groups of six bits are three bytes. */
  lemma Regrouped(a: Byte, b: Byte, c: Byte)
    ensures a / 4 * 4 + (a % 4 * 16 + b / 16) / 16 == a
    ensures (a % 4 * 16 + b / 16) % 16 * 16 + (b % 16 * 4 + c / 64) / 4 == b
    ensures (b % 16 * 4 + c / 64) % 4 * 64 + c % 64 == c
  {
  }

  /** Every byte string decodes from its encoding. */
  lemma {:induction false} DecodeOfEncode(b: Bytes)
    ensures Decode(Encode(b)) == Some(b)
  {
    hide EncodeOne, EncodeTwo, EncodeThree, SymbolValue;
    if |b| == 0 {
    } else if |b| == 1 {
      DecodeOne(b[0]);
      assert b == [b[0]];
    } else if |b| == 2 {
      DecodeTwo(b[0], b[1]);
      assert b == [b[0], b[1]];
    } else {
      DecodeOfEncode(b[3..]);
      DecodeThree(b[0], b[1], b[2], Encode(b[3..]));
      assert b == [b[0], b[1], b[2]] + b[3..];
    }
  }

  // ---------- hexadecimal ----------

  function HexDigit(n: int): char
    requires 0 <= n < 16
  {
    if n < 10 then ('0' as int + n) as char else ('a' as int + n - 10) as char
  }

  predicate IsLowerHex(c: char) {
    '0' <= c <= '9' || 'a' <= c <= 'f'
  }

  predicate LowerHex(s: string) {
    forall c :: c in s ==> IsLowerHex(c)
  }

  function HexValue(c: char): (n: int)
    requires IsLowerHex(c)
    ensures 0 <= n < 16 && HexDigit(n) == c
  {
    if c <= '9' then c as int - '0' as int else c as int - 'a' as int + 10
  }

  function Hex(b: Bytes): (s: string)
    ensures |s| == 2 * |b| && LowerHex(s)
  {
    if b == [] then "" else [HexDigit(b[0] / 16), HexDigit(b[0] % 16)] + Hex(b[1..])
  }

  function Unhex(s: string): Option<Bytes>
    requires LowerHex(s)
  {
    if |s| == 0 then Some([])
    else if |s| == 1 then None
    else
      var first: Byte := 16 * HexValue(s[0]) + HexValue(s[1]);
      match Unhex(s[2..])
      case None => None
      case Some(rest) => Some([first] + rest)
  }

  /** Lowercase hexadecimal is a bijection between byte strings and even lengths of digits. */
  lemma {:induction false} UnhexExact(s: string, b: Bytes)
    requires LowerHex(s)
    ensures Unhex(s) == Some(b) <==> s == Hex(b)
    decreases |s| + |b|
  {
    if |s| >= 2 && b != [] {
      UnhexExact(s[2..], b[1..]);
      HexPair(s[0], s[1], b[0]);
      assert s == [s[0], s[1]] + s[2..];
      assert b == [b[0]] + b[1..];
      if Unhex(s) == Some(b) {
        assert Unhex(s[2..]).Some? && Unhex(s[2..]).value == b[1..];
      }
      if s == Hex(b) {
        assert s[2..] == Hex(b[1..]);
      }
    }
  }

  lemma ValueOfHexDigit(n: int)
    requires 0 <= n < 16
    ensures IsLowerHex(HexDigit(n)) && HexValue(HexDigit(n)) == n
  {
  }

  lemma HexPair(c: char, d: char, n: Byte)
    requires IsLowerHex(c) && IsLowerHex(d)
    ensures 16 * HexValue(c) + HexValue(d) == n <==> c == HexDigit(n / 16) && d == HexDigit(n % 16)
  {
    ValueOfHexDigit(n / 16);
    ValueOfHexDigit(n % 16);
    hide HexDigit, HexValue;
  }
}
