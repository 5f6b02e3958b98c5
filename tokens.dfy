/**
 * `makeToken`: `bytes` random bytes rendered as lower-case hexadecimal. The
 * random source is a parameter; the model covers the encoding.
 */
module Tokens {

  type byte = b: int | 0 <= b < 256

  /** The default number of random bytes in a token. */
  const DefaultBytes: nat := 24

  /** A lower-case hexadecimal digit: 0-9 or a-f. */
  predicate IsHexDigit(c: char) {
    '0' <= c <= '9' || 'a' <= c <= 'f'
  }

  function HexDigit(n: int): (c: char)
    requires 0 <= n < 16
    ensures IsHexDigit(c)
  {
    if n < 10 then '0' + n as char else 'a' + (n - 10) as char
  }

  /** A string of hexadecimal digit pairs. */
  predicate IsHexPairs(s: string) {
    s == [] || (|s| >= 2 && IsHexDigit(s[0]) && IsHexDigit(s[1]) && IsHexPairs(s[2..]))
  }

  /** `Buffer.toString("hex")`: two characters per byte, high nibble first. */
  function Hex(bytes: seq<byte>): (r: string)
    ensures |r| == 2 * |bytes|
    ensures forall k :: 0 <= k < |r| ==> IsHexDigit(r[k])
    ensures IsHexPairs(r)
  {
    if bytes == [] then []
    else [HexDigit(bytes[0] / 16), HexDigit(bytes[0] % 16)] + Hex(bytes[1..])
  }

  /** `makeToken(bytes)`, given the `bytes` random bytes `crypto.randomBytes(bytes)` produced. */
  function MakeToken(bytes: nat, random: seq<byte>): (token: string)
    requires |random| == bytes
    ensures |token| == 2 * bytes
    ensures forall k :: 0 <= k < |token| ==> IsHexDigit(token[k])
  {
    Hex(random)
  }

  /** The default token is 48 characters long. */
  lemma DefaultLength(random: seq<byte>)
    requires |random| == DefaultBytes
    ensures |MakeToken(DefaultBytes, random)| == 48
  {
  }

  /** Byte `i` is spelt by characters `2i` (its high nibble) and `2i + 1` (its low nibble). */
  lemma {:induction false} HexAt(bytes: seq<byte>, i: nat)
    requires i < |bytes|
    ensures Hex(bytes)[2 * i] == HexDigit(bytes[i] / 16)
    ensures Hex(bytes)[2 * i + 1] == HexDigit(bytes[i] % 16)
  {
    if i > 0 {
      HexAt(bytes[1..], i - 1);
    }
  }

  /** The value of one hexadecimal digit. */
  function DigitValue(c: char): (n: int)
    requires IsHexDigit(c)
    ensures 0 <= n < 16 && HexDigit(n) == c
  {
    if '0' <= c <= '9' then c as int - '0' as int else c as int - 'a' as int + 10
  }

  /** The inverse of `Hex`. */
  function Unhex(s: string): (bytes: seq<byte>)
    requires IsHexPairs(s)
    ensures 2 * |bytes| == |s|
  {
    if s == [] then []
    else [DigitValue(s[0]) * 16 + DigitValue(s[1])] + Unhex(s[2..])
  }

  lemma DigitRoundTrip(n: int)
    requires 0 <= n < 16
    ensures DigitValue(HexDigit(n)) == n
  {
  }

  /** A byte is its high nibble times sixteen plus its low nibble. */
  lemma Nibbles(b: byte)
    ensures DigitValue(HexDigit(b / 16)) * 16 + DigitValue(HexDigit(b % 16)) == b
  {
    DigitRoundTrip(b / 16);
    DigitRoundTrip(b % 16);
  }

  lemma UnhexCons(hi: char, lo: char, t: string)
    requires IsHexDigit(hi) && IsHexDigit(lo) && IsHexPairs(t)
    ensures IsHexPairs([hi, lo] + t)
    ensures Unhex([hi, lo] + t) == [DigitValue(hi) * 16 + DigitValue(lo)] + Unhex(t)
  {
    assert ([hi, lo] + t)[2..] == t;
  }

  lemma {:induction false} UnhexHex(bytes: seq<byte>)
    ensures Unhex(Hex(bytes)) == bytes
  {
    if bytes != [] {
      var b := bytes[0];
      var hi, lo := HexDigit(b / 16), HexDigit(b % 16);
      assert Hex(bytes) == [hi, lo] + Hex(bytes[1..]);
      UnhexCons(hi, lo, Hex(bytes[1..]));
      Nibbles(b);
      UnhexHex(bytes[1..]);
      assert bytes == [b] + bytes[1..];
    }
  }

  /** Different bytes give different tokens: only the random source makes tokens vary. */
  lemma HexInjective(a: seq<byte>, b: seq<byte>)
    requires Hex(a) == Hex(b)
    ensures a == b
  {
    UnhexHex(a);
    UnhexHex(b);
  }
}
