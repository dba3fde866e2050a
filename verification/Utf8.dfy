/** UTF-8 as Python encodes and decodes it; a string is a sequence of Unicode scalar values. */
module Utf8 {

  type Byte = n: int | 0 <= n < 256

  const REPLACEMENT: char := 0xFFFD as char

  function EncodeChar(c: char): seq<Byte> {
    var n := c as int;
    var q := n / 64;
    var r := q / 64;
    if n < 0x80 then [n]
    else if n < 0x800 then [0xC0 + q, 0x80 + n % 64]
    else if n < 0x10000 then [0xE0 + r, 0x80 + q % 64, 0x80 + n % 64]
    else [0xF0 + r / 64, 0x80 + r % 64, 0x80 + q % 64, 0x80 + n % 64]
  }

  function Encode(s: string): seq<Byte> {
    if s == "" then [] else EncodeChar(s[0]) + Encode(s[1..])
  }

  /** One decoded character and the number of bytes it took. */
  datatype Head = Head(c: char, used: nat)

  /** The six bits a continuation byte carries. */
  function Low(x: Byte): int { x as int - 0x80 }

  predicate In(b: seq<Byte>, i: nat, lo: int, hi: int) { i < |b| && lo <= b[i] <= hi }

  /** The lenient decoder: a maximal prefix of a broken sequence becomes one replacement character. */
  function DecodeHead(b: seq<Byte>): (h: Head)
    requires b != []
    ensures 1 <= h.used <= |b|
  {
    var x: int := b[0];
    if x < 0x80 then Head(x as char, 1)
    else if 0xC2 <= x < 0xE0 then
      if !In(b, 1, 0x80, 0xBF) then Head(REPLACEMENT, 1)
      else Head(((x - 0xC0) * 64 + Low(b[1])) as char, 2)
    else if 0xE0 <= x < 0xF0 then
      // no overlong forms after E0, no surrogates after ED
      if !In(b, 1, if x == 0xE0 then 0xA0 else 0x80, if x == 0xED then 0x9F else 0xBF) then Head(REPLACEMENT, 1)
      else if !In(b, 2, 0x80, 0xBF) then Head(REPLACEMENT, 2)
      else Head(((x - 0xE0) * 4096 + Low(b[1]) * 64 + Low(b[2])) as char, 3)
    else if 0xF0 <= x < 0xF5 then
      // no overlong forms after F0, nothing above U+10FFFF after F4
      if !In(b, 1, if x == 0xF0 then 0x90 else 0x80, if x == 0xF4 then 0x8F else 0xBF) then Head(REPLACEMENT, 1)
      else if !In(b, 2, 0x80, 0xBF) then Head(REPLACEMENT, 2)
      else if !In(b, 3, 0x80, 0xBF) then Head(REPLACEMENT, 3)
      else Head(((x - 0xF0) * 262144 + Low(b[1]) * 4096 + Low(b[2]) * 64 + Low(b[3])) as char, 4)
    else Head(REPLACEMENT, 1)
  }

  function Decode(b: seq<Byte>): string {
    if b == [] then "" else
      var h := DecodeHead(b);
      [h.c] + Decode(b[h.used..])
  }

  lemma DecodeHeadOfEncoded(c: char, rest: seq<Byte>)
    ensures DecodeHead(EncodeChar(c) + rest) == Head(c, |EncodeChar(c)|)
  {
    var e, b := EncodeChar(c), EncodeChar(c) + rest;
    assert forall i :: 0 <= i < |e| ==> b[i] == e[i];
  }

  /** Decoding undoes encoding, for every string. */
  lemma {:induction false} DecodeOfEncoded(s: string)
    ensures Decode(Encode(s)) == s
  {
    if s != "" {
      var first, rest := EncodeChar(s[0]), Encode(s[1..]);
      DecodeHeadOfEncoded(s[0], rest);
      assert (first + rest)[|first|..] == rest;
      DecodeOfEncoded(s[1..]);
    }
  }

  lemma EncodeInjective(s: string, t: string)
    ensures Encode(s) == Encode(t) <==> s == t
  {
    DecodeOfEncoded(s);
    DecodeOfEncoded(t);
  }

  lemma SixBits(high: nat, low: nat)
    requires low < 64
    ensures (high * 64 + low) / 64 == high && (high * 64 + low) % 64 == low
  {
  }

  ghost predicate IsEncoded(b: seq<Byte>, h: Head) { h.used <= |b| && EncodeChar(h.c) == b[..h.used] }

  lemma DecodeTwo(b: seq<Byte>)
    requires b != [] && DecodeHead(b).c != REPLACEMENT && DecodeHead(b).used <= 2
    ensures IsEncoded(b, DecodeHead(b))
  {
    if DecodeHead(b).used == 2 { SixBits(b[0] - 0xC0, Low(b[1])); }
  }

  lemma DecodeThree(b: seq<Byte>)
    requires b != [] && DecodeHead(b).c != REPLACEMENT && DecodeHead(b).used == 3
    ensures IsEncoded(b, DecodeHead(b))
  {
    SixBits(b[0] - 0xE0, Low(b[1]));
    SixBits((b[0] - 0xE0) * 64 + Low(b[1]), Low(b[2]));
  }

  lemma DecodeFour(b: seq<Byte>)
    requires b != [] && DecodeHead(b).c != REPLACEMENT && DecodeHead(b).used == 4
    ensures IsEncoded(b, DecodeHead(b))
  {
    var high := (b[0] - 0xF0) * 64 + Low(b[1]);
    SixBits(b[0] - 0xF0, Low(b[1]));
    SixBits(high, Low(b[2]));
    SixBits(high * 64 + Low(b[2]), Low(b[3]));
  }

  /** Nothing but the encoding of a character decodes to it: overlong forms and surrogates are replaced. */
  lemma DecodeHeadIs(b: seq<Byte>)
    requires b != [] && DecodeHead(b).c != REPLACEMENT
    ensures IsEncoded(b, DecodeHead(b))
  {
    if DecodeHead(b).used <= 2 { DecodeTwo(b); } else if DecodeHead(b).used == 3 { DecodeThree(b); } else { DecodeFour(b); }
  }
}
