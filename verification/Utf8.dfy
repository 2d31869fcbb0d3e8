/** The size of a message is that of its UTF-8 encoding (RFC 3629, section 3). */
module Utf8 {
  import opened WorldRules

  type Byte = b: int | 0 <= b < 256

  /** The shortest form of one character. */
  function EncodeChar(c: char): (r: seq<Byte>)
    ensures 1 <= |r| <= 4
  {
    var n := c as int;
    if n < 0x80 then [n]
    else if n < 0x800 then [0xC0 + n / 64, 0x80 + n % 64]
    else if n < 0x1_0000 then [0xE0 + n / 4096, 0x80 + n / 64 % 64, 0x80 + n % 64]
    else CodePoint(n)
  }

  function CodePoint(n: int): (r: seq<Byte>)
    requires 0x1_0000 <= n < 0x11_0000
    ensures |r| == 4
  {
    [0xF0 + n / 262144, 0x80 + n / 4096 % 64, 0x80 + n / 64 % 64, 0x80 + n % 64]
  }

  function Encode(text: string): seq<Byte> {
    if |text| == 0 then [] else Encode(text[..|text| - 1]) + EncodeChar(text[|text| - 1])
  }

  /** The six bits a byte that follows contributes. */
  function Bits(b: Byte): int {
    var n: int := b;
    n - 0x80
  }

  /** What a decoder makes of the first character: the lead byte says how many bytes follow. */
  function DecodeFirst(bytes: seq<Byte>): (r: (int, nat))
    requires |bytes| > 0
  {
    var b: int := bytes[0];
    if b < 0x80 then (b, 1)
    else if 0xC2 <= b < 0xE0 && |bytes| >= 2 then ((b - 0xC0) * 64 + Bits(bytes[1]), 2)
    else if 0xE0 <= b < 0xF0 && |bytes| >= 3 then ((b - 0xE0) * 4096 + Bits(bytes[1]) * 64 + Bits(bytes[2]), 3)
    else if 0xF0 <= b < 0xF5 && |bytes| >= 4 then
      ((b - 0xF0) * 262144 + Bits(bytes[1]) * 4096 + Bits(bytes[2]) * 64 + Bits(bytes[3]), 4)
    else (0, 0)
  }

  /** Decoding gives the character back and takes its bytes and no more. */
  lemma RoundTrip(c: char, rest: seq<Byte>)
    ensures DecodeFirst(EncodeChar(c) + rest) == (c as int, |EncodeChar(c)|)
    ensures forall i :: 1 <= i < |EncodeChar(c)| ==> 0x80 <= EncodeChar(c)[i] < 0xC0
  {
    var n, bytes := c as int, EncodeChar(c);
    assert forall i :: 0 <= i < |bytes| ==> (bytes + rest)[i] == bytes[i];
    Digits(n);
  }

  lemma Digits(n: nat)
    ensures n == n / 64 * 64 + n % 64
    ensures n == n / 4096 * 4096 + n / 64 % 64 * 64 + n % 64
    ensures n == n / 262144 * 262144 + n / 4096 % 64 * 4096 + n / 64 % 64 * 64 + n % 64
  {
    assert n / 64 / 64 == n / 4096;
    assert n / 4096 / 64 == n / 262144;
  }

  /** What is counted is what is encoded. */
  lemma {:induction false} SizeIsEncoded(text: string)
    ensures Utf8Size(text) == |Encode(text)|
  {
    if |text| > 0 {
      SizeIsEncoded(text[..|text| - 1]);
    }
  }
}
