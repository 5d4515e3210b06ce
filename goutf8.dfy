/** Go strings are sequences of bytes holding UTF-8 text. The model keeps
    text as Unicode characters and turns it into bytes where the code works
    on bytes: slicing a string by byte count, `string(rune)`, and writing a
    file. */
module GoUtf8 {

  type byte = b: int | 0 <= b < 0x100

  /** The UTF-8 encoding of one Unicode scalar value (RFC 3629, section 3):
      the length follows from the code point, a multi-byte encoding starts
      with a lead byte of 0xC0 or more and goes on with continuation bytes
      in [0x80, 0xC0). DecodeEncodeChar shows that the payload bits give
      the code point back. */
  function EncodeChar(c: char): (bs: seq<byte>)
    ensures 1 <= |bs| <= 4
    ensures |bs| == 1 <==> c as int < 0x80
    ensures |bs| == 2 <==> 0x80 <= c as int < 0x800
    ensures |bs| == 3 <==> 0x800 <= c as int < 0x1_0000
    ensures |bs| > 1 ==> bs[0] >= 0xC0
    ensures forall i | 1 <= i < |bs| :: 0x80 <= bs[i] < 0xC0
  {
    var n := c as int;
    if n < 0x80 then [n]
    else if n < 0x800 then EncodeTwo(n)
    else if n < 0x1_0000 then EncodeThree(n)
    else EncodeFour(n)
  }

  /** The continuation byte carrying the six low bits of `n`. */
  function Continuation(n: nat): (b: byte)
    ensures 0x80 <= b < 0xC0 && Payload(b) == n % 0x40
  {
    0x80 + n % 0x40
  }

  function EncodeTwo(n: int): (bs: seq<byte>)
    requires 0x80 <= n < 0x800
    ensures |bs| == 2 && 0xC0 <= bs[0] < 0xE0 && 0x80 <= bs[1] < 0xC0
    ensures DecodeChar(bs) == n
  {
    [0xC0 + n / 0x40, Continuation(n)]
  }

  function EncodeThree(n: int): (bs: seq<byte>)
    requires 0x800 <= n < 0x1_0000
    ensures |bs| == 3 && 0xE0 <= bs[0] < 0xF0 && 0x80 <= bs[1] < 0xC0 && 0x80 <= bs[2] < 0xC0
    ensures DecodeChar(bs) == n
  {
    assert n / 0x1000 == (n / 0x40) / 0x40;
    [0xE0 + n / 0x1000, Continuation(n / 0x40), Continuation(n)]
  }

  function EncodeFour(n: int): (bs: seq<byte>)
    requires 0x1_0000 <= n <= 0x10_FFFF
    ensures |bs| == 4 && 0xF0 <= bs[0] < 0xF8 && 0x80 <= bs[1] < 0xC0 && 0x80 <= bs[2] < 0xC0 && 0x80 <= bs[3] < 0xC0
    ensures DecodeChar(bs) == n
  {
    assert n / 0x1000 == (n / 0x40) / 0x40;
    assert n / 0x4_0000 == (n / 0x1000) / 0x40;
    [0xF0 + n / 0x4_0000, Continuation(n / 0x1000), Continuation(n / 0x40), Continuation(n)]
  }

  /** The code point that one to four bytes of a UTF-8 encoding stand
      for: the lead byte's payload bits followed by six bits from each
      continuation byte. */
  function DecodeChar(bs: seq<byte>): int
    requires 1 <= |bs| <= 4
  {
    var b := bs[0] as int;
    if |bs| == 1 then b
    else if |bs| == 2 then (b - 0xC0) * 0x40 + Payload(bs[1])
    else if |bs| == 3 then (b - 0xE0) * 0x1000 + Payload(bs[1]) * 0x40 + Payload(bs[2])
    else (b - 0xF0) * 0x4_0000 + Payload(bs[1]) * 0x1000 + Payload(bs[2]) * 0x40 + Payload(bs[3])
  }

  /** The six payload bits of a continuation byte. */
  function Payload(b: byte): int
  {
    b as int - 0x80
  }

  /** Decoding a character's encoding gives its code point back. */
  lemma DecodeEncodeChar(c: char)
    ensures DecodeChar(EncodeChar(c)) == c as int
  {
  }

  /** The UTF-8 bytes of a text: what Go holds for a string literal, and
      what `[]byte(s)` gives. */
  function Encode(s: string): (bs: seq<byte>)
    ensures |bs| >= |s|
    ensures s == [] <==> bs == []
  {
    if s == [] then [] else Encode(s[..|s| - 1]) + EncodeChar(s[|s| - 1])
  }

  /** The bytes of a text are its characters' encodings one after the
      other, so the encoding of two texts put together is the two
      encodings put together. */
  lemma {:induction false} EncodeConcat(a: string, b: string)
    ensures Encode(a + b) == Encode(a) + Encode(b)
    decreases |b|
  {
    if b == [] {
      assert a + b == a;
    } else {
      var init, last := b[..|b| - 1], b[|b| - 1];
      assert (a + b)[..|a + b| - 1] == a + init;
      assert (a + b)[|a + b| - 1] == last;
      EncodeConcat(a, init);
    }
  }

  /** ASCII text is its own encoding, byte for character. */
  lemma {:induction false} EncodeAscii(s: string)
    requires forall i | 0 <= i < |s| :: s[i] as int < 0x80
    ensures |Encode(s)| == |s|
    ensures forall i | 0 <= i < |s| :: Encode(s)[i] == s[i] as int
  {
    if s != [] {
      EncodeAscii(s[..|s| - 1]);
    }
  }
}
