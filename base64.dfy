/** The base64 encoding of section 4 of RFC 4648 (standard alphabet, `=` padding),
    as done by Python's `base64.b64encode`, with the decoder that inverts it. */
module Base64 {
  import opened Wrappers

  type Byte = x: int | 0 <= x < 256
  type Sextet = x: int | 0 <= x < 64

  const Pad: char := '='

  /** The character that stands for a 6-bit value in the base64 alphabet. */
  function Digit(i: Sextet): (c: char)
    ensures IsDigit(c) && c != Pad
  {
    if i < 26 then ('A' as int + i) as char
    else if i < 52 then ('a' as int + (i - 26)) as char
    else if i < 62 then ('0' as int + (i - 52)) as char
    else if i == 62 then '+'
    else '/'
  }

  predicate IsDigit(c: char) {
    ('A' <= c <= 'Z') || ('a' <= c <= 'z') || ('0' <= c <= '9') || c == '+' || c == '/'
  }

  /** The 6-bit value of an alphabet character. */
  function Value(c: char): (i: Sextet)
    requires IsDigit(c)
    ensures Digit(i) == c
  {
    if 'A' <= c <= 'Z' then c as int - 'A' as int
    else if 'a' <= c <= 'z' then c as int - 'a' as int + 26
    else if '0' <= c <= '9' then c as int - '0' as int + 52
    else if c == '+' then 62
    else 63
  }

  lemma ValueOfDigit(i: Sextet)
    ensures Value(Digit(i)) == i
  {
  }

  /** Three bytes, 24 bits, as four alphabet characters. */
  function Block(a: Byte, b: Byte, c: Byte): string {
    [Digit(a / 4), Digit(a % 4 * 16 + b / 16), Digit(b % 16 * 4 + c / 64), Digit(c % 64)]
  }

  predicate IsEncoded(s: string) {
    forall i :: 0 <= i < |s| ==> IsDigit(s[i]) || s[i] == Pad
  }

  function Encode(bs: seq<Byte>): string
    decreases |bs|
  {
    if |bs| == 0 then ""
    else if |bs| == 1 then [Digit(bs[0] / 4), Digit(bs[0] % 4 * 16), Pad, Pad]
    else if |bs| == 2 then [Digit(bs[0] / 4), Digit(bs[0] % 4 * 16 + bs[1] / 16), Digit(bs[1] % 16 * 4), Pad]
    else Block(bs[0], bs[1], bs[2]) + Encode(bs[3..])
  }

  lemma EncodeGroup(bs: seq<Byte>)
    requires |bs| > 2
    ensures Encode(bs) == Block(bs[0], bs[1], bs[2]) + Encode(bs[3..])
  {
  }

  lemma SplitGroup<A>(s: seq<A>)
    requires |s| > 2
    ensures [s[0], s[1], s[2]] + s[3..] == s
  {
  }

  /** Four characters per started group of three bytes, each an alphabet
      character or the pad. */
  lemma {:induction false} EncodeShape(bs: seq<Byte>)
    ensures |Encode(bs)| == 4 * ((|bs| + 2) / 3)
    ensures IsEncoded(Encode(bs))
    decreases |bs|
  {
    if |bs| > 2 {
      EncodeShape(bs[3..]);
      var q, e := Block(bs[0], bs[1], bs[2]), Encode(bs[3..]);
      EncodeGroup(bs);
      assert |q + e| == 4 + |e|;
      assert (|bs[3..]| + 2) / 3 + 1 == (|bs| + 2) / 3;
      forall i | 0 <= i < |q + e| ensures IsDigit((q + e)[i]) || (q + e)[i] == Pad {
        if i >= 4 {
          assert (q + e)[i] == e[i - 4];
        }
      }
    }
  }

  /** Decodes padded base64; None for text that is not made of whole quartets
      of alphabet characters with padding only at the very end. */
  function Decode(s: string): (r: Option<seq<Byte>>)
    decreases |s|
  {
    if |s| == 0 then Some([])
    else if |s| < 4 || !IsDigit(s[0]) || !IsDigit(s[1]) then None
    else if |s| == 4 && s[2] == Pad && s[3] == Pad then
      Some([Value(s[0]) * 4 + Value(s[1]) / 16])
    else if !IsDigit(s[2]) then None
    else if |s| == 4 && s[3] == Pad then
      Some([Value(s[0]) * 4 + Value(s[1]) / 16, Value(s[1]) % 16 * 16 + Value(s[2]) / 4])
    else if !IsDigit(s[3]) then None
    else
      match Decode(s[4..])
      case None => None
      case Some(rest) =>
        Some([Value(s[0]) * 4 + Value(s[1]) / 16,
              Value(s[1]) % 16 * 16 + Value(s[2]) / 4,
              Value(s[2]) % 4 * 64 + Value(s[3])] + rest)
  }

  lemma SplitFirst(a: Byte)
    ensures a / 4 * 4 + a % 4 == a
  {
  }

  lemma Split16(hi: int, lo: int)
    requires 0 <= lo < 16
    ensures (hi * 16 + lo) / 16 == hi && (hi * 16 + lo) % 16 == lo
  {
  }

  lemma Split4(hi: int, lo: int)
    requires 0 <= lo < 4
    ensures (hi * 4 + lo) / 4 == hi && (hi * 4 + lo) % 4 == lo
  {
  }

  lemma BlockRoundTrip(a: Byte, b: Byte, c: Byte)
    ensures var q := Block(a, b, c);
      Value(q[0]) * 4 + Value(q[1]) / 16 == a &&
      Value(q[1]) % 16 * 16 + Value(q[2]) / 4 == b &&
      Value(q[2]) % 4 * 64 + Value(q[3]) == c
  {
    ValueOfDigit(a / 4);
    ValueOfDigit(a % 4 * 16 + b / 16);
    ValueOfDigit(b % 16 * 4 + c / 64);
    ValueOfDigit(c % 64);
    Split16(a % 4, b / 16);
    Split4(b % 16, c / 64);
  }

  lemma DecodeOne(a: Byte)
    ensures Decode(Encode([a])) == Some([a])
  {
    var v0, v1 := a / 4, a % 4 * 16;
    var s := [Digit(v0), Digit(v1), Pad, Pad];
    assert Encode([a]) == s;
    ValueOfDigit(v0);
    ValueOfDigit(v1);
    Split16(a % 4, 0);
    SplitFirst(a);
    assert v0 * 4 + v1 / 16 == a;
    DecodeQuartetOne(s[0], s[1]);
  }

  lemma DecodeTwo(a: Byte, b: Byte)
    ensures Decode(Encode([a, b])) == Some([a, b])
  {
    var v0, v1, v2 := a / 4, a % 4 * 16 + b / 16, b % 16 * 4;
    var s := [Digit(v0), Digit(v1), Digit(v2), Pad];
    assert Encode([a, b]) == s;
    ValueOfDigit(v0);
    ValueOfDigit(v1);
    ValueOfDigit(v2);
    PairSplits(a, b);
    assert v0 * 4 + v1 / 16 == a && v1 % 16 * 16 + v2 / 4 == b;
    DecodeQuartetTwo(s[0], s[1], s[2]);
  }

  lemma DecodeQuartetOne(c0: char, c1: char)
    requires IsDigit(c0) && IsDigit(c1)
    ensures Decode([c0, c1, Pad, Pad]) == Some([Value(c0) * 4 + Value(c1) / 16])
  {
  }

  lemma DecodeQuartetTwo(c0: char, c1: char, c2: char)
    requires IsDigit(c0) && IsDigit(c1) && IsDigit(c2) && c2 != Pad
    ensures Decode([c0, c1, c2, Pad]) == Some([Value(c0) * 4 + Value(c1) / 16, Value(c1) % 16 * 16 + Value(c2) / 4])
  {
  }

  lemma PairSplits(a: Byte, b: Byte)
    ensures a / 4 * 4 + (a % 4 * 16 + b / 16) / 16 == a
    ensures (a % 4 * 16 + b / 16) % 16 * 16 + b % 16 * 4 / 4 == b
  {
    Split16(a % 4, b / 16);
    Split4(b % 16, 0);
    SplitFirst(a);
  }

  lemma DecodeBlock(a: Byte, b: Byte, c: Byte, rest: string)
    ensures Decode(Block(a, b, c) + rest) ==
      match Decode(rest)
      case None => None
      case Some(tail) => Some([a, b, c] + tail)
  {
    var s := Block(a, b, c) + rest;
    assert s[0] == Digit(a / 4) && s[1] == Digit(a % 4 * 16 + b / 16);
    assert s[2] == Digit(b % 16 * 4 + c / 64) && s[3] == Digit(c % 64);
    assert s[4..] == rest;
    BlockRoundTrip(a, b, c);
  }

  /** Decoding undoes encoding, for every byte string. */
  lemma {:induction false} DecodeEncode(bs: seq<Byte>)
    ensures Decode(Encode(bs)) == Some(bs)
    decreases |bs|
  {
    if |bs| == 1 {
      assert bs == [bs[0]];
      DecodeOne(bs[0]);
    } else if |bs| == 2 {
      assert bs == [bs[0], bs[1]];
      DecodeTwo(bs[0], bs[1]);
    } else if |bs| > 2 {
      var tail := bs[3..];
      SplitGroup(bs);
      DecodeEncode(tail);
      var e := Encode(tail);
      EncodeGroup(bs);
      DecodeBlock(bs[0], bs[1], bs[2], e);
      assert Decode(e) == Some(tail);
    }
  }
}
