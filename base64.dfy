/** The base64 encoding of section 4 of RFC 4648 (standard alphabet, `=`
    padding), which the v2 real-time session applies to every audio chunk before
    wrapping it in JSON. The decoder is the encoder's partner: it is what the
    service applies on the other end, and the round trip below is proved for
    every byte string. */
module Base64 {
  import opened Wrappers

  /** The padding character. */
  const Pad: char := '='

  /** The character that encodes the 6-bit value `v`: Table 1 of section 4 of
      RFC 4648, i.e. `A`-`Z` for 0-25, `a`-`z` for 26-51, `0`-`9` for 52-61,
      then `+` and `/`. */
  function Sextet(v: int): (c: char)
    requires 0 <= v < 64
    ensures c != Pad
  {
    if v < 26 then ('A' as int + v) as char
    else if v < 52 then ('a' as int + (v - 26)) as char
    else if v < 62 then ('0' as int + (v - 52)) as char
    else if v == 62 then '+'
    else '/'
  }

  /** The 6-bit value a character encodes, or None for a character outside the alphabet. */
  function SextetValue(c: char): (r: Option<int>)
    ensures r.Some? ==> 0 <= r.value < 64 && Sextet(r.value) == c
    ensures c == Pad ==> r == None
  {
    if 'A' <= c <= 'Z' then Some(c as int - 'A' as int)
    else if 'a' <= c <= 'z' then Some(c as int - 'a' as int + 26)
    else if '0' <= c <= '9' then Some(c as int - '0' as int + 52)
    else if c == '+' then Some(62)
    else if c == '/' then Some(63)
    else None
  }

  predicate InAlphabet(c: char) {
    SextetValue(c).Some?
  }

  lemma SextetInverse(v: int)
    requires 0 <= v < 64
    ensures SextetValue(Sextet(v)) == Some(v)
  {
  }

  /** Three bytes as four characters: each character carries six of the 24 bits, most significant first. */
  function Quartet(b0: byte, b1: byte, b2: byte): string {
    [Sextet(b0 as int / 4), Sextet(b0 as int % 4 * 16 + b1 as int / 16),
     Sextet(b1 as int % 16 * 4 + b2 as int / 64), Sextet(b2 as int % 64)]
  }

  /** `base64.b64encode`: every complete group of three bytes becomes four
      characters; a final group of one or two bytes is zero-filled to a whole
      number of characters and padded with `=` to four. */
  function Encode(data: seq<byte>): string
    decreases |data|
  {
    if |data| == 0 then ""
    else if |data| == 1 then
      [Sextet(data[0] as int / 4), Sextet(data[0] as int % 4 * 16), Pad, Pad]
    else if |data| == 2 then
      [Sextet(data[0] as int / 4), Sextet(data[0] as int % 4 * 16 + data[1] as int / 16),
       Sextet(data[1] as int % 16 * 4), Pad]
    else
      Quartet(data[0], data[1], data[2]) + Encode(data[3..])
  }

  /** The encoding uses only the alphabet and `=`, and `=` only in the last two places. */
  lemma {:induction false} EncodeAlphabet(data: seq<byte>)
    ensures var r := Encode(data);
      && (forall i :: 0 <= i < |r| ==> InAlphabet(r[i]) || r[i] == Pad)
      && (forall i :: 0 <= i < |r| - 2 ==> r[i] != Pad)
    decreases |data|
  {
    if |data| > 2 {
      EncodeAlphabet(data[3..]);
      EncodeGroup(data);
      var q := Quartet(data[0], data[1], data[2]);
      SextetInverse(data[0] as int / 4);
      SextetInverse(data[0] as int % 4 * 16 + data[1] as int / 16);
      SextetInverse(data[1] as int % 16 * 4 + data[2] as int / 64);
      SextetInverse(data[2] as int % 64);
      assert forall i :: 0 <= i < 4 ==> InAlphabet(q[i]);
    } else if |data| == 2 {
      SextetInverse(data[0] as int / 4);
      SextetInverse(data[0] as int % 4 * 16 + data[1] as int / 16);
      SextetInverse(data[1] as int % 16 * 4);
    } else if |data| == 1 {
      SextetInverse(data[0] as int / 4);
      SextetInverse(data[0] as int % 4 * 16);
    }
  }

  /** Four characters for every started group of three bytes. */
  lemma {:induction false} EncodeLength(data: seq<byte>)
    ensures |Encode(data)| == 4 * ((|data| + 2) / 3)
    decreases |data|
  {
    if |data| > 2 {
      EncodeLength(data[3..]);
      EncodeGroup(data);
      assert (|data| + 2) / 3 == (|data[3..]| + 2) / 3 + 1;
    }
  }

  /** The decoder: four alphabet characters give three bytes, and a final
      quartet ending in `==` or `=` gives one or two bytes. Anything else
      (a length that is not a multiple of four, a character outside the
      alphabet, padding in the middle) is rejected. */
  function Decode(s: string): (r: Option<seq<byte>>)
    decreases |s|
  {
    if |s| == 0 then Some([])
    else if |s| < 4 then None
    else
      var v0, v1, v2, v3 := SextetValue(s[0]), SextetValue(s[1]), SextetValue(s[2]), SextetValue(s[3]);
      if v0.None? || v1.None? then None
      else
        var b0 := (v0.value * 4 + v1.value / 16) as byte;
        if |s| == 4 && s[2] == Pad && s[3] == Pad then Some([b0])
        else if v2.None? then None
        else
          var b1 := (v1.value % 16 * 16 + v2.value / 4) as byte;
          if |s| == 4 && s[3] == Pad then Some([b0, b1])
          else if v3.None? then None
          else
            var b2 := (v2.value % 4 * 64 + v3.value) as byte;
            match Decode(s[4..])
            case None => None
            case Some(rest) => Some([b0, b1, b2] + rest)
  }

  /** Decoding what was encoded gives back the bytes: nothing is lost or reordered. */
  lemma {:induction false} DecodeEncode(data: seq<byte>)
    ensures Decode(Encode(data)) == Some(data)
    decreases |data|
  {
    if |data| == 0 {
    } else if |data| == 1 {
      DecodeLastOne(data[0]);
      assert data == [data[0]];
    } else if |data| == 2 {
      DecodeLastTwo(data[0], data[1]);
      assert data == [data[0], data[1]];
    } else {
      DecodeEncode(data[3..]);
      DecodeGroup(data);
    }
  }

  /** One group in front of a rest that decodes back to itself. */
  lemma DecodeGroup(data: seq<byte>)
    requires |data| > 2
    requires Decode(Encode(data[3..])) == Some(data[3..])
    ensures Decode(Encode(data)) == Some(data)
  {
    calc {
      Decode(Encode(data));
      { EncodeGroup(data); }
      Decode(Quartet(data[0], data[1], data[2]) + Encode(data[3..]));
      { DecodeQuartet(data[0], data[1], data[2], Encode(data[3..]), data[3..]); }
      Some([data[0], data[1], data[2]] + data[3..]);
      { assert [data[0], data[1], data[2]] + data[3..] == data; }
      Some(data);
    }
  }

  lemma EncodeGroup(data: seq<byte>)
    requires |data| > 2
    ensures Encode(data) == Quartet(data[0], data[1], data[2]) + Encode(data[3..])
  {
  }

  lemma DecodeLastOne(d: byte)
    ensures Decode(Encode([d])) == Some([d])
  {
    SextetInverse(d as int / 4);
    SextetInverse(d as int % 4 * 16);
    GroupBits(d as int, 0, 0);
  }

  lemma DecodeLastTwo(d0: byte, d1: byte)
    ensures Decode(Encode([d0, d1])) == Some([d0, d1])
  {
    SextetInverse(d0 as int / 4);
    SextetInverse(d0 as int % 4 * 16 + d1 as int / 16);
    SextetInverse(d1 as int % 16 * 4);
    GroupBits(d0 as int, d1 as int, 0);
  }

  /** The bit arithmetic of one group: the decoder's formulas undo the encoder's. */
  lemma GroupBits(b0: int, b1: int, b2: int)
    requires 0 <= b0 < 256 && 0 <= b1 < 256 && 0 <= b2 < 256
    ensures (b0 / 4) * 4 + (b0 % 4 * 16 + b1 / 16) / 16 == b0
    ensures (b0 % 4 * 16 + b1 / 16) % 16 * 16 + (b1 % 16 * 4 + b2 / 64) / 4 == b1
    ensures (b1 % 16 * 4 + b2 / 64) % 4 * 64 + b2 % 64 == b2
  {
  }

  /** Decoding the quartet of three bytes in front of a decodable rest gives the three bytes back. */
  lemma DecodeQuartet(x0: byte, x1: byte, x2: byte, t: string, rest: seq<byte>)
    requires Decode(t) == Some(rest)
    ensures Decode(Quartet(x0, x1, x2) + t) == Some([x0, x1, x2] + rest)
  {
    var b0, b1, b2 := x0 as int, x1 as int, x2 as int;
    var v0, v1, v2, v3 := b0 / 4, b0 % 4 * 16 + b1 / 16, b1 % 16 * 4 + b2 / 64, b2 % 64;
    var s := Quartet(x0, x1, x2) + t;
    SextetInverse(v0);
    SextetInverse(v1);
    SextetInverse(v2);
    SextetInverse(v3);
    GroupBits(b0, b1, b2);
    assert s[4..] == t;
  }

  /** The chunks of the v2 unit tests. */
  lemma EncodeExamples()
    ensures Encode([1, 2, 3, 4, 5]) == "AQIDBAU="
    ensures Encode([6, 7, 8, 9, 10]) == "BgcICQo="
  {
    EncodeFive(1, 2, 3, 4, 5);
    assert Quartet(1, 2, 3) == "AQID";
    assert Encode([4, 5]) == "BAU=";
    EncodeFive(6, 7, 8, 9, 10);
    assert Quartet(6, 7, 8) == "BgcI";
    assert Encode([9, 10]) == "CQo=";
  }

  /** Five bytes are one full group and a final group of two. */
  lemma EncodeFive(b0: byte, b1: byte, b2: byte, b3: byte, b4: byte)
    ensures Encode([b0, b1, b2, b3, b4]) == Quartet(b0, b1, b2) + Encode([b3, b4])
  {
    assert [b0, b1, b2, b3, b4][3..] == [b3, b4];
  }
}
