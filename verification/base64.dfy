/**
 * PHP's `base64_encode`: the base 64 encoding of section 4 of RFC 4648, with its
 * alphabet (Table 1) and `=` padding. The decoder is the encoder's partner: it
 * accepts exactly the canonical encodings (section 3.5: pad bits are zero).
 */
module Base64 {
  import opened Wrappers
  import opened PhpValues

  /** A 6-bit group, the value one base 64 character stands for. */
  type Sextet = x: int | 0 <= x < 64

  const Pad: char := '='

  /** The characters of the base 64 alphabet. */
  predicate IsAlphabet(c: char) {
    'A' <= c <= 'Z' || 'a' <= c <= 'z' || '0' <= c <= '9' || c == '+' || c == '/'
  }

  /** The value of an alphabet character, or `None` for any other character. */
  function Value(c: char): (r: Option<Sextet>)
    ensures r.Some? <==> IsAlphabet(c)
  {
    if 'A' <= c <= 'Z' then Some(c as int - 'A' as int)
    else if 'a' <= c <= 'z' then Some(c as int - 'a' as int + 26)
    else if '0' <= c <= '9' then Some(c as int - '0' as int + 52)
    else if c == '+' then Some(62)
    else if c == '/' then Some(63)
    else None
  }

  /** Table 1: the character that encodes a sextet. */
  function Char(v: Sextet): (c: char)
    ensures IsAlphabet(c) && Value(c) == Some(v)
  {
    if v < 26 then ('A' as int + v) as char
    else if v < 52 then ('a' as int + (v - 26)) as char
    else if v < 62 then ('0' as int + (v - 52)) as char
    else if v == 62 then '+'
    else '/'
  }

  lemma CharOfValue(c: char)
    requires IsAlphabet(c)
    ensures Char(Value(c).value) == c
  {
  }

  /** Three bytes, 24 bits, become four characters. */
  function EncodeGroup(a: byte, b: byte, c: byte): string {
    [Char(a as int / 4), Char(a as int % 4 * 16 + b as int / 16),
     Char(b as int % 16 * 4 + c as int / 64), Char(c as int % 64)]
  }

  /** A final group of two bytes: three characters and one pad. */
  function EncodeTwo(a: byte, b: byte): string {
    [Char(a as int / 4), Char(a as int % 4 * 16 + b as int / 16), Char(b as int % 16 * 4), Pad]
  }

  /** A final group of one byte: two characters and two pads. */
  function EncodeOne(a: byte): string {
    [Char(a as int / 4), Char(a as int % 4 * 16), Pad, Pad]
  }

  /** `base64_encode(data)`: four characters for every started group of three bytes. */
  function Encode(data: Bytes): (s: string)
    ensures |s| == 4 * ((|data| + 2) / 3)
    decreases |data|
  {
    if |data| == 0 then ""
    else if |data| == 1 then EncodeOne(data[0])
    else if |data| == 2 then EncodeTwo(data[0], data[1])
    else EncodeGroup(data[0], data[1], data[2]) + Encode(data[3..])
  }

  /** A character the encoder may write: one of the alphabet, or the pad. */
  predicate IsOutputChar(c: char) {
    IsAlphabet(c) || c == Pad
  }

  /** Every character of an encoding is in the alphabet or is the pad. */
  lemma {:induction false} EncodeAlphabet(data: Bytes)
    ensures forall i :: 0 <= i < |Encode(data)| ==> IsOutputChar(Encode(data)[i])
    decreases |data|
  {
    if |data| >= 3 {
      EncodeAlphabet(data[3..]);
      var g, rest := EncodeGroup(data[0], data[1], data[2]), Encode(data[3..]);
      assert Encode(data) == g + rest;
      forall i | 0 <= i < |g + rest|
        ensures IsOutputChar((g + rest)[i])
      {
        if i >= 4 {
          assert (g + rest)[i] == rest[i - 4];
        }
      }
    }
  }

  /** Four sextets back to three bytes. */
  function Join3(s0: Sextet, s1: Sextet, s2: Sextet, s3: Sextet): Bytes {
    var a, b, c := s0 as int, s1 as int, s2 as int;
    [(a * 4 + b / 16) as byte, (b % 16 * 16 + c / 4) as byte, (c % 4 * 64 + s3 as int) as byte]
  }

  /** Three sextets, the last with two zero pad bits, back to two bytes. */
  function Join2(s0: Sextet, s1: Sextet, s2: Sextet): Bytes {
    var a, b, c := s0 as int, s1 as int, s2 as int;
    [(a * 4 + b / 16) as byte, (b % 16 * 16 + c / 4) as byte]
  }

  /** A group of four alphabet characters. */
  function DecodeGroup(q: string): Option<Bytes>
    requires |q| == 4
  {
    match (Value(q[0]), Value(q[1]), Value(q[2]), Value(q[3]))
    case (Some(s0), Some(s1), Some(s2), Some(s3)) => Some(Join3(s0, s1, s2, s3))
    case _ => None
  }

  /** The last group, which may carry one or two pads; the pad bits must be zero. */
  function DecodeFinal(q: string): Option<Bytes>
    requires |q| == 4
  {
    if q[2] == Pad && q[3] == Pad then
      match (Value(q[0]), Value(q[1]))
      case (Some(s0), Some(s1)) =>
        if s1 as int % 16 == 0 then Some([(s0 as int * 4 + s1 as int / 16) as byte]) else None
      case _ => None
    else if q[3] == Pad then
      match (Value(q[0]), Value(q[1]), Value(q[2]))
      case (Some(s0), Some(s1), Some(s2)) =>
        if s2 as int % 4 == 0 then Some(Join2(s0, s1, s2)) else None
      case _ => None
    else
      DecodeGroup(q)
  }

  /** The inverse of `Encode`: `None` for anything that is not a canonical encoding. */
  function Decode(s: string): Option<Bytes>
    decreases |s|
  {
    if |s| == 0 then Some([])
    else if |s| < 4 then None
    else if |s| == 4 then DecodeFinal(s)
    else
      match (DecodeGroup(s[..4]), Decode(s[4..]))
      case (Some(g), Some(rest)) => Some(g + rest)
      case _ => None
  }

  /** The sextets of three bytes join back into those bytes. */
  lemma SplitJoin(a: byte, b: byte, c: byte)
    ensures Join3(a as int / 4, a as int % 4 * 16 + b as int / 16,
                  b as int % 16 * 4 + c as int / 64, c as int % 64) == [a, b, c]
  {
    var x, y, z := a as int, b as int, c as int;
    var s1, s2 := x % 4 * 16 + y / 16, y % 16 * 4 + z / 64;
    assert s1 / 16 == x % 4 && s1 % 16 == y / 16;
    assert s2 / 4 == y % 16 && s2 % 4 == z / 64;
  }

  lemma GroupRoundTrip(a: byte, b: byte, c: byte)
    ensures DecodeGroup(EncodeGroup(a, b, c)) == Some([a, b, c])
    ensures EncodeGroup(a, b, c)[3] != Pad
  {
    var x, y, z := a as int, b as int, c as int;
    var s0: Sextet, s1: Sextet, s2: Sextet, s3: Sextet := x / 4, x % 4 * 16 + y / 16, y % 16 * 4 + z / 64, z % 64;
    var q := EncodeGroup(a, b, c);
    assert q == [Char(s0), Char(s1), Char(s2), Char(s3)];
    assert Value(q[0]) == Some(s0) && Value(q[1]) == Some(s1);
    assert Value(q[2]) == Some(s2) && Value(q[3]) == Some(s3);
    SplitJoin(a, b, c);
    assert DecodeGroup(q) == Some(Join3(s0, s1, s2, s3));
  }

  lemma TwoRoundTrip(a: byte, b: byte)
    ensures DecodeFinal(EncodeTwo(a, b)) == Some([a, b])
  {
    SplitJoin(a, b, 0);
    var q := EncodeTwo(a, b);
    assert q[2] != Pad && q[3] == Pad;
    assert Value(q[2]).value as int % 4 == 0;
    assert Join2(Value(q[0]).value, Value(q[1]).value, Value(q[2]).value) == [a, b];
  }

  lemma OneRoundTrip(a: byte)
    ensures DecodeFinal(EncodeOne(a)) == Some([a])
  {
    SplitJoin(a, 0, 0);
  }

  /** A full group in front of a decodable rest decodes group by group. */
  lemma DecodeGroupThen(g: string, rest: string, front: Bytes, tail: Bytes)
    requires |g| == 4 && g[3] != Pad
    requires DecodeGroup(g) == Some(front) && Decode(rest) == Some(tail)
    ensures Decode(g + rest) == Some(front + tail)
  {
    var s := g + rest;
    assert s[..4] == g && s[4..] == rest;
    if rest == [] {
      assert s == g && front + tail == front;
    }
  }

  lemma OneByteRoundTrip(data: Bytes)
    requires |data| == 1
    ensures Decode(Encode(data)) == Some(data)
  {
    OneRoundTrip(data[0]);
    assert data == [data[0]];
  }

  lemma TwoBytesRoundTrip(data: Bytes)
    requires |data| == 2
    ensures Decode(Encode(data)) == Some(data)
  {
    TwoRoundTrip(data[0], data[1]);
    assert data == [data[0], data[1]];
  }

  /** The encodings of one and two bytes decode back. */
  lemma ShortRoundTrip(data: Bytes)
    requires |data| < 3
    ensures Decode(Encode(data)) == Some(data)
  {
    if |data| == 1 {
      OneByteRoundTrip(data);
    } else if |data| == 2 {
      TwoBytesRoundTrip(data);
    }
  }

  /** One step of `Encode` over a leading group of three bytes. */
  lemma EncodeCons(data: Bytes)
    requires |data| >= 3
    ensures Encode(data) == EncodeGroup(data[0], data[1], data[2]) + Encode(data[3..])
  {
  }

  lemma SplitFirstGroup(data: Bytes)
    requires |data| >= 3
    ensures data == [data[0], data[1], data[2]] + data[3..]
  {
  }

  /** A leading group of three bytes decodes back when the rest does. */
  lemma LongRoundTrip(data: Bytes)
    requires |data| >= 3 && Decode(Encode(data[3..])) == Some(data[3..])
    ensures Decode(Encode(data)) == Some(data)
  {
    EncodeCons(data);
    SplitFirstGroup(data);
    GroupRoundTrip(data[0], data[1], data[2]);
    DecodeGroupThen(EncodeGroup(data[0], data[1], data[2]), Encode(data[3..]), [data[0], data[1], data[2]], data[3..]);
  }

  /** Decoding an encoding gives back the bytes. */
  lemma {:induction false} DecodeEncode(data: Bytes)
    ensures Decode(Encode(data)) == Some(data)
    decreases |data|
  {
    if |data| < 3 {
      ShortRoundTrip(data);
    } else {
      DecodeEncode(data[3..]);
      LongRoundTrip(data);
    }
  }

  /** Bytes joined from four sextets split back into those sextets. */
  lemma JoinSplit(s0: Sextet, s1: Sextet, s2: Sextet, s3: Sextet)
    ensures var j := Join3(s0, s1, s2, s3);
      j[0] as int / 4 == s0 && j[0] as int % 4 * 16 + j[1] as int / 16 == s1 &&
      j[1] as int % 16 * 4 + j[2] as int / 64 == s2 && j[2] as int % 64 == s3
  {
  }

  lemma GroupRoundTripBack(q: string, front: Bytes)
    requires |q| == 4 && DecodeGroup(q) == Some(front)
    ensures |front| == 3 && EncodeGroup(front[0], front[1], front[2]) == q
  {
    var s0, s1, s2, s3 := Value(q[0]).value, Value(q[1]).value, Value(q[2]).value, Value(q[3]).value;
    JoinSplit(s0, s1, s2, s3);
    CharOfValue(q[0]); CharOfValue(q[1]); CharOfValue(q[2]); CharOfValue(q[3]);
  }

  lemma OnePadRoundTripBack(q: string, front: Bytes)
    requires |q| == 4 && q[2] != Pad && q[3] == Pad && DecodeFinal(q) == Some(front)
    ensures |front| == 2 && Encode(front) == q
  {
    var s0, s1, s2 := Value(q[0]).value, Value(q[1]).value, Value(q[2]).value;
    assert front == Join2(s0, s1, s2);
    JoinSplit(s0, s1, s2, 0);
    assert Join2(s0, s1, s2) == Join3(s0, s1, s2, 0)[..2];
    CharOfValue(q[0]); CharOfValue(q[1]); CharOfValue(q[2]);
  }

  lemma TwoPadsRoundTripBack(q: string, front: Bytes)
    requires |q| == 4 && q[2] == Pad && q[3] == Pad && DecodeFinal(q) == Some(front)
    ensures |front| == 1 && Encode(front) == q
  {
    var s0, s1 := Value(q[0]).value, Value(q[1]).value;
    JoinSplit(s0, s1, 0, 0);
    assert front == [Join3(s0, s1, 0, 0)[0]];
    CharOfValue(q[0]); CharOfValue(q[1]);
  }

  lemma FinalRoundTripBack(q: string, front: Bytes)
    requires |q| == 4 && DecodeFinal(q) == Some(front)
    ensures 1 <= |front| <= 3 && Encode(front) == q
  {
    if q[2] == Pad && q[3] == Pad {
      TwoPadsRoundTripBack(q, front);
    } else if q[3] == Pad {
      OnePadRoundTripBack(q, front);
    } else {
      GroupRoundTripBack(q, front);
      assert front == [front[0], front[1], front[2]];
    }
  }

  /** Whatever `Decode` accepts is the encoding of what it returns: the encoding is canonical. */
  lemma {:induction false} EncodeDecode(s: string, data: Bytes)
    requires Decode(s) == Some(data)
    ensures Encode(data) == s
    decreases |s|
  {
    if |s| == 0 {
    } else if |s| == 4 {
      FinalRoundTripBack(s, data);
    } else {
      var front, tail := DecodeGroup(s[..4]).value, Decode(s[4..]).value;
      assert data == front + tail;
      GroupRoundTripBack(s[..4], front);
      EncodeDecode(s[4..], tail);
      assert |tail| > 0;
      assert data[3..] == tail && data[..3] == front;
      assert s == s[..4] + s[4..];
    }
  }

  /** The test vectors of section 10 of RFC 4648 for "" and "f" (ASCII bytes). */
  lemma Rfc4648VectorF()
    ensures Encode([]) == ""
    ensures Encode([102]) == "Zg=="
  {
  }

  /** The test vector of section 10 of RFC 4648 for "fo". */
  lemma Rfc4648VectorFo()
    ensures Encode([102, 111]) == "Zm8="
  {
  }

  /** The group "foo": decoding "Zm9v" gives it, so it encodes to "Zm9v". */
  lemma FooGroup()
    ensures EncodeGroup(102, 111, 111) == "Zm9v"
  {
    var q := "Zm9v";
    assert Value(q[0]) == Some(25) && Value(q[1]) == Some(38);
    assert Value(q[2]) == Some(61) && Value(q[3]) == Some(47);
    assert DecodeGroup(q) == Some([102, 111, 111]);
    GroupRoundTripBack(q, [102, 111, 111]);
  }

  /** The group "bar": decoding "YmFy" gives it, so it encodes to "YmFy". */
  lemma BarGroup()
    ensures EncodeGroup(98, 97, 114) == "YmFy"
  {
    var q := "YmFy";
    assert Value(q[0]) == Some(24) && Value(q[1]) == Some(38);
    assert Value(q[2]) == Some(5) && Value(q[3]) == Some(50);
    assert DecodeGroup(q) == Some([98, 97, 114]);
    GroupRoundTripBack(q, [98, 97, 114]);
  }

  /** The test vector of section 10 of RFC 4648 for "foo". */
  lemma Rfc4648VectorFoo()
    ensures Encode([102, 111, 111]) == "Zm9v"
  {
    var foo: Bytes := [102, 111, 111];
    EncodeCons(foo);
    FooGroup();
    assert foo[3..] == [];
  }

  /** The test vectors of section 10 of RFC 4648 for "foob", "fooba" and "foobar". */
  lemma Rfc4648VectorsFoob()
    ensures Encode([102, 111, 111, 98]) == "Zm9vYg=="
    ensures Encode([102, 111, 111, 98, 97]) == "Zm9vYmE="
    ensures Encode([102, 111, 111, 98, 97, 114]) == "Zm9vYmFy"
  {
    var foob: Bytes, fooba: Bytes, foobar: Bytes := [102, 111, 111, 98], [102, 111, 111, 98, 97], [102, 111, 111, 98, 97, 114];
    FooGroup();
    BarGroup();
    EncodeCons(foob);
    EncodeCons(fooba);
    EncodeCons(foobar);
    var b: Bytes, ba: Bytes, bar: Bytes := [98], [98, 97], [98, 97, 114];
    assert foob[3..] == b && fooba[3..] == ba && foobar[3..] == bar;
    assert Encode(b) == "Yg==";
    assert Encode(ba) == "YmE=";
    EncodeCons(bar);
    assert bar[3..] == [];
  }
}
