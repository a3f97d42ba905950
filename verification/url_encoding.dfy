/**
 * PHP's `urlencode`: ASCII letters, digits and `-`, `_`, `.` stay as they are, a
 * space becomes `+`, and every other byte becomes `%` and two upper-case
 * hexadecimal digits. `Decode` is its partner and accepts exactly its outputs.
 */
module UrlEncoding {
  import opened Wrappers
  import opened PhpValues

  /** The characters `urlencode` leaves untouched. */
  predicate IsUnreserved(c: char) {
    'A' <= c <= 'Z' || 'a' <= c <= 'z' || '0' <= c <= '9' || c == '-' || c == '_' || c == '.'
  }

  /** The characters an encoded string is made of. */
  predicate IsEncodedChar(c: char) {
    IsUnreserved(c) || c == '+' || c == '%'
  }

  /** An upper-case hexadecimal digit. */
  function HexDigit(v: int): (c: char)
    requires 0 <= v < 16
    ensures IsUnreserved(c)
  {
    if v < 10 then ('0' as int + v) as char else ('A' as int + (v - 10)) as char
  }

  /** The value of an upper-case hexadecimal digit. */
  function HexValue(c: char): (r: Option<int>)
    ensures r.Some? ==> 0 <= r.value < 16 && HexDigit(r.value) == c
  {
    if '0' <= c <= '9' then Some(c as int - '0' as int)
    else if 'A' <= c <= 'F' then Some(c as int - 'A' as int + 10)
    else None
  }

  /** The encoding of one byte. */
  function EncodeByte(b: byte): (s: string)
    ensures 1 <= |s| <= 3
  {
    var c := b as int as char;
    if IsUnreserved(c) then [c]
    else if b == 32 then ['+']
    else ['%', HexDigit(b as int / 16), HexDigit(b as int % 16)]
  }

  /** `urlencode(data)`. */
  function Encode(data: Bytes): (s: string)
    ensures |data| <= |s| <= 3 * |data|
    ensures forall i :: 0 <= i < |s| ==> IsEncodedChar(s[i])
  {
    if data == [] then "" else EncodeByte(data[0]) + Encode(data[1..])
  }

  /** The inverse of `Encode`: `None` for anything `Encode` does not produce. */
  function Decode(s: string): Option<Bytes>
    decreases |s|
  {
    if s == [] then Some([])
    else if s[0] == '%' then
      if |s| < 3 then None
      else match (HexValue(s[1]), HexValue(s[2]), Decode(s[3..]))
        case (Some(hi), Some(lo), Some(rest)) =>
          var b := hi * 16 + lo;
          if IsUnreserved(b as char) || b == 32 then None else Some([b as byte] + rest)
        case _ => None
    else if s[0] == '+' then
      match Decode(s[1..])
      case Some(rest) => Some([32 as byte] + rest)
      case None => None
    else if IsUnreserved(s[0]) then
      match Decode(s[1..])
      case Some(rest) => Some([s[0] as int as byte] + rest)
      case None => None
    else None
  }

  lemma DecodeEncodeByte(b: byte, rest: string, tail: Bytes)
    requires Decode(rest) == Some(tail)
    ensures Decode(EncodeByte(b) + rest) == Some([b] + tail)
  {
    var e := EncodeByte(b);
    var s := e + rest;
    assert s[|e|..] == rest;
    if !IsUnreserved(b as int as char) && b != 32 {
      var hi, lo := b as int / 16, b as int % 16;
      assert HexValue(s[1]) == Some(hi) && HexValue(s[2]) == Some(lo);
    }
  }

  /** Decoding an encoding gives back the bytes. */
  lemma {:induction false} DecodeEncode(data: Bytes)
    ensures Decode(Encode(data)) == Some(data)
  {
    if data != [] {
      DecodeEncode(data[1..]);
      DecodeEncodeByte(data[0], Encode(data[1..]), data[1..]);
      assert data == [data[0]] + data[1..];
    }
  }

  /** Distinct byte strings have distinct encodings. */
  lemma EncodeInjective(a: Bytes, b: Bytes)
    requires Encode(a) == Encode(b)
    ensures a == b
  {
    DecodeEncode(a);
    DecodeEncode(b);
  }

  /** A `%XX` escape that `Decode` accepts is what `EncodeByte` writes for its byte. */
  lemma PercentStep(s: string, data: Bytes)
    requires |s| >= 3 && s[0] == '%' && Decode(s) == Some(data)
    ensures |data| >= 1 && EncodeByte(data[0]) == s[..3] && Decode(s[3..]) == Some(data[1..])
  {
    var hi, lo := HexValue(s[1]).value, HexValue(s[2]).value;
    var b := hi * 16 + lo;
    assert b / 16 == hi && b % 16 == lo;
    assert data == [b as byte] + Decode(s[3..]).value;
  }

  /** A single character that `Decode` accepts is what `EncodeByte` writes for its byte. */
  lemma CharStep(s: string, data: Bytes)
    requires s != [] && s[0] != '%' && Decode(s) == Some(data)
    ensures |data| >= 1 && EncodeByte(data[0]) == s[..1] && Decode(s[1..]) == Some(data[1..])
  {
  }

  /** Whatever `Decode` accepts is the encoding of what it returns. */
  lemma {:induction false} EncodeDecode(s: string, data: Bytes)
    requires Decode(s) == Some(data)
    ensures Encode(data) == s
    decreases |s|
  {
    if s != [] {
      var n := if s[0] == '%' then 3 else 1;
      if s[0] == '%' {
        PercentStep(s, data);
      } else {
        CharStep(s, data);
      }
      EncodeDecode(s[n..], data[1..]);
      assert Encode(data) == EncodeByte(data[0]) + Encode(data[1..]);
      assert s == s[..n] + s[n..];
    }
  }

  /** Examples of PHP's `urlencode`: a space becomes `+`, other reserved bytes become upper-case `%XX`. */
  lemma EncodeExamples()
    ensures Encode([97, 32, 98]) == "a+b"
    ensures Encode([47, 63]) == "%2F%3F"
  {
    assert EncodeByte(97) == "a" && EncodeByte(32) == "+" && EncodeByte(98) == "b";
    assert EncodeByte(47) == "%2F" && EncodeByte(63) == "%3F";
  }
}
