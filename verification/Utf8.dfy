/** UTF-8, as `convert_to(text, 'UTF8')` writes it and `str::from_utf8` reads it:
    shortest form only, no surrogates, nothing above U+10FFFF. */
module Utf8 {
  import opened Text

  type byte = x: int | 0 <= x < 256

  function EncodeChar(c: char): (bs: seq<byte>)
    ensures 1 <= |bs| <= 4
    ensures c as int < 0x80 ==> bs == [c as int]
    ensures c as int >= 0x80 ==> forall i :: 0 <= i < |bs| ==> bs[i] >= 0x80
  {
    var n := c as int;
    if n < 0x80 then [n]
    else if n < 0x800 then [0xC0 + n / 0x40, 0x80 + n % 0x40]
    else if n < 0x10000 then [0xE0 + n / 0x1000, 0x80 + n / 0x40 % 0x40, 0x80 + n % 0x40]
    else [0xF0 + n / 0x40000, 0x80 + n / 0x1000 % 0x40, 0x80 + n / 0x40 % 0x40, 0x80 + n % 0x40]
  }

  function Encode(s: string): seq<byte> {
    if s == "" then [] else EncodeChar(s[0]) + Encode(s[1..])
  }

  predicate Continues(b: byte) { 0x80 <= b < 0xC0 }

  predicate IsScalar(n: int) {
    0 <= n < 0xD800 || 0xE000 <= n < 0x110000
  }

  /** The first code point of `bs` and how many bytes it takes. */
  function DecodeChar(bs: seq<byte>): (r: Option<(char, nat)>)
    ensures r.Some? ==> 1 <= r.value.1 <= |bs|
  {
    if bs == [] then None
    else if bs[0] < 0x80 then Some((bs[0] as char, 1))
    else if bs[0] < 0xC0 then None
    else if bs[0] < 0xE0 then
      if |bs| < 2 || !Continues(bs[1]) then None
      else
        var n := (bs[0] as int - 0xC0) * 0x40 + (bs[1] as int - 0x80);
        if n < 0x80 then None else Some((n as char, 2))
    else if bs[0] < 0xF0 then
      if |bs| < 3 || !Continues(bs[1]) || !Continues(bs[2]) then None
      else
        var n := (bs[0] as int - 0xE0) * 0x1000 + (bs[1] as int - 0x80) * 0x40 + (bs[2] as int - 0x80);
        if n < 0x800 || !IsScalar(n) then None else Some((n as char, 3))
    else if bs[0] < 0xF8 then
      if |bs| < 4 || !Continues(bs[1]) || !Continues(bs[2]) || !Continues(bs[3]) then None
      else
        var n := (bs[0] as int - 0xF0) * 0x40000 + (bs[1] as int - 0x80) * 0x1000 + (bs[2] as int - 0x80) * 0x40 + (bs[3] as int - 0x80);
        if n < 0x10000 || !IsScalar(n) then None else Some((n as char, 4))
    else None
  }

  function Decode(bs: seq<byte>): Option<string> {
    if bs == [] then Some("")
    else match DecodeChar(bs)
      case None => None
      case Some((c, k)) =>
        match Decode(bs[k..])
        case None => None
        case Some(s) => Some([c] + s)
  }

  lemma DecodeEncodeChar(c: char, rest: seq<byte>)
    ensures DecodeChar(EncodeChar(c) + rest) == Some((c, |EncodeChar(c)|))
  {
    var n := c as int;
    assert IsScalar(n);
    var bs := EncodeChar(c) + rest;
    if 0x80 <= n < 0x800 {
      assert bs[0] == 0xC0 + n / 0x40 && bs[1] == 0x80 + n % 0x40;
    } else if 0x800 <= n < 0x10000 {
      DecodeThree(c, rest);
    } else if 0x10000 <= n {
      DecodeFour(c, rest);
    }
  }

  lemma DecodeThree(c: char, rest: seq<byte>)
    requires 0x800 <= c as int < 0x10000
    ensures DecodeChar(EncodeChar(c) + rest) == Some((c, 3)) && |EncodeChar(c)| == 3
  {
    var n := c as int;
    assert IsScalar(n);
    var bs := EncodeChar(c) + rest;
    assert bs[0] == 0xE0 + n / 0x1000 && bs[1] == 0x80 + n / 0x40 % 0x40 && bs[2] == 0x80 + n % 0x40;
    assert n / 0x40 / 0x40 == n / 0x1000;
  }

  lemma DecodeFour(c: char, rest: seq<byte>)
    requires 0x10000 <= c as int
    ensures DecodeChar(EncodeChar(c) + rest) == Some((c, 4)) && |EncodeChar(c)| == 4
  {
    var n := c as int;
    assert IsScalar(n);
    var bs := EncodeChar(c) + rest;
    assert bs[0] == 0xF0 + n / 0x40000 && bs[1] == 0x80 + n / 0x1000 % 0x40;
    assert bs[2] == 0x80 + n / 0x40 % 0x40 && bs[3] == 0x80 + n % 0x40;
    assert n / 0x40 / 0x40 == n / 0x1000 && n / 0x1000 / 0x40 == n / 0x40000;
  }

  /** Decoding undoes encoding, for every string. */
  lemma {:induction false} RoundTrip(s: string)
    ensures Decode(Encode(s)) == Some(s)
  {
    if s != "" {
      var head, tail := EncodeChar(s[0]), Encode(s[1..]);
      DecodeEncodeChar(s[0], tail);
      assert (head + tail)[|head|..] == tail;
      RoundTrip(s[1..]);
      assert s == [s[0]] + s[1..];
    }
  }

  lemma {:induction false} EncodeConcat(s: string, t: string)
    ensures Encode(s + t) == Encode(s) + Encode(t)
  {
    if s == "" {
      assert s + t == t;
    } else {
      assert (s + t)[1..] == s[1..] + t;
      EncodeConcat(s[1..], t);
    }
  }

  /** A byte below 0x80 occurs in the encoding only where its character does. */
  lemma {:induction false} AsciiByteIsChar(s: string, b: byte)
    requires b < 0x80 && Free(s, b as char)
    ensures forall i :: 0 <= i < |Encode(s)| ==> Encode(s)[i] != b
  {
    if s != "" {
      assert Free(s[1..], b as char);
      AsciiByteIsChar(s[1..], b);
    }
  }

  // ------------------------------------------------------------ nothing else decodes

  lemma DecodedTwo(bs: seq<byte>)
    requires DecodeChar(bs).Some? && DecodeChar(bs).value.1 == 2
    ensures EncodeChar(DecodeChar(bs).value.0) == bs[..2]
  {
    var a, b := bs[0] as int - 0xC0, bs[1] as int - 0x80;
    var n := a * 0x40 + b;
    assert n / 0x40 == a && n % 0x40 == b;
  }

  lemma DecodedThree(bs: seq<byte>)
    requires DecodeChar(bs).Some? && DecodeChar(bs).value.1 == 3
    ensures EncodeChar(DecodeChar(bs).value.0) == bs[..3]
  {
    var a, b, c := bs[0] as int - 0xE0, bs[1] as int - 0x80, bs[2] as int - 0x80;
    var n := a * 0x1000 + b * 0x40 + c;
    assert n / 0x1000 == a && n / 0x40 == a * 0x40 + b && (a * 0x40 + b) % 0x40 == b && n % 0x40 == c;
  }

  lemma DecodedFour(bs: seq<byte>)
    requires DecodeChar(bs).Some? && DecodeChar(bs).value.1 == 4
    ensures EncodeChar(DecodeChar(bs).value.0) == bs[..4]
  {
    var a, b, c, d := bs[0] as int - 0xF0, bs[1] as int - 0x80, bs[2] as int - 0x80, bs[3] as int - 0x80;
    var n := a * 0x40000 + b * 0x1000 + c * 0x40 + d;
    assert n / 0x40000 == a && n / 0x1000 == a * 0x40 + b && n / 0x40 == a * 0x1000 + b * 0x40 + c && n % 0x40 == d;
    assert (a * 0x40 + b) % 0x40 == b && (a * 0x1000 + b * 0x40 + c) % 0x40 == c;
  }

  lemma DecodedChar(bs: seq<byte>)
    requires DecodeChar(bs).Some?
    ensures EncodeChar(DecodeChar(bs).value.0) == bs[..DecodeChar(bs).value.1]
  {
    var k := DecodeChar(bs).value.1;
    if k == 1 {
      assert bs[..1] == [bs[0]];
    } else if k == 2 {
      DecodedTwo(bs);
    } else if k == 3 {
      DecodedThree(bs);
    } else {
      DecodedFour(bs);
    }
  }

  /** Only encodings decode: no overlong form, no surrogate, no stray byte. */
  lemma {:induction false} DecodeSound(bs: seq<byte>)
    ensures Decode(bs).Some? ==> Encode(Decode(bs).value) == bs
    decreases |bs|
  {
    if bs != [] && DecodeChar(bs).Some? {
      var k := DecodeChar(bs).value.1;
      DecodedChar(bs);
      DecodeSound(bs[k..]);
      assert bs == bs[..k] + bs[k..];
      if Decode(bs[k..]).Some? {
        var s := Decode(bs[k..]).value;
        assert ([DecodeChar(bs).value.0] + s)[1..] == s;
      }
    }
  }
}
