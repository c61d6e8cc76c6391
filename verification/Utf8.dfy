// UTF-8 as the standard library's strings use it: every string has an encoding, and `from_utf8`
// accepts exactly the shortest-form encodings of Unicode scalar values (Unicode Standard, table 3-7).
module Utf8 {
  import opened Prelude

  function Tail(v: int): byte
    requires 0 <= v
  {
    (0x80 + v % 0x40) as byte
  }

  predicate IsTail(b: byte) { 0x80 <= b < 0xC0 }

  function EncodeChar(c: char): (bytes: seq<byte>)
    ensures 1 <= |bytes| <= 4
  {
    var v0 := c as int;
    var v1 := v0 / 0x40;
    var v2 := v1 / 0x40;
    if v0 < 0x80 then [v0 as byte]
    else if v0 < 0x800 then [(0xC0 + v1) as byte, Tail(v0)]
    else if v0 < 0x1_0000 then [(0xE0 + v2) as byte, Tail(v1), Tail(v0)]
    else [(0xF0 + v2 / 0x40) as byte, Tail(v2), Tail(v1), Tail(v0)]
  }

  // The bit patterns of Unicode Standard, table 3-6: six bits to each byte after the first, highest first.
  lemma Layout(c: char)
    ensures var b, v := EncodeChar(c), c as int;
            if v < 0x80 then |b| == 1 && b[0] as int == v
            else if v < 0x800 then
              |b| == 2 && 0xC0 <= b[0] < 0xE0 && 0x80 <= b[1] < 0xC0 &&
                  v == (b[0] as int - 0xC0) * 64 + (b[1] as int - 0x80)
            else if v < 0x1_0000 then
              && |b| == 3 && 0xE0 <= b[0] < 0xF0 && 0x80 <= b[1] < 0xC0 && 0x80 <= b[2] < 0xC0
              && v == ((b[0] as int - 0xE0) * 64 + (b[1] as int - 0x80)) * 64 + (b[2] as int - 0x80)
            else
              && |b| == 4 && 0xF0 <= b[0] < 0xF8 && 0x80 <= b[1] < 0xC0 && 0x80 <= b[2] < 0xC0 && 0x80 <= b[3] < 0xC0
              && v == (((b[0] as int - 0xF0) * 64 + (b[1] as int - 0x80)) * 64 + (b[2] as int - 0x80)) * 64 +
                      (b[3] as int - 0x80)
  {
  }

  // One more continuation byte.
  function Extend(v: int, b: byte): int
  {
    v * 0x40 + b as int - 0x80
  }

  // The scalar value at the front and how many bytes it takes; None where no valid one starts.
  function DecodeFirst(b: seq<byte>): (r: Option<(char, nat)>)
    requires |b| > 0
    ensures r.Some? ==> 1 <= r.value.1 <= |b|
  {
    var lead := b[0] as int;
    if lead < 0x80 then Some((lead as char, 1))
    else if lead < 0xC2 then None
    else if lead < 0xE0 then
      if |b| < 2 || !IsTail(b[1]) then None
      else Some((Extend(lead - 0xC0, b[1]) as char, 2))
    else if lead < 0xF0 then
      if |b| < 3 || !IsTail(b[1]) || !IsTail(b[2]) then None
      else
        var v := Extend(Extend(lead - 0xE0, b[1]), b[2]);
        if v < 0x800 || 0xD800 <= v < 0xE000 then None else Some((v as char, 3))
    else if lead < 0xF8 then
      if |b| < 4 || !IsTail(b[1]) || !IsTail(b[2]) || !IsTail(b[3]) then None
      else
        var v := Extend(Extend(Extend(lead - 0xF0, b[1]), b[2]), b[3]);
        if v < 0x1_0000 || v >= 0x11_0000 then None else Some((v as char, 4))
    else None
  }

  function Encode(s: string): seq<byte>
  {
    if s == [] then [] else EncodeChar(s[0]) + Encode(s[1..])
  }

  function Decode(b: seq<byte>): Option<string>
  {
    if b == [] then Some([])
    else
      match DecodeFirst(b)
      case None => None
      case Some((c, n)) =>
        match Decode(b[n..])
        case None => None
        case Some(rest) => Some([c] + rest)
  }

  lemma ExtendTail(v: int)
    requires v >= 0
    ensures IsTail(Tail(v)) && Extend(v / 0x40, Tail(v)) == v
  {
  }

  lemma FirstOfEncoded(c: char, rest: seq<byte>)
    ensures DecodeFirst(EncodeChar(c) + rest) == Some((c, |EncodeChar(c)|))
  {
    var v := c as int;
    ExtendTail(v);
    ExtendTail(v / 0x40);
    ExtendTail(v / 0x40 / 0x40);
  }

  lemma {:induction false} DecodeEncode(s: string)
    ensures Decode(Encode(s)) == Some(s)
  {
    if s != [] {
      FirstOfEncoded(s[0], Encode(s[1..]));
      assert Encode(s)[|EncodeChar(s[0])|..] == Encode(s[1..]);
      DecodeEncode(s[1..]);
      assert s == [s[0]] + s[1..];
    }
  }

  lemma {:induction false} EncodeConcat(s: string, t: string)
    ensures Encode(s + t) == Encode(s) + Encode(t)
  {
    if s == [] {
      assert s + t == t;
    } else {
      assert (s + t)[1..] == s[1..] + t;
      EncodeConcat(s[1..], t);
    }
  }

  // Only U+0000 encodes to a zero byte.
  lemma {:induction false} ZeroBytes(s: string)
    ensures 0 in Encode(s) <==> 0 as char in s
  {
    if s != [] {
      ZeroBytes(s[1..]);
      assert 0 in EncodeChar(s[0]) <==> s[0] == 0 as char;
      assert s == [s[0]] + s[1..];
    }
  }

  lemma EncodeEmpty(s: string)
    ensures Encode(s) == [] <==> s == []
  {
  }

  lemma DecodeCons(b: seq<byte>)
    requires b != [] && Decode(b).Some?
    ensures DecodeFirst(b).Some?
    ensures var (c, n) := DecodeFirst(b).value;
            && Decode(b[n..]).Some? && Decode(b).value == [c] + Decode(b[n..]).value && b == b[..n] + b[n..]
  {
  }

  // Decoding is a partial inverse in the other direction too: what decodes was that text's encoding.
  lemma {:induction false} EncodeDecode(b: seq<byte>)
    requires Decode(b).Some?
    ensures Encode(Decode(b).value) == b
  {
    if b != [] {
      DecodeCons(b);
      var first := DecodeFirst(b).value;
      EncodeDecode(b[first.1..]);
      EncodedFirst(b);
      EncodeCons(first.0, Decode(b[first.1..]).value);
    }
  }

  lemma EncodeCons(c: char, rest: string)
    ensures Encode([c] + rest) == EncodeChar(c) + Encode(rest)
  {
    assert ([c] + rest)[1..] == rest;
  }

  lemma TailExtend(v: int, b: byte)
    requires v >= 0 && IsTail(b)
    ensures Extend(v, b) / 0x40 == v && Tail(Extend(v, b)) == b
  {
  }

  lemma EncodedTwo(b: seq<byte>)
    requires |b| > 0 && 0xC2 <= b[0] < 0xE0 && DecodeFirst(b).Some?
    ensures EncodeChar(DecodeFirst(b).value.0) == [b[0], b[1]]
  {
    TailExtend(b[0] as int - 0xC0, b[1]);
  }

  lemma EncodedThree(b: seq<byte>)
    requires |b| > 0 && 0xE0 <= b[0] < 0xF0 && DecodeFirst(b).Some?
    ensures EncodeChar(DecodeFirst(b).value.0) == [b[0], b[1], b[2]]
  {
    var v := Extend(b[0] as int - 0xE0, b[1]);
    TailExtend(b[0] as int - 0xE0, b[1]);
    TailExtend(v, b[2]);
  }

  lemma EncodedFour(b: seq<byte>)
    requires |b| > 0 && 0xF0 <= b[0] && DecodeFirst(b).Some?
    ensures EncodeChar(DecodeFirst(b).value.0) == [b[0], b[1], b[2], b[3]]
  {
    var v := Extend(b[0] as int - 0xF0, b[1]);
    TailExtend(b[0] as int - 0xF0, b[1]);
    TailExtend(v, b[2]);
    TailExtend(Extend(v, b[2]), b[3]);
  }

  lemma EncodedFirst(b: seq<byte>)
    requires |b| > 0 && DecodeFirst(b).Some?
    ensures EncodeChar(DecodeFirst(b).value.0) == b[..DecodeFirst(b).value.1]
  {
    if 0xC2 <= b[0] < 0xE0 {
      EncodedTwo(b);
    } else if 0xE0 <= b[0] < 0xF0 {
      EncodedThree(b);
    } else if 0xF0 <= b[0] {
      EncodedFour(b);
    }
  }
}
