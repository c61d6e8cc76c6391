// Fixed-width little-endian integers.
module LittleEndian {
  import opened Prelude

  const W16: nat := 2
  const W32: nat := 4
  const W64: nat := 8

  function Pow256(n: nat): (p: nat)
    ensures p > 0
  {
    if n == 0 then 1 else 0x100 * Pow256(n - 1)
  }

  function ToLe(v: nat, width: nat): (bytes: seq<byte>)
    ensures |bytes| == width
    decreases width
  {
    if width == 0 then [] else [(v % 0x100) as byte] + ToLe(v / 0x100, width - 1)
  }

  function FromLe(bytes: seq<byte>): nat
  {
    if bytes == [] then 0 else bytes[0] as nat + 0x100 * FromLe(bytes[1..])
  }

  lemma {:induction false} FromToLe(v: nat, width: nat)
    requires v < Pow256(width)
    ensures FromLe(ToLe(v, width)) == v
    decreases width
  {
    if width > 0 {
      FromToLe(v / 0x100, width - 1);
      assert ToLe(v, width)[1..] == ToLe(v / 0x100, width - 1);
    }
  }

  lemma LowAndHigh(low: nat, high: nat)
    requires low < 0x100
    ensures (low + 0x100 * high) % 0x100 == low && (low + 0x100 * high) / 0x100 == high
  {
  }

  lemma {:induction false} ToFromLe(bytes: seq<byte>)
    ensures ToLe(FromLe(bytes), |bytes|) == bytes
    ensures FromLe(bytes) < Pow256(|bytes|)
  {
    if bytes != [] {
      ToFromLe(bytes[1..]);
      var low, high := bytes[0] as nat, FromLe(bytes[1..]);
      LowAndHigh(low, high);
      assert bytes == [bytes[0]] + bytes[1..];
    }
  }

  lemma FromLeFirst(low: byte, rest: seq<byte>)
    ensures FromLe([low] + rest) == low as nat + 0x100 * FromLe(rest)
  {
    assert ([low] + rest)[1..] == rest;
  }

  // The lowest byte comes first.
  lemma LowestFirst(a: byte, b: byte, c: byte, d: byte)
    ensures FromLe([a, b, c, d]) == a as nat + 0x100 * b as nat + 0x1_0000 * c as nat + 0x100_0000 * d as nat
  {
    FromLeFirst(d, []);
    FromLeFirst(c, [d]);
    FromLeFirst(b, [c, d]);
    FromLeFirst(a, [b, c, d]);
    assert [d] + [] == [d] && [c] + [d] == [c, d] && [b] + [c, d] == [b, c, d] && [a] + [b, c, d] == [a, b, c, d];
  }

  lemma Widths()
    ensures Pow256(2) == 0x1_0000 && Pow256(4) == TWO32 && Pow256(8) == TWO64
  {
    assert Pow256(2) == 0x100 * Pow256(1);
    assert Pow256(4) == 0x100 * Pow256(3) && Pow256(3) == 0x100 * Pow256(2);
    assert Pow256(8) == 0x100 * Pow256(7) && Pow256(7) == 0x100 * Pow256(6);
    assert Pow256(6) == 0x100 * Pow256(5) && Pow256(5) == 0x100 * Pow256(4);
  }

  // Equal encodings of the same width are of the same number.
  lemma ToLeInjective(v: nat, w: nat, width: nat)
    requires v < Pow256(width) && w < Pow256(width) && ToLe(v, width) == ToLe(w, width)
    ensures v == w
  {
    FromToLe(v, width);
    FromToLe(w, width);
  }
}
