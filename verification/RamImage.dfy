// The layout of guest RAM and of `memory.bin`.
//
// `memory.bin` holds every RAM region back to back, in slot order. A byte of RAM is named by
// its region and the offset inside it; `Base` turns that name into a file offset.
module RamImage {
  import opened Prelude

  // Guest RAM: the bytes of each region, in slot order.
  type Ram = seq<seq<byte>>

  function Lens(ram: Ram): (lens: seq<nat>)
    ensures |lens| == |ram|
    ensures forall r :: 0 <= r < |ram| ==> lens[r] == |ram[r]|
  {
    seq(|ram|, r requires 0 <= r < |ram| => |ram[r]|)
  }

  // All regions concatenated.
  function Flat(ram: Ram): seq<byte>
  {
    if ram == [] then [] else Flat(ram[..|ram| - 1]) + ram[|ram| - 1]
  }

  // Bytes that precede region `r` in the file; `Base(lens, |lens|)` is the file length.
  function Base(lens: seq<nat>, r: nat): nat
    requires r <= |lens|
  {
    if r == 0 then 0 else Base(lens, r - 1) + lens[r - 1]
  }

  lemma {:induction false} BaseMonotone(lens: seq<nat>, r: nat, s: nat)
    requires r < s <= |lens|
    ensures Base(lens, r) + lens[r] <= Base(lens, s)
    decreases s
  {
    if r + 1 < s {
      BaseMonotone(lens, r, s - 1);
    }
  }

  lemma {:induction false} BasePrefix(lens: seq<nat>, n: nat, r: nat)
    requires r <= n <= |lens|
    ensures Base(lens[..n], r) == Base(lens, r)
  {
    if r != 0 {
      BasePrefix(lens, n, r - 1);
    }
  }

  lemma {:induction false} FlatLength(ram: Ram)
    ensures |Flat(ram)| == Base(Lens(ram), |ram|)
  {
    if ram != [] {
      var n := |ram| - 1;
      FlatLength(ram[..n]);
      assert Lens(ram[..n]) == Lens(ram)[..n];
      BasePrefix(Lens(ram), n, n);
    }
  }

  // Byte `off` of region `r` sits at file offset `Base(r) + off`.
  lemma {:induction false} FlatAt(ram: Ram, r: nat, off: nat)
    requires r < |ram| && off < |ram[r]|
    ensures Base(Lens(ram), r) + off < |Flat(ram)|
    ensures Flat(ram)[Base(Lens(ram), r) + off] == ram[r][off]
  {
    var n := |ram| - 1;
    var front := ram[..n];
    assert Lens(front) == Lens(ram)[..n];
    FlatLength(ram);
    FlatLength(front);
    BasePrefix(Lens(ram), n, n);
    if r < n {
      FlatAt(front, r, off);
      BasePrefix(Lens(ram), n, r);
    }
  }

  // Which region and offset file position `k` belongs to.
  function Locate(lens: seq<nat>, k: nat): (at: (nat, nat))
    requires k < Base(lens, |lens|)
    ensures at.0 < |lens| && at.1 < lens[at.0]
    ensures Base(lens, at.0) + at.1 == k
  {
    LocateIn(lens, |lens|, k)
  }

  function LocateIn(lens: seq<nat>, n: nat, k: nat): (at: (nat, nat))
    requires n <= |lens| && k < Base(lens, n)
    ensures at.0 < n && at.1 < lens[at.0]
    ensures Base(lens, at.0) + at.1 == k
  {
    if k < Base(lens, n - 1) then LocateIn(lens, n - 1, k) else (n - 1, k - Base(lens, n - 1))
  }

  // Overwrite part of a buffer or file in place.
  function WriteAt(file: seq<byte>, off: nat, src: seq<byte>): (out: seq<byte>)
    requires off + |src| <= |file|
    ensures |out| == |file|
  {
    file[..off] + src + file[off + |src|..]
  }
}
