// Guest physical memory: the split around the 32-bit MMIO hole, the chunked dump and load of
// `memory.bin`, and the copy-on-write mapping a forked child gets over that file.
module GuestMemory {
  import opened Prelude
  import opened RamImage
  import DirtyPages

  const MIB: nat := 0x10_0000
  const MMIO_GAP_START: nat := 0xc000_0000
  const RAM_64BIT_START: nat := 0x1_0000_0000
  const CHUNK: nat := 0x10_0000

  datatype Range = Range(start: nat, len: nat)

  // The RAM ranges of a guest, or None when the size in bytes does not fit 64 bits.
  function Ranges(memoryMib: u64): Option<seq<Range>>
  {
    var size := memoryMib * MIB;
    if size >= TWO64 then None
    else if size <= MMIO_GAP_START then Some([Range(0, size)])
    else Some([Range(0, MMIO_GAP_START), Range(RAM_64BIT_START, size - MMIO_GAP_START)])
  }

  function RangeLens(ranges: seq<Range>): (lens: seq<nat>)
    ensures |lens| == |ranges|
    ensures forall r :: 0 <= r < |ranges| ==> lens[r] == ranges[r].len
  {
    seq(|ranges|, r requires 0 <= r < |ranges| => ranges[r].len)
  }

  // Ascending, non-overlapping ranges; what every lookup by guest address relies on.
  predicate Ascending(ranges: seq<Range>)
  {
    forall r, s :: 0 <= r < s < |ranges| ==> Before(ranges[r], ranges[s])
  }

  predicate Before(a: Range, b: Range)
  {
    a.start + a.len <= b.start
  }

  // Every memory size gives ascending whole-page regions that add up to it and miss the hole.
  lemma LayoutAvoidsTheHole(memoryMib: u64)
    ensures Ranges(memoryMib).None? <==> memoryMib * MIB >= TWO64
    ensures Ranges(memoryMib).Some? ==>
              var ranges := Ranges(memoryMib).value;
              && Ascending(ranges)
              && DirtyPages.WholePages(RangeLens(ranges))
              && Base(RangeLens(ranges), |ranges|) == memoryMib * MIB
              && (forall r :: 0 <= r < |ranges| ==>
                    ranges[r].start + ranges[r].len <= MMIO_GAP_START || RAM_64BIT_START <= ranges[r].start)
  {
    if Ranges(memoryMib).Some? {
      var ranges := Ranges(memoryMib).value;
      var lens := RangeLens(ranges);
      WholeMibs(memoryMib);
      assert Base(lens, 1) == Base(lens, 0) + lens[0] == lens[0];
      if memoryMib * MIB > MMIO_GAP_START {
        assert Base(lens, 2) == Base(lens, 1) + lens[1];
      }
    }
  }

  lemma WholeMibs(n: nat)
    ensures (n * MIB) % DirtyPages.PAGE == 0
    ensures n * MIB >= MMIO_GAP_START ==> (n * MIB - MMIO_GAP_START) % DirtyPages.PAGE == 0
  {
    assert n * MIB == DirtyPages.PAGE * (256 * n);
    assert n * MIB - MMIO_GAP_START == DirtyPages.PAGE * (256 * n - 0xc_0000);
  }

  // RAM is everything below 3 GiB up to the memory size, and from 4 GiB on what does not fit there.
  predicate IsRam(memoryMib: u64, addr: nat)
  {
    var size := memoryMib * 0x10_0000;
    addr < Min(size, 0xc000_0000) || 0x1_0000_0000 <= addr < 0x4000_0000 + size
  }

  lemma RamIsWhere(memoryMib: u64, addr: nat)
    requires memoryMib * 0x10_0000 < TWO64
    ensures Ranges(memoryMib).Some?
    ensures IsRam(memoryMib, addr) <==> FindRegion(Ranges(memoryMib).value, addr, 1).Some?
  {
    var ranges := Ranges(memoryMib).value;
    assert Holds(ranges[0], addr, 1) <==> addr < Min(memoryMib * MIB, 0xc000_0000);
    if |ranges| == 2 { assert Holds(ranges[1], addr, 1) <==> 0x1_0000_0000 <= addr < 0x4000_0000 + memoryMib * MIB; }
  }

  predicate Holds(range: Range, addr: nat, n: nat)
  {
    range.start <= addr && addr + n <= range.start + range.len
  }

  // The region a guest access falls in.
  function FindRegion(ranges: seq<Range>, addr: nat, n: nat): (at: Option<nat>)
    ensures at.Some? ==> at.value < |ranges| && Holds(ranges[at.value], addr, n)
    ensures at.None? ==> forall r :: 0 <= r < |ranges| ==> !Holds(ranges[r], addr, n)
  {
    if ranges == [] then None
    else if Holds(ranges[|ranges| - 1], addr, n) then Some(|ranges| - 1)
    else FindRegion(ranges[..|ranges| - 1], addr, n)
  }

  lemma RegionIsUnique(ranges: seq<Range>, r: nat, addr: nat, n: nat)
    requires Ascending(ranges) && r < |ranges| && Holds(ranges[r], addr, n) && n > 0
    ensures FindRegion(ranges, addr, n) == Some(r)
  {
  }

  datatype Error = AddressOverflow | BadAddress | ShortFile

  datatype Result<T> = Ok(value: T) | Err(error: Error)

  // Guest RAM addressed by guest physical address.
  class GuestMemoryMmap {
    const ranges: seq<Range>
    var ram: Ram

    ghost predicate Valid()
      reads this
    {
      && Ascending(ranges)
      && |ram| == |ranges|
      && (forall r :: 0 <= r < |ranges| ==> |ram[r]| == ranges[r].len)
      && forall r :: 0 <= r < |ranges| ==> ranges[r].start + ranges[r].len < TWO64
    }

    constructor (ranges: seq<Range>)
      requires Ascending(ranges)
      requires forall r :: 0 <= r < |ranges| ==> ranges[r].start + ranges[r].len < TWO64
      ensures Valid() && this.ranges == ranges
    {
      this.ranges := ranges;
      ram := seq(|ranges|, r requires 0 <= r < |ranges| => seq(ranges[r].len, _ => 0 as byte));
    }

    method ReadSlice(addr: nat, n: nat) returns (data: Result<seq<byte>>)
      requires Valid()
      ensures data == match FindRegion(ranges, addr, n)
                      case None => Err(BadAddress)
                      case Some(r) => Ok(ram[r][addr - ranges[r].start..addr - ranges[r].start + n])
    {
      var at := FindRegion(ranges, addr, n);
      if at.None? { return Err(BadAddress); }
      var off := addr - ranges[at.value].start;
      return Ok(ram[at.value][off..off + n]);
    }

    method WriteSlice(addr: nat, data: seq<byte>) returns (ok: bool)
      requires Valid()
      modifies this`ram
      ensures Valid()
      ensures ok <==> FindRegion(ranges, addr, |data|).Some?
      ensures !ok ==> ram == old(ram)
      ensures ok ==> var r := FindRegion(ranges, addr, |data|).value;
                     && |ram| == |old(ram)|
                     && ram == old(ram)[r := WriteAt(old(ram)[r], addr - ranges[r].start, data)]
    {
      var at := FindRegion(ranges, addr, |data|);
      if at.None? { return false; }
      var off := addr - ranges[at.value].start;
      ram := ram[at.value := WriteAt(ram[at.value], off, data)];
      return true;
    }

    // Stream every region, in order, to a fresh file in 1 MiB chunks.
    method DumpGuestMemory() returns (file: Result<seq<byte>>)
      requires Valid()
      ensures file == Ok(Flat(ram))
    {
      var out: seq<byte> := [];
      for r := 0 to |ranges|
        invariant out == Flat(ram[..r])
      {
        var part := DumpRegion(r);
        if part.Err? { return part; }
        out := out + part.value;
        assert ram[..r + 1][..r] == ram[..r];
      }
      assert ram[..|ranges|] == ram;
      return Ok(out);
    }

    method DumpRegion(r: nat) returns (part: Result<seq<byte>>)
      requires Valid() && r < |ranges|
      ensures part == Ok(ram[r])
    {
      var len := ranges[r].len;
      var out: seq<byte> := [];
      var offset := 0;
      while offset < len
        invariant 0 <= offset <= len && out == ram[r][..offset]
      {
        var n := if len - offset < CHUNK then len - offset else CHUNK;
        var addr := ranges[r].start + offset;
        if addr >= TWO64 { return Err(AddressOverflow); }
        RegionIsUnique(ranges, r, addr, n);
        var buf := ReadSlice(addr, n);
        if buf.Err? { return Err(BadAddress); }
        out := out + buf.value;
        TakeMore(ram[r], offset, n);
        offset := offset + n;
      }
      assert ram[r][..len] == ram[r];
      return Ok(out);
    }

    // Fill every region, in order, from the file in 1 MiB chunks. A file that is too short is an
    // error that leaves a loaded prefix behind; bytes past the last region are ignored.
    method LoadGuestMemory(file: seq<byte>) returns (result: Result<()>, ghost stopped: nat)
      requires Valid()
      modifies this`ram
      ensures Valid()
      ensures result.Ok? <==> Base(RangeLens(ranges), |ranges|) <= |file|
      ensures result.Ok? ==> Flat(ram) == file[..Base(RangeLens(ranges), |ranges|)]
      ensures result.Err? ==>
                && result.error == ShortFile && stopped < |ranges|
                && Base(RangeLens(ranges), stopped) <= |file| < Base(RangeLens(ranges), stopped + 1)
                && Prefix(ram, stopped) == file[..Base(RangeLens(ranges), stopped)]
                && forall q :: stopped < q < |ranges| ==> ram[q] == old(ram)[q]
    {
      ghost var lens := RangeLens(ranges);
      var at := 0; // the file cursor
      stopped := 0;
      for r := 0 to |ranges|
        invariant Valid()
        invariant at == Base(lens, r) <= |file|
        invariant Prefix(ram, r) == file[..at]
        invariant forall q :: r <= q < |ranges| ==> ram[q] == old(ram)[q]
      {
        stopped := r;
        result := LoadNext(file, at, r);
        BaseStep(lens, r);
        if result.Err? { return; }
        at := at + ranges[r].len;
      }
      PrefixIsFlat(ram, |ram|);
      assert ram[..|ram|] == ram;
      return Ok(()), stopped;
    }

    // One chunk of the load: the next `n` file bytes, or an error when the file ends before them.
    method LoadChunk(file: seq<byte>, at: nat, r: nat, offset: nat, n: nat, ghost region: seq<byte>)
      returns (result: Result<()>)
      requires Valid() && r < |ranges| && offset + n <= ranges[r].len == |region| && n > 0
      requires at + offset <= |file| && ram[r] == file[at..at + offset] + region[offset..]
      modifies this`ram
      ensures Valid()
      ensures result.Ok? <==> at + offset + n <= |file|
      ensures result.Err? ==> result.error == ShortFile
      ensures result.Ok? ==> ram[r] == file[at..at + offset + n] + region[offset + n..]
      ensures forall q :: 0 <= q < |ranges| && q != r ==> ram[q] == old(ram)[q]
    {
      if |file| < at + offset + n { return Err(ShortFile); }
      var addr := ranges[r].start + offset;
      if addr >= TWO64 { return Err(AddressOverflow); }
      RegionIsUnique(ranges, r, addr, n);
      NextChunk(file, at, offset, n, region);
      var ok := WriteSlice(addr, file[at + offset..at + offset + n]);
      if !ok { return Err(BadAddress); }
      return Ok(());
    }

    // The load moves on by one region.
    method LoadNext(file: seq<byte>, at: nat, r: nat) returns (result: Result<()>)
      requires Valid() && r < |ranges| && at <= |file| && Prefix(ram, r) == file[..at]
      modifies this`ram
      ensures Valid()
      ensures result.Ok? <==> at + ranges[r].len <= |file|
      ensures result.Err? ==> result.error == ShortFile && Prefix(ram, r) == file[..at]
      ensures result.Ok? ==> Prefix(ram, r + 1) == file[..at + ranges[r].len]
      ensures forall q :: r < q < |ranges| ==> ram[q] == old(ram)[q]
    {
      result := LoadRegion(file, at, r);
      PrefixFrame(old(ram), ram, r);
      if result.Ok? {
        assert file[..at] + file[at..at + ranges[r].len] == file[..at + ranges[r].len];
      }
    }

    // One region of the load, starting at file offset `at`.
    method LoadRegion(file: seq<byte>, at: nat, r: nat) returns (result: Result<()>)
      requires Valid() && r < |ranges| && at <= |file|
      modifies this`ram
      ensures Valid()
      ensures result.Ok? <==> at + ranges[r].len <= |file|
      ensures result.Err? ==> result.error == ShortFile
      ensures forall q :: 0 <= q < |ranges| && q != r ==> ram[q] == old(ram)[q]
      ensures result.Ok? ==> ram[r] == file[at..at + ranges[r].len]
    {
      var len := ranges[r].len;
      ghost var region := ram[r];
      LoadEnds(file, at, region);
      var offset := 0;
      while offset < len
        invariant Valid() && 0 <= offset <= len && at + offset <= |file|
        invariant forall q :: 0 <= q < |ranges| && q != r ==> ram[q] == old(ram)[q]
        invariant ram[r] == file[at..at + offset] + region[offset..]
      {
        var n := if len - offset < CHUNK then len - offset else CHUNK;
        result := LoadChunk(file, at, r, offset, n, region);
        if result.Err? { return; }
        offset := offset + n;
      }
      return Ok(());
    }
  }

  // Nothing loaded yet, and everything.
  lemma LoadEnds(file: seq<byte>, at: nat, region: seq<byte>)
    requires at <= |file|
    ensures file[at..at] + region[0..] == region
    ensures at + |region| <= |file| ==> file[at..at + |region|] + region[|region|..] == file[at..at + |region|]
  {
  }

  lemma TakeMore(region: seq<byte>, offset: nat, n: nat)
    requires offset + n <= |region|
    ensures region[..offset] + region[offset..offset + n] == region[..offset + n]
  {
  }

  lemma BaseStep(lens: seq<nat>, r: nat)
    requires r < |lens|
    ensures Base(lens, r + 1) == Base(lens, r) + lens[r] <= Base(lens, |lens|)
  {
    if r + 1 < |lens| { BaseMonotone(lens, r + 1, |lens|); }
  }

  // The first `r` regions, back to back.
  function Prefix(ram: Ram, r: nat): seq<byte>
    requires r <= |ram|
  {
    if r == 0 then [] else Prefix(ram, r - 1) + ram[r - 1]
  }

  lemma {:induction false} PrefixIsFlat(ram: Ram, r: nat)
    requires r <= |ram|
    ensures Prefix(ram, r) == Flat(ram[..r])
  {
    if r > 0 {
      PrefixIsFlat(ram, r - 1);
      assert ram[..r][..r - 1] == ram[..r - 1];
    }
  }

  lemma {:induction false} PrefixFrame(a: Ram, b: Ram, r: nat)
    requires r <= |a| && r <= |b| && forall q :: 0 <= q < r ==> a[q] == b[q]
    ensures Prefix(a, r) == Prefix(b, r)
  {
    if r > 0 { PrefixFrame(a, b, r - 1); }
  }

  lemma NextChunk(file: seq<byte>, at: nat, offset: nat, n: nat, region: seq<byte>)
    requires at + offset + n <= |file| && offset + n <= |region|
    ensures WriteAt(file[at..at + offset] + region[offset..], offset, file[at + offset..at + offset + n]) ==
            file[at..at + offset + n] + region[offset + n..]
  {
  }

  // A flat image determines RAM once the region lengths are known.
  lemma FlatIsInjective(a: Ram, b: Ram)
    requires Lens(a) == Lens(b) && Flat(a) == Flat(b)
    ensures a == b
  {
    assert |a| == |Lens(a)| == |b|;
    forall r | 0 <= r < |a|
      ensures a[r] == b[r]
    {
      assert |a[r]| == Lens(a)[r] == Lens(b)[r] == |b[r]|;
      forall o | 0 <= o < |a[r]|
        ensures a[r][o] == b[r][o]
      {
        FlatAt(a, r, o);
        FlatAt(b, r, o);
      }
    }
  }

  // Dump then load into a guest of the same shape gives every byte back.
  method DumpThenLoad(source: GuestMemoryMmap, target: GuestMemoryMmap)
    requires source.Valid() && target.Valid() && source.ranges == target.ranges && source != target
    modifies target`ram
    ensures target.ram == source.ram
  {
    var file := source.DumpGuestMemory();
    FlatLength(source.ram);
    FlatLength(target.ram);
    assert Lens(source.ram) == Lens(target.ram);
    var result, _ := target.LoadGuestMemory(file.value);
    assert Lens(target.ram) == RangeLens(target.ranges) && file.value[..|file.value|] == file.value;
    FlatIsInjective(target.ram, source.ram);
  }

  // The byte a copy-on-write child reads at a guest address it has not written.
  function CowByte(memoryMib: u64, file: seq<byte>, addr: nat): Option<byte>
  {
    match Ranges(memoryMib)
    case None => None
    case Some(ranges) =>
      match FindRegion(ranges, addr, 1)
      case None => None
      case Some(r) =>
        var k := CowOffset(ranges, r) + (addr - ranges[r].start);
        if k < |file| then Some(file[k]) else None
  }

  // The file offset each region is mapped at: the running total of the earlier sizes.
  function CowOffset(ranges: seq<Range>, r: nat): nat
    requires r < |ranges|
  {
    if r == 0 then 0 else CowOffset(ranges, r - 1) + ranges[r - 1].len
  }

  lemma {:induction false} CowOffsetIsBase(ranges: seq<Range>, r: nat)
    requires r < |ranges|
    ensures CowOffset(ranges, r) == Base(RangeLens(ranges), r)
  {
    if r != 0 {
      CowOffsetIsBase(ranges, r - 1);
    }
  }

  // A forked child sees, at every guest address, the byte the parent dumped from it.
  lemma CowSeesTheDump(memoryMib: u64, ram: Ram, r: nat, off: nat)
    requires Ranges(memoryMib).Some? && Lens(ram) == RangeLens(Ranges(memoryMib).value)
    requires r < |ram| && off < |ram[r]|
    ensures |ram| == |Ranges(memoryMib).value|
    ensures CowByte(memoryMib, Flat(ram), Ranges(memoryMib).value[r].start + off) == Some(ram[r][off])
  {
    var ranges := Ranges(memoryMib).value;
    assert |ram| == |Lens(ram)| == |ranges| && |ram[r]| == Lens(ram)[r];
    LayoutAvoidsTheHole(memoryMib);
    RegionIsUnique(ranges, r, ranges[r].start + off, 1);
    CowOffsetIsBase(ranges, r);
    FlatAt(ram, r, off);
  }

  // The file has no hole: an address below 3 GiB is its own offset, one above 4 GiB is 1 GiB further down.
  lemma CowByteIs(memoryMib: u64, file: seq<byte>, addr: nat)
    requires memoryMib * 0x10_0000 < TWO64 && |file| == memoryMib * 0x10_0000
    ensures CowByte(memoryMib, file, addr) ==
            if !IsRam(memoryMib, addr) then None
            else if addr < 0xc000_0000 then Some(file[addr]) else Some(file[addr - 0x4000_0000])
  {
    RamIsWhere(memoryMib, addr);
    var ranges := Ranges(memoryMib).value;
    assert CowOffset(ranges, 0) == 0;
    if |ranges| == 2 { assert CowOffset(ranges, 1) == CowOffset(ranges, 0) + ranges[0].len; }
  }

  // Addresses outside RAM, the whole 3-4 GiB hole included, are not mapped.
  lemma CowHoleIsUnmapped(memoryMib: u64, file: seq<byte>, addr: nat)
    requires MMIO_GAP_START <= addr < RAM_64BIT_START
    ensures CowByte(memoryMib, file, addr) == None
  {
    LayoutAvoidsTheHole(memoryMib);
  }
}
