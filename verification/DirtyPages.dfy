// The live-branch image: the first copy of RAM, the union of the two dirty sources, and the
// re-copy of the dirtied pages.
module DirtyPages {
  import opened Prelude
  import opened RamImage

  const PAGE: nat := 4096

  // A 64-bit bitmap word, least significant bit first.
  type Word = w: seq<bool> | |w| == 64 witness seq(64, _ => false)

  function Zero(): Word { seq(64, _ => false) }

  function Or(a: Word, b: Word): Word
  {
    seq(64, bit requires 0 <= bit < 64 => a[bit] || b[bit])
  }

  // Bit `page` of a bitmap; a page past the last word is clean.
  predicate TestBit(words: seq<Word>, page: nat)
  {
    page / 64 < |words| && words[page / 64][page % 64]
  }

  // One dirty bitmap per RAM region.
  type Bitmaps = seq<seq<Word>>

  predicate Marked(maps: Bitmaps, r: nat, page: nat)
  {
    r < |maps| && TestBit(maps[r], page)
  }

  // `region` and `offset` stand for the page's host address.
  datatype DirtyPage = DirtyPage(region: nat, offset: nat, fileOffset: nat)

  function PageOf(lens: seq<nat>, r: nat, page: nat): DirtyPage
    requires r < |lens|
  {
    DirtyPage(r, page * PAGE, Base(lens, r) + page * PAGE)
  }

  // Page `page` of region `r` exists and either source saw a write to it.
  predicate IsDirty(lens: seq<nat>, kvm: Bitmaps, dev: Bitmaps, r: nat, page: nat)
  {
    r < |lens| && page * PAGE < lens[r] && (Marked(kvm, r, page) || Marked(dev, r, page))
  }

  predicate Before(r: nat, page: nat, s: nat, next: nat)
  {
    r < s || (r == s && page < next)
  }

  // `pages` lists exactly the dirty pages in front of page `next` of region `s`, in file order.
  ghost predicate Exact(pages: seq<DirtyPage>, lens: seq<nat>, kvm: Bitmaps, dev: Bitmaps, s: nat, next: nat)
  {
    && (forall d :: d in pages ==>
          && d.region < |lens| && d.offset % PAGE == 0
          && d == PageOf(lens, d.region, d.offset / PAGE)
          && Before(d.region, d.offset / PAGE, s, next)
          && IsDirty(lens, kvm, dev, d.region, d.offset / PAGE))
    && (forall r: nat, page: nat :: Before(r, page, s, next) && IsDirty(lens, kvm, dev, r, page) ==>
          PageOf(lens, r, page) in pages)
    && (forall i, j :: 0 <= i < j < |pages| ==> pages[i].fileOffset < pages[j].fileOffset)
  }

  // What callers rely on: every dirty page, nothing else, each once.
  ghost predicate ExactlyTheDirtyPages(pages: seq<DirtyPage>, lens: seq<nat>, kvm: Bitmaps, dev: Bitmaps)
  {
    Exact(pages, lens, kvm, dev, |lens|, 0)
  }

  // Word `i` of a bitmap, a missing word reading as zero.
  function WordAt(words: seq<Word>, i: nat): Word
  {
    if i < |words| then words[i] else Zero()
  }

  lemma UnionBit(kvm: seq<Word>, dev: seq<Word>, i: nat, bit: nat)
    requires bit < 64
    ensures Or(WordAt(kvm, i), WordAt(dev, i))[bit] <==>
            TestBit(kvm, i * 64 + bit) || TestBit(dev, i * 64 + bit)
  {
    assert (i * 64 + bit) / 64 == i && (i * 64 + bit) % 64 == bit;
  }

  // Moving the cursor over a clean page keeps the list exact.
  lemma SkipClean(pages: seq<DirtyPage>, lens: seq<nat>, kvm: Bitmaps, dev: Bitmaps, s: nat, next: nat)
    requires Exact(pages, lens, kvm, dev, s, next)
    requires !IsDirty(lens, kvm, dev, s, next)
    ensures Exact(pages, lens, kvm, dev, s, next + 1)
  {
  }

  lemma FileOffsetsFollowTheCursor(lens: seq<nat>, r: nat, page: nat, s: nat, next: nat)
    requires s < |lens| && Before(r, page, s, next)
    requires page * PAGE < lens[r]
    ensures PageOf(lens, r, page).fileOffset < PageOf(lens, s, next).fileOffset
  {
    if r < s {
      BaseMonotone(lens, r, s);
    }
  }

  // Appending the dirty page under the cursor keeps the list exact.
  lemma TakeDirty(pages: seq<DirtyPage>, lens: seq<nat>, kvm: Bitmaps, dev: Bitmaps, s: nat, next: nat)
    requires s < |lens|
    requires Exact(pages, lens, kvm, dev, s, next)
    requires IsDirty(lens, kvm, dev, s, next)
    ensures Exact(pages + [PageOf(lens, s, next)], lens, kvm, dev, s, next + 1)
  {
    var page := PageOf(lens, s, next);
    assert page.offset / PAGE == next;
    forall d | d in pages
      ensures d.fileOffset < page.fileOffset
    {
      FileOffsetsFollowTheCursor(lens, d.region, d.offset / PAGE, s, next);
    }
    forall i, j | 0 <= i < j < |pages + [page]|
      ensures (pages + [page])[i].fileOffset < (pages + [page])[j].fileOffset
    {
      assert (pages + [page])[i] in pages;
    }
  }

  // 64 clean pages at once: the zero-word shortcut.
  lemma {:induction false} SkipZeroWord(pages: seq<DirtyPage>, lens: seq<nat>, kvm: Bitmaps, dev: Bitmaps,
                                        s: nat, w: nat, upTo: nat)
    requires s < |lens| && upTo <= 64 && |kvm| == |dev| == |lens|
    requires Or(WordAt(kvm[s], w), WordAt(dev[s], w)) == Zero()
    requires Exact(pages, lens, kvm, dev, s, w * 64)
    ensures Exact(pages, lens, kvm, dev, s, w * 64 + upTo)
  {
    if upTo != 0 {
      SkipZeroWord(pages, lens, kvm, dev, s, w, upTo - 1);
      UnionBit(kvm[s], dev[s], w, upTo - 1);
      SkipClean(pages, lens, kvm, dev, s, w * 64 + upTo - 1);
    }
  }

  // No bit lives past the longer bitmap, so the cursor may move to the next region.
  lemma RegionDone(pages: seq<DirtyPage>, lens: seq<nat>, kvm: Bitmaps, dev: Bitmaps, s: nat, words: nat)
    requires s < |lens| && |kvm| == |dev| == |lens|
    requires words >= |kvm[s]| && words >= |dev[s]|
    requires Exact(pages, lens, kvm, dev, s, words * 64)
    ensures Exact(pages, lens, kvm, dev, s + 1, 0)
  {
    forall r: nat, page: nat | Before(r, page, s + 1, 0) && IsDirty(lens, kvm, dev, r, page)
      ensures PageOf(lens, r, page) in pages
    {
      assert r == s ==> page / 64 < words;
      assert Before(r, page, s, words * 64);
    }
  }

  // The union of the KVM dirty log and the per-region bitmaps, as file pages.
  method CollectDirtyPages(lens: seq<nat>, kvm: Bitmaps, dev: Bitmaps) returns (pages: seq<DirtyPage>)
    requires |kvm| == |dev| == |lens|
    ensures ExactlyTheDirtyPages(pages, lens, kvm, dev)
  {
    pages := [];
    var fileBase := 0;
    var slot := 0;
    while slot < |lens|
      invariant 0 <= slot <= |lens|
      invariant fileBase == Base(lens, slot)
      invariant Exact(pages, lens, kvm, dev, slot, 0)
    {
      var words := if |kvm[slot]| >= |dev[slot]| then |kvm[slot]| else |dev[slot]|;
      var i := 0;
      while i < words
        invariant 0 <= i <= words
        invariant Exact(pages, lens, kvm, dev, slot, i * 64)
      {
        var word := Or(WordAt(kvm[slot], i), WordAt(dev[slot], i));
        if word == Zero() {
          SkipZeroWord(pages, lens, kvm, dev, slot, i, 64);
        } else {
          pages := CollectWord(pages, lens, kvm, dev, slot, i, word, fileBase);
        }
        i := i + 1;
      }
      RegionDone(pages, lens, kvm, dev, slot, words);
      fileBase := fileBase + lens[slot];
      slot := slot + 1;
    }
  }

  // The pages of one word of the union.
  method CollectWord(before: seq<DirtyPage>, lens: seq<nat>, kvm: Bitmaps, dev: Bitmaps, slot: nat, i: nat,
                     word: Word, fileBase: nat) returns (pages: seq<DirtyPage>)
    requires |kvm| == |dev| == |lens| && slot < |lens| && fileBase == Base(lens, slot)
    requires word == Or(WordAt(kvm[slot], i), WordAt(dev[slot], i)) && Exact(before, lens, kvm, dev, slot, i * 64)
    ensures Exact(pages, lens, kvm, dev, slot, i * 64 + 64)
  {
    pages := before;
    var bit := 0;
    while bit < 64
      invariant 0 <= bit <= 64
      invariant Exact(pages, lens, kvm, dev, slot, i * 64 + bit)
    {
      UnionBit(kvm[slot], dev[slot], i, bit);
      var page := i * 64 + bit;
      var pageOff := page * PAGE;
      if !word[bit] || pageOff >= lens[slot] {
        SkipClean(pages, lens, kvm, dev, slot, page);
      } else {
        TakeDirty(pages, lens, kvm, dev, slot, page);
        pages := pages + [DirtyPage(slot, pageOff, fileBase + pageOff)];
      }
      bit := bit + 1;
    }
  }

  // Every collected page lies wholly inside its region and the file when regions are whole pages.
  lemma PagesFit(pages: seq<DirtyPage>, lens: seq<nat>, kvm: Bitmaps, dev: Bitmaps, d: DirtyPage)
    requires ExactlyTheDirtyPages(pages, lens, kvm, dev) && d in pages
    ensures d.region < |lens| && d.offset < lens[d.region]
    ensures d.offset + PAGE <= lens[d.region] <==> d.offset / PAGE < lens[d.region] / PAGE
    ensures lens[d.region] % PAGE == 0 ==>
              d.offset + PAGE <= lens[d.region] && d.fileOffset + PAGE <= Base(lens, |lens|)
  {
    BaseMonotone(lens, d.region, |lens|);
  }

  predicate WholePages(lens: seq<nat>)
  {
    forall r :: 0 <= r < |lens| ==> lens[r] % PAGE == 0
  }

  predicate Covered(pages: seq<DirtyPage>, k: nat)
  {
    exists d :: d in pages && d.fileOffset <= k < d.fileOffset + PAGE
  }

  ghost predicate InBounds(ram: Ram, d: DirtyPage)
  {
    && d.region < |ram| && d.offset + PAGE <= |ram[d.region]|
    && d.fileOffset == Base(Lens(ram), d.region) + d.offset
  }

  // The list read as bits: a page is 4096 bytes, and bit `p` of a region's bitmap is bit `p % 64` of its word
  // `p / 64`. A page is listed, with its offset in region and file, if and only if it starts inside its region
  // and either source has its bit set.
  predicate BitIsSet(maps: Bitmaps, r: nat, p: nat)
  {
    r < |maps| && p / 64 < |maps[r]| && maps[r][p / 64][p % 64]
  }

  lemma WholePage(lens: seq<nat>, r: nat, p: nat)
    requires r < |lens|
    ensures PageOf(lens, r, p) == DirtyPage(r, 4096 * p, Base(lens, r) + 4096 * p)
    ensures 4096 * p % PAGE == 0 && 4096 * p / PAGE == p
  {
  }

  lemma DirtyIsSet(lens: seq<nat>, kvm: Bitmaps, dev: Bitmaps, r: nat, p: nat)
    requires r < |lens|
    ensures IsDirty(lens, kvm, dev, r, p) <==> 4096 * p < lens[r] && (BitIsSet(kvm, r, p) || BitIsSet(dev, r, p))
  {
  }

  lemma PagesAreTheSetBits(pages: seq<DirtyPage>, lens: seq<nat>, kvm: Bitmaps, dev: Bitmaps, r: nat, p: nat)
    requires ExactlyTheDirtyPages(pages, lens, kvm, dev) && r < |lens|
    ensures DirtyPage(r, 4096 * p, Base(lens, r) + 4096 * p) in pages <==>
            4096 * p < lens[r] && (BitIsSet(kvm, r, p) || BitIsSet(dev, r, p))
  {
    WholePage(lens, r, p);
    DirtyIsSet(lens, kvm, dev, r, p);
    var d := PageOf(lens, r, p);
    if d in pages {
      assert IsDirty(lens, kvm, dev, d.region, d.offset / PAGE);
    } else {
      assert Before(r, p, |lens|, 0);
    }
  }

  lemma PagesAreWhole(pages: seq<DirtyPage>, lens: seq<nat>, kvm: Bitmaps, dev: Bitmaps, d: DirtyPage)
    requires ExactlyTheDirtyPages(pages, lens, kvm, dev) && d in pages
    ensures d.region < |lens| && d.offset % 4096 == 0 && d.fileOffset == Base(lens, d.region) + d.offset
  {
    WholePage(lens, d.region, d.offset / PAGE);
  }

  lemma SourceIsFlat(ram: Ram, d: DirtyPage, k: nat)
    requires InBounds(ram, d) && d.fileOffset <= k < d.fileOffset + PAGE
    ensures k < |Flat(ram)| && Flat(ram)[k] == ram[d.region][d.offset..d.offset + PAGE][k - d.fileOffset]
  {
    FlatAt(ram, d.region, d.offset + (k - d.fileOffset));
  }

  // Re-copying replaces exactly the covered bytes by RAM and leaves every other byte alone.
  method RecopyBranchPages(file: seq<byte>, ram: Ram, dirty: seq<DirtyPage>) returns (out: seq<byte>, count: nat)
    requires |file| == |Flat(ram)|
    requires forall d :: d in dirty ==> InBounds(ram, d)
    ensures count == |dirty| && |out| == |file|
    ensures forall k :: 0 <= k < |file| ==> out[k] == if Covered(dirty, k) then Flat(ram)[k] else file[k]
  {
    out := file;
    var i := 0;
    while i < |dirty|
      invariant 0 <= i <= |dirty|
      invariant |out| == |file|
      invariant forall k :: 0 <= k < |file| ==> out[k] == if Covered(dirty[..i], k) then Flat(ram)[k] else file[k]
    {
      var page := dirty[i];
      ghost var before := out;
      assert InBounds(ram, page);
      SourceIsFlat(ram, page, page.fileOffset + PAGE - 1);
      out := WriteAt(out, page.fileOffset, ram[page.region][page.offset..page.offset + PAGE]);
      forall k | 0 <= k < |file|
        ensures out[k] == if Covered(dirty[..i + 1], k) then Flat(ram)[k] else file[k]
      {
        assert dirty[..i + 1] == dirty[..i] + [page];
        if page.fileOffset <= k < page.fileOffset + PAGE {
          SourceIsFlat(ram, page, k);
          assert page in dirty[..i + 1];
        } else {
          assert Covered(dirty[..i + 1], k) <==> Covered(dirty[..i], k);
        }
      }
      i := i + 1;
    }
    assert dirty[..i] == dirty;
    count := |dirty|;
  }

  // The first copy, on RAM that does not change meanwhile: the file becomes the flat image.
  method WriteBranchImage(ram: Ram) returns (file: seq<byte>, pages: nat)
    ensures file == Flat(ram)
    ensures pages == |Flat(ram)| / PAGE
  {
    var total := 0;
    for r := 0 to |ram|
      invariant total == Base(Lens(ram), r)
    {
      total := total + |ram[r]|;
    }
    FlatLength(ram);
    file := seq(total, _ => 0 as byte);
    var offset := 0;
    for r := 0 to |ram|
      invariant offset == |Flat(ram[..r])| <= |file| == total
      invariant file[..offset] == Flat(ram[..r])
    {
      assert ram[..r + 1][..r] == ram[..r];
      FlatLength(ram[..r + 1]);
      assert Lens(ram[..r + 1]) == Lens(ram)[..r + 1];
      BasePrefix(Lens(ram), r + 1, r + 1);
      if r + 1 < |ram| { BaseMonotone(Lens(ram), r, |ram|); }
      file := WriteAt(file, offset, ram[r]);
      offset := offset + |ram[r]|;
      assert file[..offset] == Flat(ram[..r]) + ram[r];
    }
    assert ram[..|ram|] == ram;
    pages := total / PAGE;
  }

  // Position `k` of the file belongs to a dirty page.
  predicate DirtyAt(lens: seq<nat>, kvm: Bitmaps, dev: Bitmaps, k: nat)
    requires k < Base(lens, |lens|)
  {
    var at := Locate(lens, k);
    IsDirty(lens, kvm, dev, at.0, at.1 / PAGE)
  }

  // The image after the re-copy: RAM on every dirty page, the first copy elsewhere.
  function Recopied(file: seq<byte>, ram: Ram, kvm: Bitmaps, dev: Bitmaps): (out: seq<byte>)
    requires |file| == |Flat(ram)| == Base(Lens(ram), |ram|)
    ensures |out| == |file|
  {
    seq(|file|, k requires 0 <= k < |file| => if DirtyAt(Lens(ram), kvm, dev, k) then Flat(ram)[k] else file[k])
  }

  lemma SplitIsUnique(lens: seq<nat>, r: nat, off: nat, s: nat, o: nat)
    requires r < |lens| && off < lens[r] && s < |lens| && o < lens[s]
    requires Base(lens, r) + off == Base(lens, s) + o
    ensures r == s && off == o
  {
    if r < s { BaseMonotone(lens, r, s); }
    if s < r { BaseMonotone(lens, s, r); }
  }

  // With whole-page regions the collected pages cover exactly the positions of dirty pages.
  lemma CoverIsDirty(pages: seq<DirtyPage>, lens: seq<nat>, kvm: Bitmaps, dev: Bitmaps, k: nat)
    requires ExactlyTheDirtyPages(pages, lens, kvm, dev) && WholePages(lens)
    requires k < Base(lens, |lens|)
    ensures Covered(pages, k) <==> DirtyAt(lens, kvm, dev, k)
  {
    var at := Locate(lens, k);
    var mine := PageOf(lens, at.0, at.1 / PAGE);
    assert mine.fileOffset <= k < mine.fileOffset + PAGE;
    if DirtyAt(lens, kvm, dev, k) {
      assert Before(at.0, at.1 / PAGE, |lens|, 0);
      assert mine in pages;
    }
    if Covered(pages, k) {
      var d :| d in pages && d.fileOffset <= k < d.fileOffset + PAGE;
      PagesFit(pages, lens, kvm, dev, d);
      SplitIsUnique(lens, at.0, at.1, d.region, d.offset + (k - d.fileOffset));
      assert at.1 / PAGE == d.offset / PAGE;
    }
  }

  // Collect, then re-copy: the last two steps at the final barrier.
  method RecopyDirty(file: seq<byte>, ram: Ram, kvm: Bitmaps, dev: Bitmaps) returns (out: seq<byte>, count: nat)
    requires |kvm| == |dev| == |ram| && WholePages(Lens(ram))
    requires |file| == |Flat(ram)| == Base(Lens(ram), |ram|)
    ensures out == Recopied(file, ram, kvm, dev)
  {
    var lens := Lens(ram);
    var pages := CollectDirtyPages(lens, kvm, dev);
    forall d | d in pages
      ensures InBounds(ram, d)
    {
      PagesFit(pages, lens, kvm, dev, d);
    }
    out, count := RecopyBranchPages(file, ram, pages);
    forall k | 0 <= k < |file|
      ensures out[k] == Recopied(file, ram, kvm, dev)[k]
    {
      CoverIsDirty(pages, lens, kvm, dev, k);
    }
  }

  // Setting one bit, as a dirty source does for a write.
  function SetBit(words: seq<Word>, page: nat): (out: seq<Word>)
    ensures |out| == |words|
  {
    if page / 64 < |words| then words[page / 64 := words[page / 64][page % 64 := true]] else words
  }

  lemma SetBitSetsOne(words: seq<Word>, page: nat, q: nat)
    requires page / 64 < |words|
    ensures TestBit(SetBit(words, page), q) <==> TestBit(words, q) || q == page
  {
    assert q == (q / 64) * 64 + q % 64 && page == (page / 64) * 64 + page % 64;
  }

  function Cleared(maps: Bitmaps): (out: Bitmaps)
    ensures |out| == |maps|
    ensures forall r :: 0 <= r < |maps| ==> |out[r]| == |maps[r]|
    ensures forall r: nat, page: nat :: !Marked(out, r, page)
  {
    seq(|maps|, r requires 0 <= r < |maps| => seq(|maps[r]|, _ => Zero()))
  }
}
