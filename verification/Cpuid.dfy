// The host CPU fingerprint stored in a snapshot manifest: mask the volatile fields of every
// CPUID leaf, sort the leaves, hash the bytes.
module Cpuid {
  import opened Prelude
  import opened Sorting
  import opened LittleEndian

  datatype Leaf = Leaf(function_: u32, index: u32, flags: u32, eax: u32, ebx: u32, ecx: u32, edx: u32)

  // Clear what differs between two queries on one host: the initial APIC id in leaf 1, the XSAVE
  // area sizes in leaf 0xD, the x2APIC id in the topology leaves.
  function Mask(leaf: Leaf): Leaf
  {
    if leaf.function_ == 0x1 then leaf.(ebx := leaf.ebx % 0x100_0000)
    else if leaf.function_ == 0xD && leaf.index == 0 then leaf.(ebx := 0, ecx := 0)
    else if leaf.function_ == 0xD && leaf.index == 1 then leaf.(ebx := 0)
    else if leaf.function_ == 0xB || leaf.function_ == 0x1F then leaf.(edx := 0)
    else leaf
  }

  function Words(leaf: Leaf): seq<int>
  {
    [leaf.function_, leaf.index, leaf.flags, leaf.eax, leaf.ebx, leaf.ecx, leaf.edx]
  }

  function Masked(leaves: seq<Leaf>): (m: seq<seq<int>>)
    ensures |m| == |leaves|
  {
    seq(|leaves|, i requires 0 <= i < |leaves| => Words(Mask(leaves[i])))
  }

  function Canonical(leaves: seq<Leaf>): seq<seq<int>>
  {
    Sort(LexLeq, Masked(leaves))
  }

  // The canonical form identifies exactly the lists whose masked leaves form the same multiset.
  lemma CanonicalForm(a: seq<Leaf>, b: seq<Leaf>)
    ensures Canonical(a) == Canonical(b) <==> multiset(Masked(a)) == multiset(Masked(b))
  {
    LexIsTotalOrder();
    SortKeepsElements(LexLeq, Masked(a));
    SortKeepsElements(LexLeq, Masked(b));
    SortSorts(LexLeq, Masked(a));
    SortSorts(LexLeq, Masked(b));
    if multiset(Masked(a)) == multiset(Masked(b)) {
      SortedIsCanonical(LexLeq, Canonical(a), Canonical(b));
    }
  }

  lemma MaskedWithout(s: seq<Leaf>, i: nat)
    requires i < |s|
    ensures multiset(s) == multiset{s[i]} + multiset(s[..i] + s[i + 1..])
    ensures multiset(Masked(s)) == multiset{Words(Mask(s[i]))} + multiset(Masked(s[..i] + s[i + 1..]))
  {
    assert s == s[..i] + [s[i]] + s[i + 1..];
    assert Masked(s) == Masked(s[..i]) + [Words(Mask(s[i]))] + Masked(s[i + 1..]);
    assert Masked(s[..i] + s[i + 1..]) == Masked(s[..i]) + Masked(s[i + 1..]);
  }

  lemma Cancel<T>(x: T, m: multiset<T>, n: multiset<T>)
    requires multiset{x} + m == multiset{x} + n
    ensures m == n
  {
    assert m == multiset{x} + m - multiset{x} && n == multiset{x} + n - multiset{x};
  }

  // Some position of one list holds the first leaf of the other, and what is left agrees.
  lemma Partner(a: seq<Leaf>, b: seq<Leaf>) returns (i: nat)
    requires multiset(a) == multiset(b) && a != []
    ensures i < |b| && b[i] == a[0] && multiset(a[..0] + a[1..]) == multiset(b[..i] + b[i + 1..])
  {
    assert a[0] in multiset(a);
    i :| 0 <= i < |b| && b[i] == a[0];
    MaskedWithout(a, 0);
    MaskedWithout(b, i);
    Cancel(a[0], multiset(a[..0] + a[1..]), multiset(b[..i] + b[i + 1..]));
  }

  lemma {:induction false} MaskedOfPermutation(a: seq<Leaf>, b: seq<Leaf>)
    requires multiset(a) == multiset(b)
    ensures multiset(Masked(a)) == multiset(Masked(b))
    decreases |a|
  {
    if a == [] {
      assert |b| == |multiset(a)| == 0;
    } else {
      var i := Partner(a, b);
      MaskedOfPermutation(a[..0] + a[1..], b[..i] + b[i + 1..]);
      MaskedWithout(a, 0);
      MaskedWithout(b, i);
    }
  }

  // --- the hash ----------------------------------------------------------------

  const FNV_OFFSET: bv64 := 0xcbf2_9ce4_8422_2325
  const FNV_PRIME: bv64 := 0x0000_0100_0000_01b3

  function Mix(h: bv64, b: byte): bv64
  {
    (h ^ (b as bv64)) * FNV_PRIME
  }

  function HashBytes(h: bv64, bytes: seq<byte>): bv64
  {
    if bytes == [] then h else Mix(HashBytes(h, bytes[..|bytes| - 1]), bytes[|bytes| - 1])
  }

  // Every word of a leaf is a u32 already; this only says so to the type.
  function AsU32(word: int): u32
  {
    if 0 <= word < TWO32 then word else 0
  }

  function WordBytes(words: seq<int>): seq<byte>
  {
    if words == [] then [] else WordBytes(words[..|words| - 1]) + ToLe(AsU32(words[|words| - 1]), W32)
  }

  function LeafBytes(leaves: seq<seq<int>>): seq<byte>
  {
    if leaves == [] then [] else LeafBytes(leaves[..|leaves| - 1]) + WordBytes(leaves[|leaves| - 1])
  }

  lemma {:induction false} HashAppend(h: bv64, a: seq<byte>, b: seq<byte>)
    ensures HashBytes(h, a + b) == HashBytes(HashBytes(h, a), b)
    decreases |b|
  {
    if b == [] {
      assert a + b == a;
    } else {
      assert (a + b)[..|a + b| - 1] == a + b[..|b| - 1];
      HashAppend(h, a, b[..|b| - 1]);
    }
  }

  function Fingerprint(leaves: seq<Leaf>): bv64
  {
    HashBytes(FNV_OFFSET, LeafBytes(Canonical(leaves)))
  }

  // The published FNV-1a hashes of nothing and of the letter a.
  lemma KnownAnswers()
    ensures HashBytes(FNV_OFFSET, []) == 0xcbf29ce484222325
    ensures HashBytes(FNV_OFFSET, [0x61]) == 0xaf63dc4c8601ec8c
  {
    assert HashBytes(FNV_OFFSET, [0x61]) == Mix(HashBytes(FNV_OFFSET, [0x61][..0]), 0x61);
  }

  // A leaf is hashed as its seven words in the order of the kernel's structure, volatile fields masked.
  lemma LeafLayout(leaf: Leaf)
    ensures var m := Mask(leaf);
            LeafBytes(Canonical([leaf])) ==
            ToLe(m.function_, 4) + ToLe(m.index, 4) + ToLe(m.flags, 4) + ToLe(m.eax, 4) + ToLe(m.ebx, 4) +
            ToLe(m.ecx, 4) + ToLe(m.edx, 4)
  {
    var m := Mask(leaf);
    var words := Words(m);
    assert Masked([leaf]) == [words];
    assert Canonical([leaf]) == [words] by { assert Sort(LexLeq, [words]) == [words]; }
    assert LeafBytes([words]) == LeafBytes([words][..0]) + WordBytes(words);
    WordsOneByOne(words);
  }

  lemma WordsOneByOne(w: seq<int>)
    requires |w| == 7 && forall i :: 0 <= i < 7 ==> 0 <= w[i] < TWO32
    ensures WordBytes(w) == ToLe(w[0], 4) + ToLe(w[1], 4) + ToLe(w[2], 4) + ToLe(w[3], 4) + ToLe(w[4], 4) +
                            ToLe(w[5], 4) + ToLe(w[6], 4)
  {
    assert w[..7] == w;
    forall i | 0 <= i < 7 ensures WordBytes(w[..i + 1]) == WordBytes(w[..i]) + ToLe(w[i], 4) {
      assert w[..i + 1][..i] == w[..i];
    }
    assert WordBytes(w[..0]) == [];
    assert WordBytes(w[..1]) == ToLe(w[0], 4);
  }

  // FNV-1a over the bytes of every word of every sorted leaf.
  method CpuidHash(leaves: seq<Leaf>) returns (h: bv64)
    ensures h == Fingerprint(leaves)
  {
    h := HashLeaves(FNV_OFFSET, Canonical(leaves));
  }

  method HashLeaves(start: bv64, entries: seq<seq<int>>) returns (h: bv64)
    ensures h == HashBytes(start, LeafBytes(entries))
  {
    h := start;
    for e := 0 to |entries|
      invariant h == HashBytes(start, LeafBytes(entries[..e]))
    {
      h := HashLeaf(h, entries[e]);
      assert entries[..e + 1][..e] == entries[..e];
      HashAppend(start, LeafBytes(entries[..e]), WordBytes(entries[e]));
    }
    assert entries[..|entries|] == entries;
  }

  method HashLeaf(start: bv64, words: seq<int>) returns (h: bv64)
    ensures h == HashBytes(start, WordBytes(words))
  {
    h := start;
    for w := 0 to |words|
      invariant h == HashBytes(start, WordBytes(words[..w]))
    {
      h := HashWord(h, AsU32(words[w]));
      assert words[..w + 1][..w] == words[..w];
      HashAppend(start, WordBytes(words[..w]), ToLe(AsU32(words[w]), W32));
    }
    assert words[..|words|] == words;
  }

  method HashWord(start: bv64, word: u32) returns (h: bv64)
    ensures h == HashBytes(start, ToLe(word, W32))
  {
    var bytes := ToLe(word, W32);
    h := start;
    for b := 0 to |bytes|
      invariant h == HashBytes(start, bytes[..b])
    {
      assert bytes[..b + 1][..b] == bytes[..b];
      h := Mix(h, bytes[b]);
    }
    assert bytes[..|bytes|] == bytes;
  }

  // Equal in everything that describes the processor: only the initial APIC id, the XSAVE area sizes
  // and the x2APIC id may differ.
  predicate SameButVolatile(a: Leaf, b: Leaf)
  {
    && a.function_ == b.function_ && a.index == b.index && a.flags == b.flags && a.eax == b.eax
    && (a.ebx == b.ebx
        || (a.function_ == 0x1 && a.ebx % 0x100_0000 == b.ebx % 0x100_0000)
        || (a.function_ == 0xD && a.index <= 1))
    && (a.ecx == b.ecx || (a.function_ == 0xD && a.index == 0))
    && (a.edx == b.edx || a.function_ == 0xB || a.function_ == 0x1F)
  }

  lemma MaskHidesTheVolatile(a: Leaf, b: Leaf)
    ensures Mask(a) == Mask(b) <==> SameButVolatile(a, b)
  {
  }

  // Reordering the leaves, and changing the volatile fields of any of them, leaves the fingerprint.
  lemma FingerprintIsStable(a: seq<Leaf>, b: seq<Leaf>, c: seq<Leaf>)
    requires multiset(a) == multiset(b)
    requires |b| == |c| && forall i :: 0 <= i < |b| ==> SameButVolatile(b[i], c[i])
    ensures Fingerprint(a) == Fingerprint(c)
  {
    MaskedOfPermutation(a, b);
    forall i | 0 <= i < |b| ensures Mask(b[i]) == Mask(c[i]) { MaskHidesTheVolatile(b[i], c[i]); }
    assert Masked(b) == Masked(c);
    CanonicalForm(a, c);
  }

  // --- what the hash distinguishes ----------------------------------------------

  predicate IsU32s(words: seq<int>)
  {
    forall i :: 0 <= i < |words| ==> 0 <= words[i] < TWO32
  }

  predicate WellFormed(entries: seq<seq<int>>)
  {
    forall i :: 0 <= i < |entries| ==> |entries[i]| == 7 && IsU32s(entries[i])
  }

  lemma SplitLast(p: seq<byte>, x: seq<byte>, q: seq<byte>, y: seq<byte>)
    requires |p| == |q| && p + x == q + y
    ensures p == q && x == y
  {
    assert p == (p + x)[..|p|] && q == (q + y)[..|q|];
    assert x == (p + x)[|p|..] && y == (q + y)[|q|..];
  }

  lemma {:induction false} WordBytesLength(words: seq<int>)
    ensures |WordBytes(words)| == 4 * |words|
  {
    if words != [] { WordBytesLength(words[..|words| - 1]); }
  }

  lemma U32Injective(x: u32, y: u32)
    requires ToLe(x, W32) == ToLe(y, W32)
    ensures x == y
  {
    Widths();
    ToLeInjective(x, y, W32);
  }

  lemma LastWord(p: seq<byte>, x: u32, q: seq<byte>, y: u32)
    requires |p| == |q| && p + ToLe(x, W32) == q + ToLe(y, W32)
    ensures p == q && x == y
  {
    SplitLast(p, ToLe(x, W32), q, ToLe(y, W32));
    U32Injective(x, y);
  }

  lemma WordBytesSnoc(words: seq<int>)
    requires words != [] && IsU32s(words)
    ensures WordBytes(words) == WordBytes(words[..|words| - 1]) + ToLe(words[|words| - 1], W32)
  {
  }

  lemma {:induction false} WordBytesInjective(a: seq<int>, b: seq<int>)
    requires |a| == |b| && IsU32s(a) && IsU32s(b) && WordBytes(a) == WordBytes(b)
    ensures a == b
  {
    if a != [] {
      var n := |a| - 1;
      WordBytesSnoc(a);
      WordBytesSnoc(b);
      WordBytesLength(a[..n]);
      WordBytesLength(b[..n]);
      LastWord(WordBytes(a[..n]), a[n], WordBytes(b[..n]), b[n]);
      WordBytesInjective(a[..n], b[..n]);
      assert a == a[..n] + [a[n]] && b == b[..n] + [b[n]];
    }
  }

  lemma {:induction false} LeafBytesLength(entries: seq<seq<int>>)
    requires WellFormed(entries)
    ensures |LeafBytes(entries)| == 28 * |entries|
  {
    if entries != [] {
      var n := |entries| - 1;
      LeafBytesLength(entries[..n]);
      WordBytesLength(entries[n]);
    }
  }

  lemma SnocEqual(a: seq<seq<int>>, b: seq<seq<int>>, n: nat)
    requires |a| == |b| == n + 1 && a[..n] == b[..n] && a[n] == b[n]
    ensures a == b
  {
    assert a == a[..n] + [a[n]] && b == b[..n] + [b[n]];
  }

  lemma {:induction false} LeafBytesInjective(a: seq<seq<int>>, b: seq<seq<int>>)
    requires WellFormed(a) && WellFormed(b) && LeafBytes(a) == LeafBytes(b)
    ensures a == b
    decreases |a|
  {
    LeafBytesLength(a);
    LeafBytesLength(b);
    if a != [] {
      var n := |a| - 1;
      LeafBytesLength(a[..n]);
      LeafBytesLength(b[..n]);
      SplitLast(LeafBytes(a[..n]), WordBytes(a[n]), LeafBytes(b[..n]), WordBytes(b[n]));
      WordBytesInjective(a[n], b[n]);
      LeafBytesInjective(a[..n], b[..n]);
      SnocEqual(a, b, n);
    }
  }

  lemma MaskedIsWellFormed(leaves: seq<Leaf>)
    ensures WellFormed(Masked(leaves))
  {
  }

  lemma SameElements(a: seq<seq<int>>, b: seq<seq<int>>)
    requires multiset(a) == multiset(b) && WellFormed(b)
    ensures WellFormed(a)
  {
    forall i | 0 <= i < |a| ensures |a[i]| == 7 && IsU32s(a[i]) {
      assert a[i] in multiset(a);
      var j :| 0 <= j < |b| && b[j] == a[i];
    }
  }

  lemma CanonicalIsWellFormed(leaves: seq<Leaf>)
    ensures WellFormed(Canonical(leaves))
  {
    SortKeepsElements(LexLeq, Masked(leaves));
    MaskedIsWellFormed(leaves);
    SameElements(Canonical(leaves), Masked(leaves));
  }

  // The hashed bytes are the same exactly when the masked leaves are the same multiset: nothing but
  // order and volatile fields is lost before hashing.
  lemma HashInputIsExact(a: seq<Leaf>, b: seq<Leaf>)
    ensures LeafBytes(Canonical(a)) == LeafBytes(Canonical(b)) <==> multiset(Masked(a)) == multiset(Masked(b))
  {
    CanonicalForm(a, b);
    CanonicalIsWellFormed(a);
    CanonicalIsWellFormed(b);
    if LeafBytes(Canonical(a)) == LeafBytes(Canonical(b)) { LeafBytesInjective(Canonical(a), Canonical(b)); }
  }
}
