// The snapshot directories of one machine: allocation of fresh timestamp ids, listing newest
// first, and retention. A name is a list of character codes, ordered as strings are.
module SnapshotStore {
  import opened Prelude
  import opened Sorting

  type Name = seq<int>

  // --- ids ---------------------------------------------------------------------

  const ID_WIDTH: nat := 20
  const U128_MAX: nat := 0xffff_ffff_ffff_ffff_ffff_ffff_ffff_ffff
  const ZERO: int := 48

  // The decimal digits of `n`, padded with zeros to at least `width` characters.
  function Padded(width: nat, n: nat): Name
    decreases width, n
  {
    if width == 0 && n == 0 then []
    else Padded(if width == 0 then 0 else width - 1, n / 10) + [ZERO + n % 10]
  }

  function Pow10(k: nat): nat
  {
    if k == 0 then 1 else 10 * Pow10(k - 1)
  }

  lemma {:induction false} PaddedWidth(width: nat, n: nat)
    requires n < Pow10(width)
    ensures |Padded(width, n)| == width
  {
    if width > 0 {
      PaddedWidth(width - 1, n / 10);
    }
  }

  // Comparing two equally long words is comparing their fronts, then their last letters.
  lemma {:induction false} LexSnoc(p: Name, q: Name, x: int, y: int)
    requires |p| == |q|
    ensures LexLeq(p + [x], q + [y]) <==> if p == q then x <= y else LexLeq(p, q)
  {
    if p == [] {
      assert p + [x] == [x] && q + [y] == [y];
    } else {
      assert (p + [x])[1..] == p[1..] + [x] && (q + [y])[1..] == q[1..] + [y];
      LexSnoc(p[1..], q[1..], x, y);
      SameCons(p, q);
    }
  }

  lemma SameCons(p: Name, q: Name)
    requires p != [] && q != []
    ensures p == q <==> p[0] == q[0] && p[1..] == q[1..]
  {
    assert p == [p[0]] + p[1..] && q == [q[0]] + q[1..];
  }

  lemma SameSnoc(p: Name, q: Name, x: int, y: int)
    requires |p| == |q|
    ensures p + [x] == q + [y] <==> p == q && x == y
  {
    assert (p + [x])[..|p|] == p && (q + [y])[..|q|] == q;
    assert (p + [x])[|p|] == x && (q + [y])[|q|] == y;
  }

  // Words that order as some numbers do still do so with a digit added to each.
  lemma SnocOrder(p: Name, q: Name, a: nat, b: nat, x: nat, y: nat)
    requires |p| == |q| && (LexLeq(p, q) <==> a <= b) && (p == q <==> a == b)
    ensures LexLeq(p + [ZERO + x], q + [ZERO + y]) <==> if a == b then x <= y else a <= b
    ensures p + [ZERO + x] == q + [ZERO + y] <==> a == b && x == y
  {
    LexSnoc(p, q, ZERO + x, ZERO + y);
    SameSnoc(p, q, ZERO + x, ZERO + y);
  }

  // Tens and last digit of a number, and of its padded form.
  lemma PaddedSnoc(width: nat, n: nat) returns (tens: nat, digit: nat)
    requires width > 0 && n < Pow10(width)
    ensures n == 10 * tens + digit && digit < 10 && tens < Pow10(width - 1)
    ensures Padded(width, n) == Padded(width - 1, tens) + [ZERO + digit]
  {
    tens, digit := n / 10, n % 10;
  }

  // Below 10^width the order of padded ids is the order of the numbers, so ids name one number.
  lemma {:induction false} PaddedOrder(width: nat, a: nat, b: nat)
    requires a < Pow10(width) && b < Pow10(width)
    ensures LexLeq(Padded(width, a), Padded(width, b)) <==> a <= b
    ensures Padded(width, a) == Padded(width, b) <==> a == b
  {
    if width > 0 {
      var s, x := PaddedSnoc(width, a);
      var t, y := PaddedSnoc(width, b);
      PaddedOrder(width - 1, s, t);
      PaddedWidth(width - 1, s);
      PaddedWidth(width - 1, t);
      SnocOrder(Padded(width - 1, s), Padded(width - 1, t), s, t, x, y);
    }
  }

  // --- listing -------------------------------------------------------------------

  // What a directory entry is: a snapshot with a parseable manifest, a directory without one, or
  // something that is not a directory.
  datatype Entry = Complete | Partial | NotADirectory

  type Entries = map<Name, Entry>

  predicate IsComplete(entries: Entries, name: Name) { name in entries && entries[name].Complete? }

  predicate Newer(a: Name, b: Name) { a != b && LexLeq(b, a) }

  // `ids` lists exactly the complete snapshots, each once, newest first.
  ghost predicate IsListing(entries: Entries, ids: seq<Name>)
  {
    && (forall i, j :: 0 <= i < j < |ids| ==> Newer(ids[i], ids[j]))
    && (forall name :: name in ids <==> IsComplete(entries, name))
  }

  predicate Descending(a: Name, b: Name) { LexLeq(b, a) }

  lemma DescendingIsTotalOrder()
    ensures TotalOrder(Descending)
  {
    LexIsTotalOrder();
  }

  lemma {:induction false} DistinctByMembership(a: seq<Name>, b: seq<Name>)
    requires forall i, j :: 0 <= i < j < |a| ==> a[i] != a[j]
    requires forall i, j :: 0 <= i < j < |b| ==> b[i] != b[j]
    requires forall x :: x in a <==> x in b
    ensures multiset(a) == multiset(b)
  {
    CountOnce(a);
    CountOnce(b);
  }

  lemma {:induction false} CountOnce(s: seq<Name>)
    requires forall i, j :: 0 <= i < j < |s| ==> s[i] != s[j]
    ensures forall x :: multiset(s)[x] == if x in s then 1 else 0
  {
    if s != [] {
      CountOnce(s[1..]);
      assert s == [s[0]] + s[1..];
    }
  }

  // A directory has one listing, whatever order its entries are read in.
  lemma ListingIsUnique(entries: Entries, a: seq<Name>, b: seq<Name>)
    requires IsListing(entries, a) && IsListing(entries, b)
    ensures a == b
  {
    DescendingIsTotalOrder();
    DistinctByMembership(a, b);
    SortedIsCanonical(Descending, a, b);
  }

  ghost predicate Enumerates(order: seq<Name>, entries: Entries)
  {
    && (forall i, j :: 0 <= i < j < |order| ==> order[i] != order[j])
    && (forall name :: name in order <==> name in entries)
  }

  lemma SortGivesListing(entries: Entries, found: seq<Name>)
    requires forall i, j :: 0 <= i < j < |found| ==> found[i] != found[j]
    requires forall name :: name in found <==> IsComplete(entries, name)
    ensures IsListing(entries, Sort(Descending, found))
  {
    var ids := Sort(Descending, found);
    DescendingIsTotalOrder();
    SortSorts(Descending, found);
    SortKeepsElements(Descending, found);
    CountOnce(found);
    forall name
      ensures name in ids <==> name in found
    {
      assert name in ids <==> multiset(ids)[name] > 0;
    }
    forall i, j | 0 <= i < j < |ids|
      ensures ids[i] != ids[j]
    {
      if ids[i] == ids[j] {
        TwiceCounted(ids, i, j);
        assert false;
      }
    }
  }

  lemma TwiceCounted(s: seq<Name>, i: nat, j: nat)
    requires i < j < |s| && s[i] == s[j]
    ensures multiset(s)[s[i]] >= 2
  {
    assert s == s[..i] + [s[i]] + s[i + 1..j] + [s[j]] + s[j + 1..];
  }

  // --- the store -------------------------------------------------------------------

  const MAX_BUMPS: nat := 1_000_000

  function IdAt(now: nat, bump: nat): Name
  {
    Padded(ID_WIDTH, Min(now + bump, U128_MAX))
  }

  // The number a string of decimal digits stands for.
  function NumberOf(name: Name): int
  {
    if name == [] then 0 else 10 * NumberOf(name[..|name| - 1]) + (name[|name| - 1] - 48)
  }

  lemma {:induction false} PaddedNumber(width: nat, n: nat)
    ensures NumberOf(Padded(width, n)) == n && |Padded(width, n)| >= width
    decreases width, n
  {
    if width > 0 || n > 0 {
      var front := Padded(if width == 0 then 0 else width - 1, n / 10);
      PaddedNumber(if width == 0 then 0 else width - 1, n / 10);
      assert Padded(width, n)[..|front|] == front;
    }
  }

  // An id is the time in at least twenty digits, one more for every name already taken.
  lemma IdNames(now: nat, bump: nat)
    requires now + bump < 0x1_0000_0000_0000_0000_0000_0000_0000_0000
    ensures NumberOf(IdAt(now, bump)) == now + bump && |IdAt(now, bump)| >= 20
  {
    PaddedNumber(ID_WIDTH, now + bump);
  }

  class SnapshotDir {
    var entries: Entries

    constructor ()
      ensures entries == map[]
    {
      entries := map[];
    }

    // Allocate a directory: the first timestamp from `now` on whose name is free.
    method NewSnapshotDir(now: nat) returns (id: Option<Name>)
      requires now <= U128_MAX
      modifies this
      ensures id.Some? ==>
                && id.value !in old(entries) && entries == old(entries)[id.value := Partial]
                && exists bump: nat :: bump < 1_000_000 && id.value == IdAt(now, bump)
                     && forall b: nat :: b < bump ==> IdAt(now, b) in old(entries)
      ensures id.None? ==> entries == old(entries) && forall b: nat :: b < 1_000_000 ==> IdAt(now, b) in entries
    {
      for bump := 0 to MAX_BUMPS
        invariant entries == old(entries)
        invariant forall b: nat :: b < bump ==> IdAt(now, b) in entries
      {
        var name := IdAt(now, bump);
        if name !in entries {
          entries := entries[name := Partial];
          return Some(name);
        }
      }
      return None;
    }

    // List the complete snapshots; `order` is how the file system happens to enumerate them.
    method List(order: seq<Name>) returns (ids: seq<Name>)
      requires Enumerates(order, entries)
      ensures IsListing(entries, ids)
    {
      var found: seq<Name> := [];
      for i := 0 to |order|
        invariant forall name :: name in found <==> name in order[..i] && IsComplete(entries, name)
        invariant forall j, k :: 0 <= j < k < |found| ==> found[j] != found[k]
      {
        assert order[..i + 1] == order[..i] + [order[i]];
        if entries[order[i]].Complete? {
          assert order[i] !in order[..i];
          found := found + [order[i]];
        }
      }
      assert order[..|order|] == order;
      SortGivesListing(entries, found);
      ids := Sort(Descending, found);
    }

    // Keep the `keep` newest complete snapshots, remove the others and report them oldest first.
    method Gc(order: seq<Name>, keep: nat) returns (removed: seq<Name>, ghost prior: seq<Name>)
      requires Enumerates(order, entries)
      modifies this
      ensures IsListing(old(entries), prior)
      ensures var kept := Min(keep, |prior|);
              && |removed| == |prior| - kept
              && (forall i :: 0 <= i < |removed| ==> removed[i] == prior[|prior| - 1 - i])
              && (forall name :: name in entries <==> name in old(entries) && name !in prior[kept..])
              && IsListing(entries, prior[..kept])
      ensures forall name :: name in entries ==> entries[name] == old(entries)[name]
    {
      var ids := List(order);
      prior := ids;
      removed := [];
      ghost var before := entries;
      var doomed := Skip(ids, keep);
      for i := 0 to |doomed|
        invariant removed == doomed[..i]
        invariant forall name :: name in entries <==> name in before && name !in doomed[..i]
        invariant forall name :: name in entries ==> entries[name] == before[name]
      {
        assert doomed[..i + 1] == doomed[..i] + [doomed[i]];
        entries := entries - {doomed[i]};
        removed := removed + [doomed[i]];
      }
      assert doomed[..|doomed|] == doomed;
      KeptIsListing(before, entries, ids, keep);
      removed := Backwards(removed);
    }

    // Remove one snapshot; a missing one is no error.
    method Remove(id: Name) returns (ok: bool)
      modifies this
      ensures ok <==> !(Sanitize(id) in old(entries) && old(entries)[Sanitize(id)].NotADirectory?)
      ensures entries == if ok then old(entries) - {Sanitize(id)} else old(entries)
    {
      var name := Sanitize(id);
      if name !in entries {
        assert entries - {name} == entries;
        return true;
      }
      if entries[name].NotADirectory? { return false; }
      entries := entries - {name};
      return true;
    }
  }

  function Skip(s: seq<Name>, n: nat): seq<Name> { if n >= |s| then [] else s[n..] }

  function Take(s: seq<Name>, n: nat): seq<Name> { if n >= |s| then s else s[..n] }

  function Backwards(s: seq<Name>): seq<Name>
  {
    seq(|s|, i requires 0 <= i < |s| => s[|s| - 1 - i])
  }

  lemma KeptIsListing(before: Entries, after: Entries, ids: seq<Name>, keep: nat)
    requires IsListing(before, ids)
    requires forall name :: name in after <==> name in before && name !in Skip(ids, keep)
    requires forall name :: name in after ==> after[name] == before[name]
    ensures IsListing(after, Take(ids, keep))
  {
    var kept := Take(ids, keep);
    assert ids == kept + Skip(ids, keep);
    forall name
      ensures name in kept <==> IsComplete(after, name)
    {
      assert name in ids <==> name in kept || name in Skip(ids, keep);
    }
  }

  // With timestamp ids, everything garbage collection removes is older than everything it keeps,
  // and the report runs from the oldest on.
  lemma GcKeepsTheNewest(entries: Entries, ids: seq<Name>, keep: nat, a: nat, b: nat)
    requires IsListing(entries, ids) && a < Pow10(ID_WIDTH) && b < Pow10(ID_WIDTH)
    requires Padded(ID_WIDTH, a) in Take(ids, keep) && Padded(ID_WIDTH, b) in Skip(ids, keep)
    ensures b < a
  {
    PaddedOrder(ID_WIDTH, b, a);
    var i :| 0 <= i < |Take(ids, keep)| && Take(ids, keep)[i] == Padded(ID_WIDTH, a);
    var j :| 0 <= j < |Skip(ids, keep)| && Skip(ids, keep)[j] == Padded(ID_WIDTH, b);
    assert ids[keep + j] == Padded(ID_WIDTH, b) && ids[i] == Padded(ID_WIDTH, a);
    assert Newer(ids[i], ids[keep + j]);
  }

  lemma ReportIsOldestFirst(entries: Entries, ids: seq<Name>, keep: nat, i: nat, j: nat, a: nat, b: nat)
    requires IsListing(entries, ids) && a < Pow10(ID_WIDTH) && b < Pow10(ID_WIDTH)
    requires i < j < |Skip(ids, keep)|
    ensures var report := Backwards(Skip(ids, keep));
            report[i] == Padded(ID_WIDTH, a) && report[j] == Padded(ID_WIDTH, b) ==> a < b
  {
    var s := Skip(ids, keep);
    PaddedOrder(ID_WIDTH, a, b);
    var n := |s| - 1;
    assert s[n - j] == ids[keep + (n - j)] && s[n - i] == ids[keep + (n - i)];
    assert Newer(ids[keep + (n - j)], ids[keep + (n - i)]);
  }

  // --- path components ---------------------------------------------------------------

  predicate SafeChar(c: int)
  {
    48 <= c <= 57 || 65 <= c <= 90 || 97 <= c <= 122 || c == 45 || c == 95 || c == 46
  }

  const UNDERSCORE: int := 95
  const DOT: int := 46

  function Filtered(name: Name): Name
  {
    seq(|name|, i requires 0 <= i < |name| => if SafeChar(name[i]) then name[i] else UNDERSCORE)
  }

  // One safe path component: never empty, never `.` or `..`, no separator.
  function Sanitize(name: Name): (out: Name)
    ensures |out| > 0 && out != [DOT] && out != [DOT, DOT]
    ensures forall i :: 0 <= i < |out| ==> SafeChar(out[i])
  {
    var out := Filtered(name);
    if out == [] || out == [DOT] || out == [DOT, DOT] then [UNDERSCORE] else out
  }

  // Letters, digits, `-`, `_` and `.` stay, anything else becomes `_`, in place.
  lemma SanitizeExactly(name: Name)
    ensures var out := Sanitize(name);
            || (out == [95] && (name == [] || (|name| <= 2 && forall c :: c in name ==> c == 46)))
            || (|out| == |name| && forall i :: 0 <= i < |name| ==>
                  out[i] == if 48 <= name[i] <= 57 || 65 <= name[i] <= 90 || 97 <= name[i] <= 122 || name[i] in {45, 46,
                                                                      95}
                            then name[i] else 95)
    ensures forall c :: c in Sanitize(name) ==> c != 47 && c != 0
  {
    var out := Filtered(name);
    assert |out| == |name| && forall i :: 0 <= i < |name| ==> (out[i] == 46 <==> name[i] == 46);
    if out == [DOT] || out == [DOT, DOT] { assert forall i :: 0 <= i < |name| ==> out[i] == DOT; }
  }

  lemma {:induction false} PaddedIsDigits(width: nat, n: nat)
    ensures forall i :: 0 <= i < |Padded(width, n)| ==> ZERO <= Padded(width, n)[i] <= ZERO + 9
    decreases width, n
  {
    if width > 0 || n > 0 {
      PaddedIsDigits(if width == 0 then 0 else width - 1, n / 10);
    }
  }

  // Every id the store allocates is its own path component, so removing by id hits its directory.
  lemma IdsAreSafe(now: nat, bump: nat)
    ensures Sanitize(IdAt(now, bump)) == IdAt(now, bump)
  {
    var id := IdAt(now, bump);
    PaddedIsDigits(ID_WIDTH, Min(now + bump, U128_MAX));
    assert |id| > 0 && id[0] != DOT;
    assert Filtered(id) == id;
  }
}
