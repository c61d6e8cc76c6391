// Taking turns: turns that go round come to everyone, and a server that keeps taking turns at a queue gets
// to every entry of it.
module Queues {
  ghost predicate Later(happens: nat -> bool, n: nat)
  {
    exists k: nat :: n <= k && happens(k)
  }

  // At instant `i`: a turn at which nobody waits, or the one waited for is first, is a hit; and until a
  // hit the one who waits goes on waiting, never further back, and further ahead with each turn.
  ghost predicate Advances(turn: nat -> bool, waits: nat -> bool, place: nat -> nat, hit: nat -> bool, i: nat)
  {
    && (turn(i) && (!waits(i) || place(i) == 0) ==> hit(i))
    && (waits(i) && !hit(i) ==> waits(i + 1) && place(i + 1) <= place(i) && (turn(i) ==> place(i + 1) < place(i)))
  }

  ghost predicate AdvancesFrom(turn: nat -> bool, waits: nat -> bool, place: nat -> nat, hit: nat -> bool, n: nat)
  {
    forall i: nat :: n <= i ==> Advances(turn, waits, place, hit, i)
  }

  lemma {:induction false} Walk(turn: nat -> bool, waits: nat -> bool, place: nat -> nat, hit: nat -> bool, n: nat,
                                j: nat)
    returns (k: nat)
    requires AdvancesFrom(turn, waits, place, hit, n) && (forall i: nat :: Later(turn, i))
    requires waits(n) && n <= j && turn(j)
    ensures n <= k && hit(k)
    decreases place(n), j - n
  {
    assert Advances(turn, waits, place, hit, n);
    if hit(n) {
      k := n;
    } else if turn(n) {
      assert Later(turn, n + 1);
      var i: nat :| n + 1 <= i && turn(i);
      k := Walk(turn, waits, place, hit, n + 1, i);
    } else {
      k := Walk(turn, waits, place, hit, n + 1, j);
    }
  }

  lemma Reaches(turn: nat -> bool, waits: nat -> bool, place: nat -> nat, hit: nat -> bool, n: nat)
    requires AdvancesFrom(turn, waits, place, hit, n) && (forall i: nat :: Later(turn, i))
    ensures Later(hit, n)
  {
    assert Later(turn, n);
    var j: nat :| n <= j && turn(j);
    assert Advances(turn, waits, place, hit, j);
    var k := j;
    if waits(j) { k := Walk(turn, waits, place, hit, j, j); }
    assert n <= k && hit(k);
  }

  // --- turns that go round -----------------------------------------------------------------------

  // Whose turn it is at `n` when the turns of 0 to `last` go round.
  function Whose(n: nat, last: nat): (who: nat)
    ensures who <= last
  {
    if n == 0 || Whose(n - 1, last) == last then 0 else Whose(n - 1, last) + 1
  }

  lemma {:induction false} ComesRound(n: nat, who: nat, last: nat) returns (k: nat)
    requires who <= last
    ensures n <= k && Whose(k, last) == who
    decreases if Whose(n, last) <= who then who - Whose(n, last) else last + 1 - Whose(n, last) + who
  {
    if Whose(n, last) == who { k := n; } else { k := ComesRound(n + 1, who, last); }
  }
}
