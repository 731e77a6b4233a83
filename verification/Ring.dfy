/** Arithmetic modulo a capacity that is not a literal. */
module Ring {

  lemma RemainderIsUnique(x: int, c: nat, q: int, r: nat)
    requires x == q * c + r && r < c
    ensures x % c == r
  {
    var d := q - x / c;
    assert d * c == x % c - r;
    assert d >= 1 ==> d * c >= c;
    assert d <= -1 ==> d * c + c <= 0;
  }

  lemma MultiplesVanish(x: int, c: nat, n: int)
    requires c > 0
    ensures (x + n * c) % c == x % c
  {
    assert x == x / c * c + x % c;
    assert x + n * c == (x / c + n) * c + x % c;
    RemainderIsUnique(x + n * c, c, x / c + n, x % c);
  }

  lemma Shifted(x: int, d: int, c: nat)
    requires c > 0
    ensures (x % c + d) % c == (x + d) % c
  {
    assert x == x / c * c + x % c;
    MultiplesVanish(x % c + d, c, x / c);
  }

  /** A slot moved by d lands on the slot of y if y is d further on, less one turn. */
  lemma OneTurn(slot: nat, x: int, d: int, y: int, c: nat)
    requires c > 0 && slot == x % c && x + d == y + c
    ensures (slot + d) % c == y % c
  {
    Shifted(x, d, c);
    MultiplesVanish(y, c, 1);
  }

  /** Two numbers closer than the capacity share a slot only if they are the same. */
  lemma SlotsDiffer(x: int, y: int, c: nat)
    requires x < y < x + c
    ensures x % c != y % c
  {
    if x % c == y % c {
      RemainderIsUnique(y - x, c, y / c - x / c, 0);
      assert false;
    }
  }
}
