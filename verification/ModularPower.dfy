/** Integer powers and their residues. */
module ModularPower {

  function Pow(b: int, e: nat): int {
    if e == 0 then 1 else b * Pow(b, e - 1)
  }

  lemma {:induction false} PowAdd(b: int, m: nat, n: nat)
    ensures Pow(b, m + n) == Pow(b, m) * Pow(b, n)
  {
    if m > 0 {
      PowAdd(b, m - 1, n);
      assert b * (Pow(b, m - 1) * Pow(b, n)) == b * Pow(b, m - 1) * Pow(b, n);
    }
  }

  lemma {:induction false} PowMul(b: int, m: nat, n: nat)
    ensures Pow(b, m * n) == Pow(Pow(b, m), n)
  {
    if n == 0 {
      assert m * n == 0;
    } else {
      PowMul(b, m, n - 1);
      assert m * n == m + m * (n - 1);
      PowAdd(b, m, m * (n - 1));
    }
  }

  /** x and y differ by a multiple of n. */
  ghost predicate Congruent(x: int, y: int, n: int) {
    exists q: int :: x == y + q * n
  }

  lemma ResidueCongruent(x: int, n: int)
    requires n > 0
    ensures Congruent(x % n, x, n)
  {
    assert x % n == x + (-(x / n)) * n;
  }

  lemma Distribute(a: int, b: int, c: int, n: int)
    ensures (a - b - c) * n == a * n - b * n - c * n
  {
  }

  lemma CongruentResidue(x: int, y: int, n: int)
    requires n > 0 && Congruent(x, y, n)
    ensures x % n == y % n
  {
    var q :| x == y + q * n;
    var i, j, r, s := x / n, y / n, x % n, y % n;
    assert x == i * n + r && y == j * n + s;
    Distribute(i, j, q, n);
    SmallMultipleIsZero(i - j - q, n);
  }

  lemma SmallMultipleIsZero(d: int, n: int)
    requires n > 0 && -n < d * n < n
    ensures d == 0
  {
    assert d >= 1 ==> d * n >= n;
    assert d <= -1 ==> d * n <= -n;
  }

  lemma CongruentSum(x: int, y: int, z: int, n: int)
    requires Congruent(x, y, n)
    ensures Congruent(x + z, y + z, n)
  {
    var q :| x == y + q * n;
    assert x + z == (y + z) + q * n;
  }

  lemma CongruentProduct(x: int, y: int, w: int, z: int, n: int)
    requires Congruent(x, y, n) && Congruent(w, z, n)
    ensures Congruent(x * w, y * z, n)
  {
    var q :| x == y + q * n;
    var r :| w == z + r * n;
    assert x * w == y * z + (y * r + q * z + q * (r * n)) * n by {
      assert (y + q * n) * (z + r * n) == y * z + y * (r * n) + (q * n) * z + (q * n) * (r * n);
      assert y * (r * n) == (y * r) * n && (q * n) * z == (q * z) * n && (q * n) * (r * n) == (q * (r * n)) * n;
    }
  }

  lemma CongruentTransitive(x: int, y: int, z: int, n: int)
    requires Congruent(x, y, n) && Congruent(y, z, n)
    ensures Congruent(x, z, n)
  {
    var q :| x == y + q * n;
    var r :| y == z + r * n;
    assert x == z + (q + r) * n;
  }

  lemma {:induction false} CongruentPow(x: int, y: int, e: nat, n: int)
    requires Congruent(x, y, n)
    ensures Congruent(Pow(x, e), Pow(y, e), n)
  {
    if e == 0 {
      assert Pow(x, e) == Pow(y, e) + 0 * n;
    } else {
      CongruentPow(x, y, e - 1, n);
      CongruentProduct(x, y, Pow(x, e - 1), Pow(y, e - 1), n);
    }
  }

  /** Three-argument pow: never negative, also for a negative base. */
  function PowMod(b: int, e: nat, n: int): (r: int)
    requires n > 0
    ensures 0 <= r < n
  {
    Pow(b, e) % n
  }

  lemma PowModCongruent(b: int, e: nat, n: int)
    requires n > 0
    ensures Congruent(PowMod(b, e, n), Pow(b, e), n)
  {
    ResidueCongruent(Pow(b, e), n);
  }
}
