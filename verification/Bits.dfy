/** Masking with size - 1, for sizes that are powers of two. */
module Bits {

  function Pow2(k: nat): nat
    ensures Pow2(k) > 0
  {
    if k == 0 then 1 else 2 * Pow2(k - 1)
  }

  /** Bitwise and, digit by digit. */
  function And(x: nat, y: nat): nat {
    if x == 0 || y == 0 then 0
    else 2 * And(x / 2, y / 2) + (x % 2) * (y % 2)
  }

  lemma MulAtLeast(e: int, d: int)
    requires d > 0
    ensures e >= 1 ==> e * d >= d
    ensures e <= -1 ==> e * d <= -d
  {
    if e >= 1 { assert (e - 1) * d >= 0; }
    if e <= -1 { assert (-e - 1) * d >= 0; }
  }

  lemma ModUnique(x: int, d: int, q: int, r: int)
    requires 0 <= r < d && x == q * d + r
    ensures x % d == r
  {
    var m, e := x / d, x / d - q;
    assert x == m * d + x % d;
    assert m * d - q * d == e * d;
    MulAtLeast(e, d);
  }

  lemma HalfMod(x: nat, p: nat)
    requires p > 0
    ensures x % (2 * p) == 2 * ((x / 2) % p) + x % 2
  {
    var y := x / 2;
    var q, r := y / p, y % p;
    assert y == q * p + r;
    assert x == 2 * y + x % 2;
    assert q * (2 * p) == 2 * (q * p);
    ModUnique(x, 2 * p, q, 2 * r + x % 2);
  }

  lemma {:induction false} AndMask(x: nat, k: nat)
    ensures And(x, Pow2(k) - 1) == x % Pow2(k)
    decreases k
  {
    if x == 0 {
      ModUnique(0, Pow2(k), 0, 0);
    } else if k == 0 {
      ModUnique(x, 1, x, 0);
    } else {
      var p := Pow2(k - 1);
      var h := x / 2;
      AndMask(h, k - 1);
      HalfMod(x, p);
      AndOdd(x, p - 1);
      hide And;
      assert Pow2(k) - 1 == 2 * (p - 1) + 1;
    }
  }

  lemma AndOdd(x: nat, y: nat)
    requires x > 0
    ensures And(x, 2 * y + 1) == 2 * And(x / 2, y) + x % 2
  {
    assert (2 * y + 1) / 2 == y && (2 * y + 1) % 2 == 1;
  }

  lemma AndBelow(x: nat, k: nat)
    ensures And(x, Pow2(k) - 1) < Pow2(k)
  {
    AndMask(x, k);
  }

  /** On sums that exceed the size at most once, masking subtracts the size once. */
  lemma MaskWraps(x: nat, k: nat)
    requires x < 2 * Pow2(k)
    ensures And(x, Pow2(k) - 1) == if x < Pow2(k) then x else x - Pow2(k)
  {
    AndMask(x, k);
    if x < Pow2(k) { ModUnique(x, Pow2(k), 0, x); } else { ModUnique(x, Pow2(k), 1, x - Pow2(k)); }
  }

  lemma ModShift(x: nat, i: nat, d: nat)
    requires d > 0
    ensures x % d + i < d ==> (x + i) % d == x % d + i
    ensures x % d + i == d ==> (x + i) % d == 0
  {
    var q := x / d;
    assert x == q * d + x % d;
    if x % d + i < d { ModUnique(x + i, d, q, x % d + i); }
    if x % d + i == d {
      assert x + i == (q + 1) * d;
      ModUnique(x + i, d, q + 1, 0);
    }
  }

  /** Two numbers less than d apart are equal if they agree modulo d. */
  lemma ModClose(x: nat, y: nat, d: nat)
    requires d > 0 && x <= y < x + d && x % d == y % d
    ensures x == y
  {
    var a, b := x / d, y / d;
    assert x == a * d + x % d && y == b * d + y % d;
    assert y - x == (b - a) * d;
    MulAtLeast(b - a, d);
  }
}
