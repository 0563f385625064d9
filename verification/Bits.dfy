/** The bit operators on unsigned numbers of any width. */
module Bits {

  import opened Arith

  predicate Bit(x: nat, i: nat) {
    if i == 0 then x % 2 == 1 else Bit(x / 2, i - 1)
  }

  function Low(b: bool): nat { if b then 1 else 0 }

  /** `x & y` */
  function And(x: nat, y: nat): nat {
    if x == 0 then 0 else 2 * And(x / 2, y / 2) + Low(x % 2 == 1 && y % 2 == 1)
  }

  /** `x & ~y` */
  function AndNot(x: nat, y: nat): nat {
    if x == 0 then 0 else 2 * AndNot(x / 2, y / 2) + Low(x % 2 == 1 && y % 2 == 0)
  }

  /** `x | y` */
  function Or(x: nat, y: nat): nat {
    if x == 0 then y else 2 * Or(x / 2, y / 2) + Low(x % 2 == 1 || y % 2 == 1)
  }

  /** `x << k` */
  function Shl(x: nat, k: nat): nat {
    if k == 0 then x else 2 * Shl(x, k - 1)
  }

  /** `x >> k` */
  function Shr(x: nat, k: nat): nat {
    if k == 0 then x else Shr(x / 2, k - 1)
  }

  lemma {:induction false} BitOfZero(i: nat)
    ensures !Bit(0, i)
  {
    if i > 0 { BitOfZero(i - 1); }
  }

  lemma {:induction false} BitAnd(x: nat, y: nat, i: nat)
    ensures Bit(And(x, y), i) == (Bit(x, i) && Bit(y, i))
  {
    if x == 0 {
      BitOfZero(i);
    } else if i > 0 {
      BitAnd(x / 2, y / 2, i - 1);
    }
  }

  lemma {:induction false} BitAndNot(x: nat, y: nat, i: nat)
    ensures Bit(AndNot(x, y), i) == (Bit(x, i) && !Bit(y, i))
  {
    if x == 0 {
      BitOfZero(i);
    } else if i > 0 {
      BitAndNot(x / 2, y / 2, i - 1);
    }
  }

  lemma {:induction false} BitOr(x: nat, y: nat, i: nat)
    ensures Bit(Or(x, y), i) == (Bit(x, i) || Bit(y, i))
  {
    if x == 0 {
      BitOfZero(i);
    } else if i > 0 {
      BitOr(x / 2, y / 2, i - 1);
    }
  }

  lemma {:induction false} BitShl(x: nat, k: nat, i: nat)
    ensures Bit(Shl(x, k), i) == (i >= k && Bit(x, i - k))
  {
    if k > 0 && i > 0 {
      assert Shl(x, k) / 2 == Shl(x, k - 1);
      BitShl(x, k - 1, i - 1);
    }
  }

  lemma {:induction false} BitShr(x: nat, k: nat, i: nat)
    ensures Bit(Shr(x, k), i) == Bit(x, i + k)
  {
    if k > 0 {
      BitShr(x / 2, k - 1, i);
    }
  }

  /** A number is determined by its bits. */
  lemma {:induction false} SameBits(x: nat, y: nat)
    requires forall i: nat :: Bit(x, i) == Bit(y, i)
    ensures x == y
    decreases x + y
  {
    if x + y > 0 {
      assert Bit(x, 0) == Bit(y, 0);
      forall i: nat ensures Bit(x / 2, i) == Bit(y / 2, i) {
        assert Bit(x, i + 1) == Bit(y, i + 1);
      }
      SameBits(x / 2, y / 2);
    }
  }

  /** `(((1 << (b - 1)) - 1) << 1) | 1`, the largest number of `b` bits. */
  function Mask(b: nat): nat
    requires b > 0
  {
    ShlPositive(1, b - 1);
    Or(Shl(Shl(1, b - 1) - 1, 1), 1)
  }

  lemma {:induction false} ShlPositive(x: nat, k: nat)
    ensures Shl(x, k) == x * Pow(2, k) && Pow(2, k) > 0
  {
    if k > 0 { ShlPositive(x, k - 1); }
  }

  lemma {:induction false} ShrDivides(x: nat, k: nat)
    ensures Pow(2, k) > 0 && Shr(x, k) == x / Pow(2, k)
  {
    PowPositive(2, k);
    if k > 0 {
      ShrDivides(x / 2, k - 1);
      DivDiv(x, 2, Pow(2, k - 1));
    }
  }

  lemma DivDiv(x: nat, a: nat, b: nat)
    requires a > 0 && b > 0
    ensures a * b > 0 && (x / a) / b == x / (a * b)
  {
    MulPositive(a, b);
    var q, r, s := (x / a) / b, (x / a) % b, x % a;
    assert x / a == q * b + r;
    assert x == (x / a) * a + s;
    assert x == (q * b + r) * a + s == q * (a * b) + (r * a + s);
    MulMonotone(r + 1, b, a);
    assert (r + 1) * a == r * a + a;
    MulMonotone(0, r, a);
    DivModUnique(x, a * b, q, r * a + s);
  }

  lemma {:induction false} MaskBits(b: nat, i: nat)
    requires b > 0
    ensures Mask(b) == Pow(2, b) - 1 && Bit(Mask(b), i) == (i < b)
  {
    ShlPositive(1, b - 1);
    var n := Shl(1, b - 1) - 1;
    assert Shl(n, 1) == 2 * n;
    OrOne(n);
    if b == 1 {
      BitOr(0, 1, i);
      if i > 0 { BitOfZero(i - 1); }
    } else {
      MaskBits(b - 1, if i > 0 then i - 1 else 0);
    }
  }

  lemma OrOne(n: nat)
    ensures Or(2 * n, 1) == 2 * n + 1
  {
    if n > 0 {
      OrZero(n);
    }
  }

  lemma {:induction false} OrZero(n: nat)
    ensures Or(n, 0) == n
  {
    if n > 0 { OrZero(n / 2); }
  }

  /** `x & mask` is the remainder. */
  lemma AndMask(x: nat, b: nat)
    requires b > 0
    ensures Pow(2, b) > 0 && And(x, Mask(b)) == x % Pow(2, b)
  {
    PowPositive(2, b);
    MaskBits(b, 0);
    AndOnes(x, Mask(b), Pow(2, b), b);
    Commute(Shr(x, b), Pow(2, b));
    DivModUnique(x, Pow(2, b), Shr(x, b), And(x, Mask(b)));
  }

  lemma {:induction false} AndOnes(x: nat, m: nat, p: nat, b: nat)
    requires p == Pow(2, b) && m == p - 1
    ensures And(x, m) < p && x == p * Shr(x, b) + And(x, m)
  {
    if b == 0 {
      AndZero(x);
    } else {
      var h := Pow(2, b - 1);
      PowPositive(2, b - 1);
      AndOnes(x / 2, h - 1, h, b - 1);
      TwiceTimes(h, Shr(x / 2, b - 1));
      if x > 0 { AndStep(x, m); }
    }
  }

  lemma TwiceTimes(a: int, b: int)
    ensures 2 * a * b == 2 * (a * b)
  {}

  lemma AndStep(x: nat, m: nat)
    requires x > 0 && m % 2 == 1
    ensures And(x, m) == 2 * And(x / 2, m / 2) + x % 2
  {}

  lemma {:induction false} AndZero(x: nat)
    ensures And(x, 0) == 0
  {
    if x > 0 { AndZero(x / 2); }
  }
}
