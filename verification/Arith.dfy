/** Integer facts shared by the tile and layer geometry. */
module Arith {

  /** `(a + b - 1) / b`, the number of pieces of size `b` that cover `a`. */
  function CeilDiv(a: nat, b: nat): nat
    requires b > 0
  {
    (a + b - 1) / b
  }

  function Pow(b: nat, e: nat): nat {
    if e == 0 then 1 else b * Pow(b, e - 1)
  }

  lemma {:induction false} PowPositive(b: nat, e: nat)
    requires b > 0
    ensures Pow(b, e) > 0
  {
    if e > 0 { PowPositive(b, e - 1); MulPositive(b, Pow(b, e - 1)); }
  }

  lemma MulPositive(a: nat, b: nat)
    requires a > 0 && b > 0
    ensures a * b > 0
  {
  }

  lemma MulMonotone(a: int, b: int, c: nat)
    requires a <= b
    ensures a * c <= b * c
  {
  }

  /** `a / b` and `a % b` are the only quotient and remainder. */
  lemma DivModUnique(a: int, b: nat, q: int, r: int)
    requires b > 0 && a == q * b + r && 0 <= r < b
    ensures a / b == q && a % b == r
  {
    var q', r' := a / b, a % b;
    assert a == q' * b + r' && 0 <= r' < b;
    assert (q - q') * b == r' - r;
    if q > q' { MulMonotone(1, q - q', b); }
    if q < q' { MulMonotone(1, q' - q, b); }
  }

  lemma CeilDivBounds(a: nat, b: nat)
    requires b > 0
    ensures a <= CeilDiv(a, b) * b
    ensures CeilDiv(a, b) > 0 ==> (CeilDiv(a, b) - 1) * b < a
    ensures a > 0 ==> CeilDiv(a, b) > 0
  {
    var q, r := (a + b - 1) / b, (a + b - 1) % b;
    assert a + b - 1 == q * b + r;
    assert (q - 1) * b == q * b - b;
  }

  lemma CeilDivUnique(a: nat, b: nat, q: nat)
    requires b > 0 && a <= q * b && (q > 0 ==> (q - 1) * b < a)
    ensures CeilDiv(a, b) == q
  {
    var c := CeilDiv(a, b);
    CeilDivBounds(a, b);
    if c < q {
      MulMonotone(c, q - 1, b);
    } else if c > q {
      MulMonotone(q, c - 1, b);
    }
  }

  /** Covering pieces with pieces: nested rounding up is one rounding up. */
  lemma CeilDivNested(w: nat, a: nat, b: nat)
    requires a > 0 && b > 0
    ensures a * b > 0 && CeilDiv(CeilDiv(w, a), b) == CeilDiv(w, a * b)
  {
    MulPositive(a, b);
    var q := CeilDiv(w, a);
    var r := CeilDiv(q, b);
    CeilDivBounds(w, a);
    CeilDivBounds(q, b);
    MulMonotone(q, r * b, a);
    assert (r * b) * a == r * (a * b);
    if r > 0 {
      assert (r - 1) * b <= q - 1;
      MulMonotone((r - 1) * b, q - 1, a);
      assert ((r - 1) * b) * a == (r - 1) * (a * b);
    }
    CeilDivUnique(w, a * b, r);
  }

  /** Tiling and reducing commute: ceil(ceil(w/T)/8) = ceil(ceil(w/8)/T). */
  lemma CeilDivSwap(w: nat, a: nat, b: nat)
    requires a > 0 && b > 0
    ensures CeilDiv(CeilDiv(w, a), b) == CeilDiv(CeilDiv(w, b), a)
  {
    CeilDivNested(w, a, b);
    CeilDivNested(w, b, a);
    assert a * b == b * a;
  }

  /** An index lies in the pieces that cover `w` exactly when its piece does. */
  lemma CeilDivIndex(i: nat, a: nat, b: nat)
    requires b > 0
    ensures i < a ==> i / b < CeilDiv(a, b)
    ensures i < CeilDiv(a, b) ==> i * b < a
  {
    CeilDivBounds(a, b);
    var c := CeilDiv(a, b);
    assert i == (i / b) * b + i % b;
    if i < a && i / b >= c {
      MulMonotone(c, i / b, b);
    }
    if i < c {
      MulMonotone(i, c - 1, b);
    }
  }

  lemma Distribute(a: nat, b: nat, c: nat)
    ensures (a + b) * c == a * c + b * c
  {}

  lemma Associate(a: nat, b: nat, c: nat)
    ensures a * b * c == a * (b * c)
  {}

  lemma TimesPredecessor(n: nat, d: nat)
    requires n > 0
    ensures (n - 1) * d == n * d - d
  {}

  lemma NextProduct(n: nat, d: nat)
    ensures 0 <= n * d && (n + 1) * d == n * d + d
  {}

  /** Quotient and remainder of a sum of which one part is a multiple. */
  lemma PlaceOf(a: nat, m: nat, d: nat)
    requires d > 0
    ensures (a * d + m) / d == a + m / d && (a * d + m) % d == m % d
  {
    Distribute(a, m / d, d);
    assert m == m / d * d + m % d;
    DivModUnique(a * d + m, d, a + m / d, m % d);
  }

  lemma Commute(a: int, b: int)
    ensures a * b == b * a
  {}

  lemma ProductNat(a: nat, b: nat, c: nat)
    ensures a * b >= 0 && a * b * c >= 0
  {
    assert a * b >= 0;
  }

  lemma QuotientNat(a: nat, d: nat)
    requires d > 0
    ensures a / d >= 0
  {}
}
