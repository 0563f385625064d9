/**
 * What the pyramid shows after several layers, for the operations that keep
 * one bit per pixel and for those that average.
 */
module PyramidOps {

  import opened Arith
  import opened Pyramid
  import opened Rectangles

  // ------------------------------------------------------------------
  // One bit per pixel

  /** A target pixel is set when any of the 64 source pixels is. */
  ghost predicate Clips(c: Config) {
    forall k: int, b: seq<Pixel> {:trigger c.op(k, b)} ::
      |b| == 64 ==> c.op(k, b) == if exists n :: 0 <= n < 64 && b[n] > 0 then 1 else 0
  }

  /** Image pixel (x, y) lies under pixel (X, Y) of layer `k`. */
  predicate Under(k: nat, X: nat, Y: nat, x: nat, y: nat) {
    PowPositive(8, k);
    x / Pow(8, k) == X && y / Pow(8, k) == Y
  }

  ghost predicate AnySet(c: Config, k: nat, X: nat, Y: nat) {
    exists x: nat, y: nat {:trigger Under(k, X, Y, x, y)} :: Under(k, X, Y, x, y) && Padded(c, x, y) > 0
  }

  lemma UnderNext(k: nat, x: nat)
    ensures Pow(8, k) > 0 && x / Pow(8, k + 1) == x / Pow(8, k) / 8
  {
    PowPositive(8, k);
    var p := Pow(8, k);
    var q, r := x / p, x % p;
    assert x == q * p + r;
    assert q == q / 8 * 8 + q % 8;
    assert x == q / 8 * (8 * p) + (q % 8 * p + r) by { assert q * p == q / 8 * (8 * p) + q % 8 * p; }
    MulMonotone(q % 8, 7, p);
    MulMonotone(0, q % 8, p);
    DivModUnique(x, 8 * p, q / 8, q % 8 * p + r);
  }

  lemma BlockIndex(u: nat, X: nat) returns (d: nat)
    requires u / 8 == X
    ensures d < 8 && u == 8 * X + d
  {
    d := u % 8;
  }

  /** Through any number of layers: a pixel is set exactly when some pixel of the 8^k x 8^k image pixels under it is. */
  lemma {:induction false} ClippedShowsAny(c: Config, k: nat, X: nat, Y: nat)
    requires Clips(c)
    ensures Flat(c, k, X, Y) > 0 <==> AnySet(c, k, X, Y)
    decreases k, 0
  {
    if k == 0 {
      assert Under(0, X, Y, X, Y);
    } else {
      var b := FlatBlock(c, k - 1, X, Y);
      if Flat(c, k, X, Y) > 0 {
        var n :| 0 <= n < 64 && b[n] > 0;
        AnyUp(c, k - 1, X, Y, n);
      }
      if AnySet(c, k, X, Y) {
        var n := AnyDown(c, k - 1, X, Y);
        assert b[n] > 0;
      }
    }
  }

  lemma AnyUp(c: Config, k: nat, X: nat, Y: nat, n: nat)
    requires Clips(c) && n < 64 && FlatBlock(c, k, X, Y)[n] > 0
    ensures AnySet(c, k + 1, X, Y)
    decreases k, 1
  {
    ClippedShowsAny(c, k, 8 * X + n % 8, 8 * Y + n / 8);
    var x: nat, y: nat :| Under(k, 8 * X + n % 8, 8 * Y + n / 8, x, y) && Padded(c, x, y) > 0;
    UnderNext(k, x);
    UnderNext(k, y);
    assert Under(k + 1, X, Y, x, y);
  }

  lemma AnyDown(c: Config, k: nat, X: nat, Y: nat) returns (n: nat)
    requires Clips(c) && AnySet(c, k + 1, X, Y)
    ensures n < 64 && FlatBlock(c, k, X, Y)[n] > 0
    decreases k, 1
  {
    var x: nat, y: nat :| Under(k + 1, X, Y, x, y) && Padded(c, x, y) > 0;
    UnderNext(k, x);
    UnderNext(k, y);
    var dx := BlockIndex(x / Pow(8, k), X);
    var dy := BlockIndex(y / Pow(8, k), Y);
    n := 8 * dy + dx;
    assert Under(k, 8 * X + n % 8, 8 * Y + n / 8, x, y);
    ClippedShowsAny(c, k, 8 * X + n % 8, 8 * Y + n / 8);
  }

  // ------------------------------------------------------------------
  // Averages

  function TotalTo(b: seq<int>, n: nat): int
    requires n <= |b|
  {
    if n == 0 then 0 else TotalTo(b, n - 1) + b[n - 1]
  }

  /** Every layer averages, rounding down. */
  ghost predicate Averages(c: Config) {
    forall k: int, b: seq<Pixel> {:trigger c.op(k, b)} :: |b| == 64 ==> c.op(k, b) == TotalTo(b, 64) / 64
  }

  function Source(c: Config): Image { (x, y, ch) => Padded(c, x, y) }

  /** The sum of the a x a pixels at (a * X, a * Y). */
  function Square(img: Image, a: nat, X: nat, Y: nat): int {
    RectTotal(img, 0, a * X, a * X + a, a * Y, a * Y + a)
  }

  /** The squares under the 64 pixels of a block. */
  function Squares(img: Image, a: nat, X: nat, Y: nat): (s: seq<int>)
    ensures |s| == 64
  {
    seq(64, n requires 0 <= n < 64 => Square(img, a, 8 * X + n % 8, 8 * Y + n / 8))
  }

  /** `n / 8` rows of squares, and `n % 8` squares of the next row. */
  function Partial(img: Image, a: nat, l: int, t: int, n: nat): int {
    RectTotal(img, 0, l, l + 8 * a, t, t + n / 8 * a)
    + RectTotal(img, 0, l, l + n % 8 * a, t + n / 8 * a, t + n / 8 * a + a)
  }

  lemma EightTimes(a: nat, X: nat, d: nat)
    ensures a * (8 * X + d) == 8 * (a * X) + d * a && (d + 1) * a == d * a + a && 0 <= d * a
  {}

  lemma EmptyTotal(img: Image, l: int, t: int, b: int)
    ensures RectTotal(img, 0, l, l, t, b) == 0
  {
    EmptyRect(img, 0, l, t, b);
  }

  lemma PartialStep(img: Image, a: nat, l: int, t: int, n: nat)
    requires n < 64
    ensures var x, y := l + n % 8 * a, t + n / 8 * a;
      Partial(img, a, l, t, n + 1) == Partial(img, a, l, t, n) + RectTotal(img, 0, x, x + a, y, y + a)
  {
    var r, d := n / 8, n % 8;
    EightTimes(a, 0, d);
    EightTimes(a, 0, r);
    RectSplitX(img, 0, l, l + d * a, l + d * a + a, t + r * a, t + r * a + a);
    if d < 7 {
      assert (n + 1) / 8 == r && (n + 1) % 8 == d + 1;
    } else {
      assert (n + 1) / 8 == r + 1 && (n + 1) % 8 == 0;
      EmptyTotal(img, l, t + (r + 1) * a, t + (r + 1) * a + a);
      RectSplitY(img, 0, l, l + 8 * a, t, t + r * a, t + r * a + a);
    }
  }

  lemma SquareAt(img: Image, a: nat, X: nat, Y: nat, n: nat, x: int, y: int)
    requires n < 64 && x == 8 * (a * X) + n % 8 * a && y == 8 * (a * Y) + n / 8 * a
    ensures Squares(img, a, X, Y)[n] == RectTotal(img, 0, x, x + a, y, y + a)
  {
    EightTimes(a, X, n % 8);
    EightTimes(a, Y, n / 8);
  }

  lemma PartialStart(img: Image, a: nat, l: int, t: int)
    ensures Partial(img, a, l, t, 0) == 0
  {
    EmptyTotal(img, l, t, t + a);
  }

  lemma {:induction false} SquaresAdd(img: Image, a: nat, X: nat, Y: nat, l: int, t: int, n: nat)
    requires n <= 64 && l == 8 * (a * X) && t == 8 * (a * Y)
    ensures TotalTo(Squares(img, a, X, Y), n) == Partial(img, a, l, t, n)
  {
    if n == 0 {
      PartialStart(img, a, l, t);
    } else {
      SquaresAdd(img, a, X, Y, l, t, n - 1);
      PartialStep(img, a, l, t, n - 1);
      SquareAt(img, a, X, Y, n - 1, l + (n - 1) % 8 * a, t + (n - 1) / 8 * a);
    }
  }

  /** A square of the next layer is the sum of the 64 squares under it. */
  lemma SquareOfSquares(img: Image, a: nat, X: nat, Y: nat)
    ensures Square(img, 8 * a, X, Y) == TotalTo(Squares(img, a, X, Y), 64)
  {
    SquaresAdd(img, a, X, Y, 8 * (a * X), 8 * (a * Y), 64);
    EmptyTotal(img, 8 * (a * X), 8 * (a * Y) + 8 * a, 8 * (a * Y) + 8 * a + a);
    assert 8 * a * X == 8 * (a * X) && 8 * a * Y == 8 * (a * Y);
  }

  /** m * F <= S <= m * (F + k) for each of the first `n` values. */
  lemma {:induction false} SumBounds(s: seq<int>, f: seq<int>, m: nat, k: nat, n: nat)
    requires n <= |s| == |f| && forall i | 0 <= i < n :: m * f[i] <= s[i] <= m * (f[i] + k)
    ensures m * TotalTo(f, n) <= TotalTo(s, n) <= m * (TotalTo(f, n) + n * k)
  {
    if n > 0 {
      SumBounds(s, f, m, k, n - 1);
      var F, x := TotalTo(f, n - 1), f[n - 1];
      AddBounds(m, F, x);
      AddBounds(m, F + (n - 1) * k, x + k);
      assert F + (n - 1) * k + (x + k) == TotalTo(f, n) + n * k;
    }
  }

  lemma AddBounds(m: int, a: int, b: int)
    ensures m * (a + b) == m * a + m * b
  {}

  /** One more rounding down loses less than one. */
  lemma RoundBounds(m: nat, total: int, q: int, s: int, k: nat)
    requires m > 0 && q == total / 64 && m * total <= s <= m * (total + 64 * k)
    ensures 64 * m * q <= s < 64 * m * (q + k + 1)
  {
    MulOrder(m, 64 * q, total);
    MulOrder(m, total + 64 * k, 64 * q + 63 + 64 * k);
    MulOrder(m, 64 * q + 63 + 64 * k + 1, 64 * (q + k + 1));
    AddBounds(m, 64 * q + 63 + 64 * k, 1);
    assert m * (64 * q) == 64 * m * q;
    assert m * (64 * (q + k + 1)) == 64 * m * (q + k + 1);
  }

  lemma MulOrder(m: nat, a: int, b: int)
    requires a <= b
    ensures m * a <= m * b
  {}

  /**
   * Through `k` layers the value shown is the mean of the 8^k x 8^k image pixels
   * under it, rounded down, and at most `k` too low.
   */
  lemma {:induction false} AverageIsClose(c: Config, k: nat, X: nat, Y: nat)
    requires Averages(c)
    ensures var area := Pow(64, k);
      area * Flat(c, k, X, Y) <= Square(Source(c), Pow(8, k), X, Y) <= area * (Flat(c, k, X, Y) + k)
    ensures k > 0 ==> Square(Source(c), Pow(8, k), X, Y) < Pow(64, k) * (Flat(c, k, X, Y) + k)
    decreases k
  {
    if k == 0 {
      OnePixel(Source(c), X, Y);
    } else {
      var s, f := Squares(Source(c), Pow(8, k - 1), X, Y), FlatBlock(c, k - 1, X, Y);
      forall i | 0 <= i < 64 ensures Pow(64, k - 1) * f[i] <= s[i] <= Pow(64, k - 1) * (f[i] + (k - 1)) {
        AverageIsClose(c, k - 1, 8 * X + i % 8, 8 * Y + i / 8);
      }
      SumBounds(s, f, Pow(64, k - 1), k - 1, 64);
      SquareOfSquares(Source(c), Pow(8, k - 1), X, Y);
      PowPositive(64, k - 1);
      RoundBounds(Pow(64, k - 1), TotalTo(f, 64), Flat(c, k, X, Y), Square(Source(c), Pow(8, k), X, Y), k - 1);
    }
  }

  lemma OnePixel(img: Image, X: nat, Y: nat)
    ensures Square(img, 1, X, Y) == img(X, Y, 0)
  {
    assert RowTotal(img, 0, Y, X, X) == 0;
    assert RowTotal(img, 0, Y, X, X + 1) == img(X, Y, 0);
    assert RectTotal(img, 0, X, X + 1, Y, Y) == 0;
  }
}
