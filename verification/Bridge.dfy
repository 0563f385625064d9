/**
 * The operations on tile buffers compute the operations of the pyramid: one
 * call of `reduce` leaves in the target array what all the writes of one job
 * leave in the target tile.
 */
module Bridge {

  import opened Arith
  import opened Layers
  import opened Pyramid
  import opened Reduce
  import Clipped
  import LP = LoadProtocol
  import PyramidOps

  // ------------------------------------------------------------------
  // Pixels as numbers

  /** The number whose digits to the base 256, lowest first, are the samples. */
  function Encode(v: seq<nat>): nat {
    if v == [] then 0 else v[0] + 256 * Encode(v[1..])
  }

  function Digit(p: int, ch: nat): nat
    decreases ch
  {
    if ch == 0 then p % 256 else Digit(p / 256, ch - 1)
  }

  /** The digits of a pixel are its samples. */
  lemma {:induction false} DigitOfEncode(v: seq<nat>, ch: nat)
    requires Bytes(v)
    ensures Digit(Encode(v), ch) == ByteAt(v, ch)
    decreases ch
  {
    if v == [] {
      if ch > 0 { DigitOfEncode([], ch - 1); }
    } else {
      DivModUnique(Encode(v), 256, Encode(v[1..]), v[0]);
      if ch > 0 { DigitOfEncode(v[1..], ch - 1); }
    }
  }

  /** The samples of pixel (X, Y). */
  function SamplesAt(flat: seq<nat>, width: nat, channels: nat, X: nat, Y: nat): (v: seq<nat>)
    ensures |v| == channels
  {
    seq(channels, ch requires 0 <= ch < channels => PixelSample(flat, width, channels, X, Y, ch))
  }

  /** Pixel (X, Y) of a tile buffer in format `f`. */
  function PixelOf(f: Kind, s: seq<nat>, T: nat, X: nat, Y: nat): Pixel {
    Encode(SamplesAt(TileSamples(f, s), T, Channels(f), X, Y))
  }

  /** Array `s` in format `f` holds the pixels of tile `t`. */
  ghost predicate Shows(f: Kind, s: seq<nat>, T: nat, b: Buffers, t: Tile) {
    forall x: nat, y: nat | x < T && y < T :: Has(b, t, x, y) && Pix(b, t, x, y) == PixelOf(f, s, T, x, y)
  }

  lemma SampleAtMost(f: Kind, s: seq<nat>, T: nat, X: nat, Y: nat, ch: nat)
    ensures PixelSample(TileSamples(f, s), T, Channels(f), X, Y, ch) <= MaxSample(f) < 256
  {
    SamplesInRange(f, s);
  }

  lemma DigitOfPixel(f: Kind, s: seq<nat>, T: nat, X: nat, Y: nat, ch: nat)
    requires ch < Channels(f)
    ensures Digit(PixelOf(f, s, T, X, Y), ch) == PixelSample(TileSamples(f, s), T, Channels(f), X, Y, ch)
  {
    var v := SamplesAt(TileSamples(f, s), T, Channels(f), X, Y);
    forall i | 0 <= i < |v| ensures v[i] < 256 { SampleAtMost(f, s, T, X, Y, i); }
    DigitOfEncode(v, ch);
  }

  // ------------------------------------------------------------------
  // All the writes of one job

  /** The first `n` writes of the job that reduces tile `t`. */
  function JobWrites(c: Config, b: Buffers, t: Tile, n: nat): Buffers
    requires t.Tile? && c.side > 0
  {
    if n == 0 then b else ReducedPixel(c, JobWrites(c, b, t, n - 1), t, n - 1)
  }

  /** Pixel (X, Y) of the target lies in the place of tile `t`. */
  predicate InSlot(c: Config, t: Tile, X: int, Y: int)
    requires t.Tile?
  {
    0 <= X - t.i % 8 * c.side < c.side && 0 <= Y - t.j % 8 * c.side < c.side
  }

  /** What the job stores at pixel (X, Y) of its target. */
  function JobPixel(c: Config, b: Buffers, t: Tile, X: int, Y: int): Pixel
    requires t.Tile?
  {
    c.op(t.k, SourceBlock(b, t, X - t.i % 8 * c.side, Y - t.j % 8 * c.side))
  }

  lemma {:induction false} OthersKept(c: Config, b: Buffers, t: Tile, n: nat, u: Tile, x: int, y: int)
    requires t.Tile? && c.side > 0 && u != LP.Target(t)
    ensures Pix(JobWrites(c, b, t, n), u, x, y) == Pix(b, u, x, y)
  {
    if n > 0 {
      OthersKept(c, b, t, n - 1, u, x, y);
      var p, q := (n - 1) % c.side, (n - 1) / c.side;
      var was := JobWrites(c, b, t, n - 1);
      StoreEffect(was, LP.Target(t), t.i % 8 * c.side + p, t.j % 8 * c.side + q, c.op(t.k, SourceBlock(was, t, p, q)),
                  u, x, y);
    }
  }

  lemma SourceKept(c: Config, b: Buffers, t: Tile, n: nat, px: int, py: int)
    requires t.Tile? && c.side > 0
    ensures SourceBlock(JobWrites(c, b, t, n), t, px, py) == SourceBlock(b, t, px, py)
  {
    var now, was := SourceBlock(JobWrites(c, b, t, n), t, px, py), SourceBlock(b, t, px, py);
    forall m | 0 <= m < 64 ensures now[m] == was[m] {
      OthersKept(c, b, t, n, t, 8 * px + m % 8, 8 * py + m / 8);
    }
  }

  lemma {:induction false} ShapeKept(c: Config, b: Buffers, t: Tile, n: nat, u: Tile, x: int, y: int)
    requires t.Tile? && c.side > 0
    ensures Has(JobWrites(c, b, t, n), u, x, y) <==> Has(b, u, x, y)
  {
    if n > 0 {
      ShapeKept(c, b, t, n - 1, u, x, y);
      var p, q := (n - 1) % c.side, (n - 1) / c.side;
      var was := JobWrites(c, b, t, n - 1);
      StoreEffect(was, LP.Target(t), t.i % 8 * c.side + p, t.j % 8 * c.side + q, c.op(t.k, SourceBlock(was, t, p, q)),
                  u, x, y);
    }
  }

  /** Pixel (px, py) of a place is stored by write number py * side + px. */
  predicate Written(side: nat, n: nat, px: int, py: int) {
    0 <= px < side && 0 <= py && py * side + px < n
  }

  lemma WrittenNext(side: nat, n: nat, px: int, py: int)
    requires side > 0
    ensures Written(side, n + 1, px, py) == (Written(side, n, px, py) || (px == n % side && py == n / side))
    ensures !Written(side, 0, px, py)
  {
    assert n == n / side * side + n % side;
    if 0 <= px < side && 0 <= py {
      MulMonotone(0, py, side);
      if n == py * side + px { DivModUnique(n, side, py, px); }
    }
  }

  /** The last write completes the place. */
  lemma AllWritten(side: nat, px: int, py: int)
    ensures Written(side, side * side, px, py) <==> 0 <= px < side && 0 <= py < side
  {
    if 0 <= px < side && 0 <= py {
      if py < side {
        MulMonotone(py + 1, side, side);
        NextProduct(py, side);
      } else {
        MulMonotone(side, py, side);
      }
    }
  }

  /** Write number `n` stores one pixel, (px, py) of the place. */
  lemma OneWrite(c: Config, b: Buffers, t: Tile, n: nat, X: int, Y: int, px: int, py: int)
    requires t.Tile? && c.side > 0 && Has(b, LP.Target(t), X, Y)
    requires px == X - t.i % 8 * c.side && py == Y - t.j % 8 * c.side
    ensures Pix(JobWrites(c, b, t, n + 1), LP.Target(t), X, Y) ==
            if px == n % c.side && py == n / c.side then c.op(t.k, SourceBlock(b, t, px, py))
            else Pix(JobWrites(c, b, t, n), LP.Target(t), X, Y)
  {
    var p, q := n % c.side, n / c.side;
    var was := JobWrites(c, b, t, n);
    SourceKept(c, b, t, n, p, q);
    ShapeKept(c, b, t, n, LP.Target(t), X, Y);
    StoreEffect(was, LP.Target(t), t.i % 8 * c.side + p, t.j % 8 * c.side + q, c.op(t.k, SourceBlock(was, t, p, q)),
                LP.Target(t), X, Y);
  }

  lemma {:induction false} FirstWrites(c: Config, b: Buffers, t: Tile, n: nat, X: int, Y: int, px: int, py: int)
    requires t.Tile? && c.side > 0 && Has(b, LP.Target(t), X, Y)
    requires px == X - t.i % 8 * c.side && py == Y - t.j % 8 * c.side
    ensures Pix(JobWrites(c, b, t, n), LP.Target(t), X, Y) ==
            if Written(c.side, n, px, py) then c.op(t.k, SourceBlock(b, t, px, py)) else Pix(b, LP.Target(t), X, Y)
  {
    if n == 0 {
      WrittenNext(c.side, 0, px, py);
    } else {
      FirstWrites(c, b, t, n - 1, X, Y, px, py);
      OneWrite(c, b, t, n - 1, X, Y, px, py);
      WrittenNext(c.side, n - 1, px, py);
    }
  }

  /** A job sets exactly the pixels of its place. */
  lemma WholeJob(c: Config, b: Buffers, t: Tile, X: int, Y: int)
    requires t.Tile? && c.side > 0 && Has(b, LP.Target(t), X, Y)
    ensures Has(JobWrites(c, b, t, c.side * c.side), LP.Target(t), X, Y)
    ensures Pix(JobWrites(c, b, t, c.side * c.side), LP.Target(t), X, Y) ==
            if InSlot(c, t, X, Y) then JobPixel(c, b, t, X, Y) else Pix(b, LP.Target(t), X, Y)
  {
    var px, py := X - t.i % 8 * c.side, Y - t.j % 8 * c.side;
    ShapeKept(c, b, t, c.side * c.side, LP.Target(t), X, Y);
    FirstWrites(c, b, t, c.side * c.side, X, Y, px, py);
    AllWritten(c.side, px, py);
  }

  /** Array `now` is array `was` after the place of tile `t` has got the pixels of its job. */
  ghost predicate PlaceGets(c: Config, f: Kind, was: seq<nat>, now: seq<nat>, b: Buffers, t: Tile)
    requires t.Tile?
  {
    forall X: nat, Y: nat | X < c.T() && Y < c.T() ::
      PixelOf(f, now, c.T(), X, Y) ==
        if InSlot(c, t, X, Y) then JobPixel(c, b, t, X, Y) else PixelOf(f, was, c.T(), X, Y)
  }

  lemma JobShown(c: Config, f: Kind, was: seq<nat>, now: seq<nat>, b: Buffers, t: Tile)
    requires t.Tile? && c.side > 0 && PlaceGets(c, f, was, now, b, t) && Shows(f, was, c.T(), b, LP.Target(t))
    ensures Shows(f, now, c.T(), JobWrites(c, b, t, c.side * c.side), LP.Target(t))
  {
    var u, after := LP.Target(t), JobWrites(c, b, t, c.side * c.side);
    forall x: nat, y: nat | x < c.T() && y < c.T()
      ensures Has(after, u, x, y) && Pix(after, u, x, y) == PixelOf(f, now, c.T(), x, y)
    {
      assert Has(b, u, x, y);
      WholeJob(c, b, t, x, y);
    }
  }

  // ------------------------------------------------------------------
  // Averages

  /** The sum of the samples of one channel over the first `n` pixels. */
  function DigitTotal(block: seq<Pixel>, n: nat, ch: nat): nat
    requires n <= |block|
  {
    if n == 0 then 0 else DigitTotal(block, n - 1, ch) + Digit(block[n - 1], ch)
  }

  /** Channel by channel the mean of 64 pixels, on the scale from 0 to 255. */
  function MeanPixel(f: Kind, block: seq<Pixel>): Pixel
    requires |block| == 64
  {
    Encode(seq(Channels(f), ch requires 0 <= ch => Mean(DigitTotal(block, 64, ch), MaxSample(f))))
  }

  predicate InRange(f: Kind, block: seq<Pixel>) {
    forall i | 0 <= i < |block| :: 0 <= block[i] < Pow(256, Channels(f))
  }

  /** Layer `k` of the pyramid holds pixels of format `f` and averages them. */
  ghost predicate MeansAt(c: Config, k: int, f: Kind) {
    forall block: seq<Pixel> {:trigger c.op(k, block)} ::
      |block| == 64 && InRange(f, block) ==> c.op(k, block) == MeanPixel(f, block)
  }

  /** The format of the tiles that a reduction writes. */
  function NextKind(f: Kind): (n: Kind)
    ensures Channels(n) == Channels(f) && PerByte(n) == 1
  {
    match f
    case Bw1 => Grey8
    case Grey8 => Grey8
    case Rgb24 => Rgb24
    case _ => Cmyk32
  }

  lemma {:induction false} EncodeInRange(v: seq<nat>)
    requires Bytes(v)
    ensures Encode(v) < Pow(256, |v|)
  {
    if v != [] { EncodeInRange(v[1..]); }
  }

  lemma PixelInRange(f: Kind, s: seq<nat>, T: nat, X: nat, Y: nat)
    ensures PixelOf(f, s, T, X, Y) < Pow(256, Channels(f))
  {
    var v := SamplesAt(TileSamples(f, s), T, Channels(f), X, Y);
    forall i | 0 <= i < |v| ensures v[i] < 256 { SampleAtMost(f, s, T, X, Y, i); }
    EncodeInRange(v);
  }

  lemma BlockPixel(f: Kind, s: seq<nat>, T: nat, b: Buffers, t: Tile, px: nat, py: nat, n: nat)
    requires Shows(f, s, T, b, t) && 8 * px + 8 <= T && 8 * py + 8 <= T && n < 64
    ensures SourceBlock(b, t, px, py)[n] == PixelOf(f, s, T, 8 * px + n % 8, 8 * py + n / 8)
  {
    assert Pix(b, t, 8 * px + n % 8, 8 * py + n / 8) == PixelOf(f, s, T, 8 * px + n % 8, 8 * py + n / 8);
  }

  lemma BlockInRange(f: Kind, s: seq<nat>, T: nat, b: Buffers, t: Tile, px: nat, py: nat)
    requires Shows(f, s, T, b, t) && 8 * px + 8 <= T && 8 * py + 8 <= T
    ensures InRange(f, SourceBlock(b, t, px, py))
  {
    forall n | 0 <= n < 64 ensures 0 <= SourceBlock(b, t, px, py)[n] < Pow(256, Channels(f)) {
      BlockPixel(f, s, T, b, t, px, py, n);
      PixelInRange(f, s, T, 8 * px + n % 8, 8 * py + n / 8);
    }
  }

  /** The digits of `block` are the samples of the 8x8 pixels at (X, Y). */
  ghost predicate HoldsSamples(block: seq<Pixel>, flat: seq<nat>, width: nat, channels: nat, X: nat, Y: nat, ch: nat) {
    |block| == 64
    && forall n: nat | n < 64 :: Digit(block[n], ch) == PixelSample(flat, width, channels, X + n % 8, Y + n / 8, ch)
  }

  lemma BlockHolds(f: Kind, s: seq<nat>, T: nat, b: Buffers, t: Tile, px: nat, py: nat, ch: nat)
    requires Shows(f, s, T, b, t) && 8 * px + 8 <= T && 8 * py + 8 <= T && ch < Channels(f)
    ensures HoldsSamples(SourceBlock(b, t, px, py), TileSamples(f, s), T, Channels(f), 8 * px, 8 * py, ch)
  {
    forall n: nat | n < 64
      ensures Digit(SourceBlock(b, t, px, py)[n], ch) ==
              PixelSample(TileSamples(f, s), T, Channels(f), 8 * px + n % 8, 8 * py + n / 8, ch)
    {
      BlockPixel(f, s, T, b, t, px, py, n);
      DigitOfPixel(f, s, T, 8 * px + n % 8, 8 * py + n / 8, ch);
    }
  }

  /** Adding the digits of the block adds the samples of the pixels, row by row. */
  lemma {:induction false} DigitsAreSamples(block: seq<Pixel>, flat: seq<nat>, width: nat, channels: nat, X: nat,
                                            Y: nat, ch: nat,
                                            r: nat, d: nat, n: nat)
    requires HoldsSamples(block, flat, width, channels, X, Y, ch) && d <= 8 && n == 8 * r + d <= 64
    ensures DigitTotal(block, n, ch) ==
            PixelBlock(flat, width, channels, X, Y, r, ch) + PixelRow(flat, width, channels, X, Y + r, d, ch)
    decreases r, d
  {
    if d > 0 {
      DigitsAreSamples(block, flat, width, channels, X, Y, ch, r, d - 1, n - 1);
      OneDigit(block, flat, width, channels, X, Y, ch, r, d - 1, n - 1);
    } else if r > 0 {
      DigitsAreSamples(block, flat, width, channels, X, Y, ch, r - 1, 8, n);
    }
  }

  lemma OneDigit(block: seq<Pixel>, flat: seq<nat>, width: nat, channels: nat, X: nat, Y: nat, ch: nat, r: nat,
                 d: nat, n: nat)
    requires HoldsSamples(block, flat, width, channels, X, Y, ch) && d < 8 && n == 8 * r + d < 64
    ensures Digit(block[n], ch) == PixelSample(flat, width, channels, X + d, Y + r, ch)
  {
    assert n % 8 == d && n / 8 == r;
  }

  /** The samples that the operation stores for 8x8 pixels. */
  function Averages(f: Kind, s: seq<nat>, T: nat, X: nat, Y: nat): (v: seq<nat>)
    ensures |v| == Channels(f)
  {
    seq(Channels(f), ch requires 0 <= ch => Average(f, s, T, X, Y, ch))
  }

  lemma MeanOfBlock(f: Kind, s: seq<nat>, T: nat, b: Buffers, t: Tile, px: nat, py: nat)
    requires Shows(f, s, T, b, t) && 8 * px + 8 <= T && 8 * py + 8 <= T
    ensures MeanPixel(f, SourceBlock(b, t, px, py)) == Encode(Averages(f, s, T, 8 * px, 8 * py))
  {
    var v := seq(Channels(f), ch requires 0 <= ch => Mean(DigitTotal(SourceBlock(b, t, px, py), 64, ch), MaxSample(f)));
    var w := Averages(f, s, T, 8 * px, 8 * py);
    forall ch | 0 <= ch < Channels(f) ensures v[ch] == w[ch] {
      BlockHolds(f, s, T, b, t, px, py, ch);
      DigitsAreSamples(SourceBlock(b, t, px, py), TileSamples(f, s), T, Channels(f), 8 * px, 8 * py, ch, 8, 0, 64);
    }
    assert v == w;
  }

  /** With one sample per byte the samples are the bytes. */
  lemma SampleIsByte(f: Kind, s: seq<nat>, i: nat)
    requires PerByte(f) == 1 && Bytes(s)
    ensures ByteAt(TileSamples(f, s), i) == ByteAt(s, i)
  {
    FlatSample(f, s, i, i, 0);
    if i < |s| {
      PartInside(f, s, i, 0);
      Whole(f, s[i]);
    } else {
      PartOutside(f, s, i, 0);
      Whole(f, 0);
    }
  }

  lemma SampleIndex(flat: seq<nat>, g: Place, X: nat, Y: nat, ch: nat)
    ensures PixelSample(flat, g.width, g.channels, X, Y, ch) == ByteAt(flat, Index(g, X, Y, ch))
  {}

  lemma StoredSample(f: Kind, g: Place, s: seq<nat>, X: nat, Y: nat, ch: nat)
    requires PerByte(f) == 1 && Bytes(s)
    ensures PixelSample(TileSamples(f, s), g.width, g.channels, X, Y, ch) == ByteAt(s, Index(g, X, Y, ch))
  {
    var p := Index(g, X, Y, ch);
    SampleIndex(TileSamples(f, s), g, X, Y, ch);
    SampleIsByte(f, s, p);
  }

  /** What ReduceTile promises of its target. */
  ghost predicate ReducedInto(f: Kind, T: nat, x: nat, y: nat, source: seq<nat>, was: seq<nat>, now: seq<nat>) {
    var g := PlaceAt(T, T, Channels(f), x, y);
    && g.Valid() && |now| == |was|
    && forall p: nat | p < |was| :: now[p] == if InPlace(g, p) then Reduced(f, g, source, p) else was[p]
  }

  /** The bytes of one pixel of the target: averages inside the place, unchanged outside. */
  lemma BytesOfPixel(f: Kind, side: nat, x: nat, y: nat, source: seq<nat>, was: seq<nat>, now: seq<nat>, X: nat,
                     Y: nat, ch: nat)
    requires side > 0 && ch < Channels(f) && X < 8 * side && Y < 8 * side
    requires |was| == 8 * side * (8 * side * Channels(f))
    requires ReducedInto(f, 8 * side, x, y, source, was, now)
    ensures var g := PlaceAt(8 * side, 8 * side, Channels(f), x, y);
      && Index(g, X, Y, ch) < |was|
      && now[Index(g, X, Y, ch)] ==
         if x * side <= X < x * side + side && y * side <= Y < y * side + side
         then Average(f, source, 8 * side, 8 * (X - x * side), 8 * (Y - y * side), ch) else was[Index(g, X, Y, ch)]
  {
    var g := PlaceAt(8 * side, 8 * side, Channels(f), x, y);
    IndexInTarget(g, 8 * side, X, Y, ch);
    IndexParts(g, X, Y, ch);
  }

  lemma BytesStay(f: Kind, T: nat, x: nat, y: nat, source: seq<nat>, was: seq<nat>, now: seq<nat>)
    requires ReducedInto(f, T, x, y, source, was, now) && Bytes(was)
    ensures Bytes(now)
  {
    var g := PlaceAt(T, T, Channels(f), x, y);
    forall p | 0 <= p < |now| ensures now[p] < 256 {
      if InPlace(g, p) {
        AverageIsByte(f, source, 8 * g.w8, 8 * (Col(g, p) - g.x0), 8 * (Row(g, p) - g.y0), Chan(g, p));
      }
    }
  }

  lemma PixelReduced(f: Kind, side: nat, x: nat, y: nat, source: seq<nat>, was: seq<nat>, now: seq<nat>, X: nat, Y: nat)
    requires side > 0 && X < 8 * side && Y < 8 * side && |was| == 8 * side * (8 * side * Channels(f)) && Bytes(was)
    requires ReducedInto(f, 8 * side, x, y, source, was, now)
    ensures PixelOf(NextKind(f), now, 8 * side, X, Y) ==
            if x * side <= X < x * side + side && y * side <= Y < y * side + side
            then Encode(Averages(f, source, 8 * side, 8 * (X - x * side), 8 * (Y - y * side)))
            else PixelOf(NextKind(f), was, 8 * side, X, Y)
  {
    BytesStay(f, 8 * side, x, y, source, was, now);
    var n, g := NextKind(f), PlaceAt(8 * side, 8 * side, Channels(f), x, y);
    var old' := SamplesAt(TileSamples(n, was), 8 * side, Channels(n), X, Y);
    var new' := SamplesAt(TileSamples(n, now), 8 * side, Channels(n), X, Y);
    forall ch: nat | ch < Channels(f)
      ensures old'[ch] == ByteAt(was, Index(g, X, Y, ch)) && new'[ch] == ByteAt(now, Index(g, X, Y, ch))
    {
      StoredSample(n, g, was, X, Y, ch);
      StoredSample(n, g, now, X, Y, ch);
    }
    if x * side <= X < x * side + side && y * side <= Y < y * side + side {
      var v := Averages(f, source, 8 * side, 8 * (X - x * side), 8 * (Y - y * side));
      forall ch | 0 <= ch < Channels(f) ensures new'[ch] == v[ch] {
        BytesOfPixel(f, side, x, y, source, was, now, X, Y, ch);
      }
      assert new' == v;
    } else {
      forall ch | 0 <= ch < Channels(f) ensures new'[ch] == old'[ch] {
        BytesOfPixel(f, side, x, y, source, was, now, X, Y, ch);
      }
      assert new' == old';
    }
  }

  /**
   * One call of `reduce` is one job: when `source` holds tile `t` and `was` its
   * target, the array that ReduceTile leaves holds the target after all writes
   * of the job.
   */
  lemma ReduceIsJob(c: Config, f: Kind, b: Buffers, t: Tile, source: seq<nat>, was: seq<nat>, now: seq<nat>)
    requires t.Tile? && c.side > 0 && MeansAt(c, t.k, f) && Bytes(was) && |was| == c.T() * TargetStride(f, c.T())
    requires Shows(f, source, c.T(), b, t) && Shows(NextKind(f), was, c.T(), b, LP.Target(t))
    requires ReducedInto(f, c.T(), t.i % 8, t.j % 8, source, was, now)
    ensures Shows(NextKind(f), now, c.T(), JobWrites(c, b, t, c.side * c.side), LP.Target(t)) && Bytes(now)
  {
    Strides(f, c.T(), c.side);
    BytesStay(f, c.T(), t.i % 8, t.j % 8, source, was, now);
    forall X: nat, Y: nat | X < c.T() && Y < c.T()
      ensures PixelOf(NextKind(f), now, c.T(), X, Y) ==
              if InSlot(c, t, X, Y) then JobPixel(c, b, t, X, Y) else PixelOf(NextKind(f), was, c.T(), X, Y)
    {
      PixelReduced(f, c.side, t.i % 8, t.j % 8, source, was, now, X, Y);
      if InSlot(c, t, X, Y) {
        var px, py := X - t.i % 8 * c.side, Y - t.j % 8 * c.side;
        BlockInRange(f, source, c.T(), b, t, px, py);
        MeanOfBlock(f, source, c.T(), b, t, px, py);
      }
    }
    JobShown(c, NextKind(f), was, now, b, t);
  }

  /** `reduce` on the arrays of a source tile and its target. */
  method ReduceJob(ghost c: Config, f: Kind, ghost b: Buffers, t: Tile, target: array<nat>, source: seq<nat>,
                   width: nat, lut: BitCountLut)
    requires t.Tile? && c.side > 0 && width == c.T() && MeansAt(c, t.k, f) && lut.Valid() && target != lut.lut
    requires Bytes(source) && |source| == width * SourceStride(f, width)
    requires Bytes(target[..]) && target.Length == width * TargetStride(f, width)
    requires Shows(f, source, width, b, t) && Shows(NextKind(f), target[..], width, b, LP.Target(t))
    modifies target
    ensures Shows(NextKind(f), target[..], width, JobWrites(c, b, t, c.side * c.side), LP.Target(t))
    ensures Bytes(target[..])
  {
    ghost var was := target[..];
    ReduceTile(f, target, source, width, width, t.i % 8, t.j % 8, lut);
    ReduceIsJob(c, f, b, t, source, was, target[..]);
  }

  // ------------------------------------------------------------------
  // The operations of the pyramid

  lemma {:induction false} BlankTotal(n: nat, ch: nat)
    requires n <= 64
    ensures DigitTotal(BLANK, n, ch) == 0
  {
    if n > 0 {
      BlankTotal(n - 1, ch);
      DigitOfEncode([], ch);
    }
  }

  lemma {:induction false} EncodeZeros(v: seq<nat>)
    requires forall i | 0 <= i < |v| :: v[i] == 0
    ensures Encode(v) == 0
  {
    if v != [] { EncodeZeros(v[1..]); }
  }

  /** Averaging meets what the pyramid asks of its operations: a blank block stays blank. */
  lemma MeanOfBlank(f: Kind)
    ensures MeanPixel(f, BLANK) == 0
  {
    forall ch: nat ensures Mean(DigitTotal(BLANK, 64, ch), MaxSample(f)) == 0 { BlankTotal(64, ch); }
    EncodeZeros(seq(Channels(f), ch requires 0 <= ch => Mean(DigitTotal(BLANK, 64, ch), MaxSample(f))));
  }

  lemma {:induction false} GreyTotal(block: seq<Pixel>, n: nat)
    requires n <= |block| && InRange(Grey8, block)
    ensures DigitTotal(block, n, 0) == PyramidOps.TotalTo(block, n)
  {
    if n > 0 {
      GreyTotal(block, n - 1);
      assert Pow(256, 1) == 256;
    }
  }

  /** The averaging pyramid is the one of the 8bpp operations. */
  lemma GreyIsPyramidOp(c: Config, k: int)
    requires PyramidOps.Averages(c)
    ensures MeansAt(c, k, Grey8)
  {
    forall block: seq<Pixel> | |block| == 64 && InRange(Grey8, block)
      ensures c.op(k, block) == MeanPixel(Grey8, block)
    {
      GreyTotal(block, 64);
      ScaledIsMean(Grey8, DigitTotal(block, 64, 0));
      var v := seq(1, ch requires 0 <= ch => Mean(DigitTotal(block, 64, ch), MaxSample(Grey8)));
      assert v == [v[0]] && Encode(v) == v[0] + 256 * Encode(v[1..]);
    }
  }

  // ------------------------------------------------------------------
  // Clipping

  lemma {:induction false} TotalPositive(block: seq<Pixel>, n: nat)
    requires n <= |block| && InRange(Bw1, block)
    ensures DigitTotal(block, n, 0) > 0 <==> exists i :: 0 <= i < n && block[i] > 0
  {
    if n > 0 {
      TotalPositive(block, n - 1);
      assert Pow(256, 1) == 256;
    }
  }

  /** A clipped pixel is what the clipping pyramid stores there. */
  lemma ClipOfBlock(c: Config, s: seq<nat>, T: nat, b: Buffers, t: Tile, px: nat, py: nat)
    requires t.Tile? && PyramidOps.Clips(c) && Shows(Bw1, s, T, b, t) && 8 * px + 8 <= T && 8 * py + 8 <= T
    ensures c.op(t.k, SourceBlock(b, t, px, py)) ==
            Clipped.Clip(PixelBlock(TileSamples(Bw1, s), T, 1, 8 * px, 8 * py, 8, 0))
  {
    var block := SourceBlock(b, t, px, py);
    BlockInRange(Bw1, s, T, b, t, px, py);
    BlockHolds(Bw1, s, T, b, t, px, py, 0);
    DigitsAreSamples(block, TileSamples(Bw1, s), T, 1, 8 * px, 8 * py, 0, 8, 0, 64);
    TotalPositive(block, 64);
    assert c.op(t.k, block) == if exists n :: 0 <= n < 64 && block[n] > 0 then 1 else 0;
  }

  /** What ClipTile promises of its target. */
  ghost predicate ClippedInto(T: nat, x: nat, y: nat, source: seq<nat>, was: seq<nat>, now: seq<nat>) {
    var g := PlaceAt(T, T, 1, x, y);
    && g.Valid() && |TileSamples(Bw1, now)| == |TileSamples(Bw1, was)|
    && forall p: nat | p < |TileSamples(Bw1, was)| ::
         TileSamples(Bw1, now)[p] ==
           if InPlace(g, p) then Clipped.ClippedPixel(g, source, p) else TileSamples(Bw1, was)[p]
  }

  lemma OneSampleOf(s: seq<nat>, g: Place, T: nat, X: nat, Y: nat)
    requires g.width == T && g.channels == 1
    ensures PixelOf(Bw1, s, T, X, Y) == ByteAt(TileSamples(Bw1, s), Index(g, X, Y, 0))
  {
    var v := SamplesAt(TileSamples(Bw1, s), T, 1, X, Y);
    assert v == [v[0]] && Encode(v) == v[0] + 256 * Encode(v[1..]);
  }

  lemma BitStored(side: nat, x: nat, y: nat, source: seq<nat>, was: seq<nat>, now: seq<nat>, X: nat, Y: nat)
    requires side > 0 && X < 8 * side && Y < 8 * side && |TileSamples(Bw1, was)| == 8 * side * (8 * side)
    requires ClippedInto(8 * side, x, y, source, was, now)
    ensures PixelOf(Bw1, now, 8 * side, X, Y) ==
            if x * side <= X < x * side + side && y * side <= Y < y * side + side
            then Clipped.Clip(
                   PixelBlock(TileSamples(Bw1, source), 8 * side, 1, 8 * (X - x * side), 8 * (Y - y * side), 8, 0))
            else PixelOf(Bw1, was, 8 * side, X, Y)
  {
    var g := PlaceAt(8 * side, 8 * side, 1, x, y);
    IndexInTarget(g, 8 * side, X, Y, 0);
    IndexParts(g, X, Y, 0);
    OneSampleOf(was, g, 8 * side, X, Y);
    OneSampleOf(now, g, 8 * side, X, Y);
  }

  /** One call of the clipped `reduce` is one job. */
  lemma ClipIsJob(c: Config, b: Buffers, t: Tile, source: seq<nat>, was: seq<nat>, now: seq<nat>)
    requires t.Tile? && c.side > 0 && PyramidOps.Clips(c) && |TileSamples(Bw1, was)| == c.T() * c.T()
    requires Shows(Bw1, source, c.T(), b, t) && Shows(Bw1, was, c.T(), b, LP.Target(t))
    requires ClippedInto(c.T(), t.i % 8, t.j % 8, source, was, now)
    ensures Shows(Bw1, now, c.T(), JobWrites(c, b, t, c.side * c.side), LP.Target(t))
  {
    forall X: nat, Y: nat | X < c.T() && Y < c.T()
      ensures PixelOf(Bw1, now, c.T(), X, Y) ==
              if InSlot(c, t, X, Y) then JobPixel(c, b, t, X, Y) else PixelOf(Bw1, was, c.T(), X, Y)
    {
      BitStored(c.side, t.i % 8, t.j % 8, source, was, now, X, Y);
      if InSlot(c, t, X, Y) {
        ClipOfBlock(c, source, c.T(), b, t, X - t.i % 8 * c.side, Y - t.j % 8 * c.side);
      }
    }
    JobShown(c, Bw1, was, now, b, t);
  }

  /** The clipped `reduce` on the arrays of a source tile and its target. */
  method ClipJob(ghost c: Config, ghost b: Buffers, t: Tile, target: array<nat>, source: seq<nat>, width: nat,
                 lut: BitCountLut)
    requires t.Tile? && c.side > 0 && width == c.T() && width % 64 == 0 && PyramidOps.Clips(c) && lut.Valid()
    requires target != lut.lut
    requires Bytes(source) && |source| == width * (width / 8) && target.Length == width * (width / 8)
    requires Shows(Bw1, source, width, b, t) && Shows(Bw1, target[..], width, b, LP.Target(t))
    modifies target
    ensures Shows(Bw1, target[..], width, JobWrites(c, b, t, c.side * c.side), LP.Target(t))
  {
    ghost var was := target[..];
    Associate(width, c.side, 8);
    Clipped.OneBit();
    Clipped.ClipTile(target, source, width, width, t.i % 8, t.j % 8, lut);
    ClipIsJob(c, b, t, source, was, target[..]);
  }
}
