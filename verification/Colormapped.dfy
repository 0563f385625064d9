/**
 * Reducing tiles of colour indices: each target pixel holds the two most
 * frequent colours of its 8x8 source pixels.  Buffers with two colours per
 * pixel are sequences of 16 bit elements.
 */
module Colormapped {

  import opened Arith
  import opened Bits
  import opened Histogram
  import opened Reduce
  import opened SampleIterators

  function PairFormat(b: nat): Format { Format(16, 2 * b) }

  /** The target address in bytes, for `ppb` source pixels per byte. */
  function PairBase(width: nat, height: nat, ppb: nat, x: nat, y: nat): nat
    requires ppb > 0
  {
    QuotientNat(2 * width, ppb);
    ProductNat(height, 2 * width / ppb, y);
    ProductNat(2, width, x);
    QuotientNat(2 * width * x / 8, ppb);
    height * (2 * width / ppb) * y / 8 + 2 * width * x / 8 / ppb
  }

  /**
   * The widths that a tile can have: every place begins at a whole 16 bit element;
   * `d` is the number of source pixels per byte.
   */
  predicate Fits(d: nat, width: nat, height: nat) {
    d in {1, 2, 4, 8} && width % 8 == 0 && height % 8 == 0 && width / 8 % d == 0
  }

  /** The address is that of a whole element, and its first sample is the first pixel of place (x, y). */
  lemma PairBaseIs(d: nat, m: nat, h8: nat, x: nat, y: nat)
    requires d > 0
    ensures PairBase(8 * (m * d), 8 * h8, d, x, y) == 2 * (8 * (h8 * m * y) + m * x)
    ensures PairBase(8 * (m * d), 8 * h8, d, x, y) / 2 * d == y * h8 * (8 * (m * d)) + x * (m * d)
  {
    RowBytes(d, m, h8, y);
    ColumnBytes(d, m, x);
    PlaceStart(d, m, h8, x, y);
  }

  lemma RowBytes(d: nat, m: nat, h8: nat, y: nat)
    requires d > 0
    ensures 8 * h8 * (2 * (8 * (m * d)) / d) * y / 8 == 16 * (h8 * m * y)
  {
    Associate(16, m, d);
    Quotient(16 * (m * d), d, 16 * m);
    assert 8 * h8 * (16 * m) * y == 8 * (16 * (h8 * m * y)) by {
      Associate(8 * h8, 16 * m, y);
      Associate(8, h8, 16 * m * y);
      Associate(16, m, y);
      Swap(h8, 16, m * y);
      Associate(h8, m, y);
    }
  }

  lemma Swap(a: int, b: int, c: int)
    ensures a * (b * c) == b * (a * c)
  {}

  lemma ColumnBytes(d: nat, m: nat, x: nat)
    requires d > 0
    ensures 2 * (8 * (m * d)) * x / 8 / d == 2 * (m * x)
  {
    assert 2 * (8 * (m * d)) * x == 8 * (2 * (m * x) * d) by {
      Associate(16, m * d, x);
      Associate(m, d, x);
      Commute(d, x);
      Associate(m, x, d);
      Associate(2, m * x, d);
    }
    Quotient(2 * (m * x) * d, d, 2 * (m * x));
  }

  lemma PlaceStart(d: nat, m: nat, h8: nat, x: nat, y: nat)
    ensures (8 * (h8 * m * y) + m * x) * d == y * h8 * (8 * (m * d)) + x * (m * d)
  {
    Distribute(8 * (h8 * m * y), m * x, d);
    Associate(8, h8 * m * y, d);
    assert h8 * m * y * d == y * h8 * (m * d) by {
      Associate(h8, m, y);
      Commute(h8, m * y);
      Associate(m, y, h8);
      Commute(m, y * h8);
      Associate(y * h8, m, d);
    }
    Swap(y * h8, 8, m * d);
    Commute(m, x);
    Associate(x, m, d);
  }

  /** The addresses of all 64 places are right if and only if the width fits. */
  lemma PairBaseIff(d: nat, width: nat, height: nat)
    requires d in {1, 2, 4, 8} && width % 8 == 0 && height % 8 == 0
    ensures (forall x: nat, y: nat | x < 8 && y < 8 ::
              PairBase(width, height, d, x, y) % 2 == 0
              && PairBase(width, height, d, x, y) / 2 * d == y * (height / 8) * width + x * (width / 8))
            <==> Fits(d, width, height)
  {
    var w8, h8 := width / 8, height / 8;
    if Fits(d, width, height) {
      var m := w8 / d;
      assert w8 == m * d;
      forall x: nat, y: nat | x < 8 && y < 8
        ensures PairBase(width, height, d, x, y) % 2 == 0
        ensures PairBase(width, height, d, x, y) / 2 * d == y * (height / 8) * width + x * (width / 8)
      {
        PairBaseIs(d, m, h8, x, y);
      }
    } else {
      var base := PairBase(width, height, d, 1, 0);
      if base / 2 * d == w8 { DivModUnique(w8, d, base / 2, 0); }
      assert base / 2 * d != 0 * (height / 8) * width + 1 * (width / 8);
    }
  }

  /** The first samples of the rows of the 8x8 pixels at (X, Y). */
  function PixelStarts(width: nat, X: nat, Y: nat): (s: seq<nat>)
    ensures |s| == 8
  {
    seq(8, r requires r >= 0 => (Y + r) * width + X)
  }

  /** `v` holds the two most frequent colours of the 8x8 pixels at (X, Y). */
  ghost predicate Chosen(k: Ballot, b: nat, flat: seq<nat>, width: nat, X: nat, Y: nat, v: nat) {
    b > 0 && v <= Mask(2 * b) && RowsInside(PixelStarts(width, X, Y), |flat|)
    && IsTopTwo(CountsOf(Mask(b) + 1, Flatten(BlockBallots(k, b, flat, PixelStarts(width, X, Y)))),
                Shr(v, b), And(v, Mask(b)))
  }

  /** The pixel at (x, y) is `v`. */
  predicate HoldsAt(flat: seq<nat>, width: nat, x: nat, y: nat, v: nat) {
    var at := y * width + x;
    0 <= at < |flat| && flat[at] == v
  }

  lemma SampleOfPixel(flat: seq<nat>, width: nat, X: nat, Y: nat, n: nat, r: nat, d: nat, v: nat)
    requires r < 8 && d < 8 && n == 8 * r + d && HoldsAt(flat, width, X + d, Y + r, v)
    ensures BlockSample(flat, PixelStarts(width, X, Y), n) == v
  {
    assert PixelStarts(width, X, Y)[r] + d == (Y + r) * width + (X + d);
  }

  /** Where all 8x8 pixels hold the same pair, so does the pixel above them, in either order. */
  lemma UniformPixels(b: nat, flat: seq<nat>, width: nat, X: nat, Y: nat, x: nat, y: nat, v: nat)
    requires Chosen(Packed, b, flat, width, X, Y, v) && x <= Mask(b) && y <= Mask(b)
    requires forall px: nat, py: nat | X <= px < X + 8 && Y <= py < Y + 8 :: HoldsAt(flat, width, px, py, Pack(b, x, y))
    ensures {Shr(v, b), And(v, Mask(b))} == {x, y}
  {
    var starts := PixelStarts(width, X, Y);
    forall n: nat | n < 64 ensures BlockSample(flat, starts, n) == Pack(b, x, y) {
      assert HoldsAt(flat, width, X + n % 8, Y + n / 8, Pack(b, x, y));
      SampleOfPixel(flat, width, X, Y, n, n / 8, n % 8, Pack(b, x, y));
    }
    UniformPairStays(b, flat, starts, x, y, Shr(v, b), And(v, Mask(b)));
  }

  /** Rows in elements are rows of pixels. */
  lemma StartsArePixels(b: nat, spb: nat, width: nat, i: nat, j: nat, base: nat, stride: nat)
    requires spb * b == 8 && stride * spb == width && base == 8 * j * stride + i * b
    ensures Starts(base, stride, spb) == PixelStarts(width, 8 * i, 8 * j)
  {
    var s, t := Starts(base, stride, spb), PixelStarts(width, 8 * i, 8 * j);
    forall r | 0 <= r < 8 ensures s[r] == t[r] {
      ElementStart(b, spb, i, 8 * j, r, stride);
    }
  }

  lemma ElementStart(b: nat, spb: nat, i: nat, Y: nat, r: nat, stride: nat)
    requires spb * b == 8
    ensures (Y * stride + i * b + r * stride) * spb == (Y + r) * (stride * spb) + 8 * i
  {
    Distribute(Y, r, stride);
    Distribute((Y + r) * stride, i * b, spb);
    Associate(Y + r, stride, spb);
    Associate(i, b, spb);
    Commute(b, spb);
  }

  lemma RowsOfPlace(width: nat, height: nat, X: nat, Y: nat, length: nat)
    requires X + 8 <= width && Y + 8 <= height && length == height * width
    ensures RowsInside(PixelStarts(width, X, Y), length)
  {
    var s := PixelStarts(width, X, Y);
    forall r | 0 <= r < 8 ensures s[r] + 8 <= length {
      MulMonotone(Y + r + 1, height, width);
      NextProduct(Y + r, width);
    }
  }

  /** The value for pixel (i, j) of the place. */
  method ReducePixel(k: Ballot, b: nat, source: array<nat>, sourcePtr: nat, stride: nat,
                     ghost width: nat, ghost height: nat, ghost i: nat, ghost j: nat)
      returns (pair: nat)
    requires b in {1, 2, 4, 8} && stride * (8 / b) == width && sourcePtr == 8 * j * stride + i * b
    requires 8 * i + 8 <= width && 8 * j + 8 <= height && |Samples(FormatOf(k, b), source[..])| == height * width
    ensures Chosen(k, b, Samples(FormatOf(k, b), source[..]), width, 8 * i, 8 * j, pair)
  {
    PerElement(k, b);
    StartsArePixels(b, 8 / b, width, i, j, sourcePtr, stride);
    RowsOfPlace(width, height, 8 * i, 8 * j, |Samples(FormatOf(k, b), source[..])|);
    pair := MostFrequent(k, b, source, sourcePtr, stride);
  }

  /** Single colours in bytes and pairs in 16 bit elements: the same number of pixels in each. */
  lemma PerElement(k: Ballot, b: nat)
    requires b in {1, 2, 4, 8}
    ensures FormatOf(k, b).Valid() && FormatOf(k, b).SamplesPerBase() == 8 / b
    ensures PairFormat(b).Valid() && PairFormat(b).SamplesPerBase() == 8 / b && 8 / b * b == 8
  {}

  /** `v` is right for target pixel `p` of the place. */
  ghost predicate ChosenAt(k: Ballot, b: nat, flat: seq<nat>, g: Place, p: nat, v: nat)
    requires g.Valid() && InPlace(g, p)
  {
    Chosen(k, b, flat, 8 * g.w8, 8 * (Col(g, p) - g.x0), 8 * (Row(g, p) - g.y0), v)
  }

  /** Every pixel of the place that was stored holds the right colours. */
  ghost predicate AllChosen(k: Ballot, b: nat, flat: seq<nat>, g: Place, vals: seq<nat>, j: nat, i: nat)
    requires g.Valid()
  {
    forall p: nat | p < |vals| && Before(g, p, j, i, 0) :: ChosenAt(k, b, flat, g, p, vals[p])
  }

  lemma ChosenPixel(k: Ballot, b: nat, flat: seq<nat>, g: Place, j: nat, i: nat, q: nat, v: nat)
    requires g.Valid() && i < g.w8 && j < g.h8 && Col(g, q) == g.x0 + i && Row(g, q) == g.y0 + j
    requires Chosen(k, b, flat, 8 * g.w8, 8 * i, 8 * j, v)
    ensures ChosenAt(k, b, flat, g, q, v)
  {}

  /** Storing a chosen value for pixel (i, j). */
  lemma StoreChosen(k: Ballot, b: nat, flat: seq<nat>, g: Place, vals: seq<nat>, was: seq<nat>, now: seq<nat>, j: nat,
                    i: nat, q: nat, v: nat)
    requires g.Valid() && g.channels == 1 && i < g.w8 && j < g.h8 && q == Index(g, g.x0 + i, g.y0 + j, 0) && q < |now|
    requires Progress(g, vals, was, now, j, i, 0) && AllChosen(k, b, flat, g, vals, j, i)
    requires Chosen(k, b, flat, 8 * g.w8, 8 * i, 8 * j, v)
    ensures Progress(g, vals[q := v], was, now[q := v], j, i + 1, 0) && AllChosen(k, b, flat, g, vals[q := v], j, i + 1)
  {
    IndexParts(g, g.x0 + i, g.y0 + j, 0);
    ProgressOn(g, vals, was, now, j, i, q, v);
    ChosenPixel(k, b, flat, g, j, i, q, v);
    ChosenOn(k, b, flat, g, vals, j, i, q, v);
  }

  lemma BeforeOne(g: Place, p: nat, q: nat, j: nat, i: nat)
    requires g.Valid() && g.channels == 1 && i < g.w8 && j < g.h8
    requires Col(g, q) == g.x0 + i && Row(g, q) == g.y0 + j && Chan(g, q) == 0
    ensures Before(g, p, j, i + 1, 0) <==> Before(g, p, j, i, 0) || p == q
    ensures !Before(g, q, j, i, 0)
  {
    BeforeNext(g, p, q, j, i, 0);
    PartsIndex(g, p);
  }

  lemma ProgressOn(g: Place, vals: seq<nat>, was: seq<nat>, now: seq<nat>, j: nat, i: nat, q: nat, v: nat)
    requires g.Valid() && g.channels == 1 && i < g.w8 && j < g.h8 && q < |now| && Progress(g, vals, was, now, j, i, 0)
    requires Col(g, q) == g.x0 + i && Row(g, q) == g.y0 + j && Chan(g, q) == 0
    ensures Progress(g, vals[q := v], was, now[q := v], j, i + 1, 0)
  {
    forall p: nat | p < |was| ensures now[q := v][p] == if Before(g, p, j, i + 1, 0) then vals[q := v][p] else was[p] {
      BeforeOne(g, p, q, j, i);
    }
  }

  lemma ChosenOn(k: Ballot, b: nat, flat: seq<nat>, g: Place, vals: seq<nat>, j: nat, i: nat, q: nat, v: nat)
    requires g.Valid() && g.channels == 1 && i < g.w8 && j < g.h8 && q < |vals| && AllChosen(k, b, flat, g, vals, j, i)
    requires Col(g, q) == g.x0 + i && Row(g, q) == g.y0 + j && Chan(g, q) == 0
    requires ChosenAt(k, b, flat, g, q, v)
    ensures AllChosen(k, b, flat, g, vals[q := v], j, i + 1)
  {
    var next := vals[q := v];
    forall p: nat | p < |next| && Before(g, p, j, i + 1, 0) ensures ChosenAt(k, b, flat, g, p, next[p]) {
      BeforeOne(g, p, q, j, i);
    }
  }

  lemma NextLineChosen(k: Ballot, b: nat, flat: seq<nat>, g: Place, vals: seq<nat>, j: nat)
    requires g.Valid() && AllChosen(k, b, flat, g, vals, j, g.w8)
    ensures AllChosen(k, b, flat, g, vals, j + 1, 0)
  {
    forall p: nat | p < |vals| ensures Before(g, p, j, g.w8, 0) == Before(g, p, j + 1, 0, 0) {}
  }

  /** Stores the pair for pixel (i, j) of the place, and moves on. */
  method StorePair(k: Ballot, b: nat, targetPtr: SampleIterator, pair: nat, ghost flat: seq<nat>, ghost g: Place,
                   ghost height: nat,
                   ghost chosen: seq<nat>, ghost was: seq<nat>, ghost j: nat, ghost i: nat,
                   ghost q: nat)
      returns (ghost vals: seq<nat>)
    requires b > 0 && g.Valid() && g.channels == 1 && i < g.w8 && j < g.h8 && g.y0 + g.h8 <= height
    requires targetPtr.Valid() && targetPtr.f == PairFormat(b)
    requires q == targetPtr.Index() == Index(g, g.x0, g.y0 + j, 0) + i * g.channels
    requires |Samples(PairFormat(b), targetPtr.data[..])| == height * (g.width * g.channels)
    requires Progress(g, chosen, was, Samples(PairFormat(b), targetPtr.data[..]), j, i, 0)
    requires AllChosen(k, b, flat, g, chosen, j, i)
    requires Chosen(k, b, flat, 8 * g.w8, 8 * i, 8 * j, pair)
    modifies targetPtr, targetPtr.data
    ensures targetPtr.Valid() && targetPtr.Index() == q + 1
    ensures Progress(g, vals, was, Samples(PairFormat(b), targetPtr.data[..]), j, i + 1, 0)
    ensures AllChosen(k, b, flat, g, vals, j, i + 1)
  {
    PointerStored(g, height, i, j, q);
    StoreChosen(k, b, flat, g, chosen, was, Samples(PairFormat(b), targetPtr.data[..]), j, i, q, pair);
    ElementOf(targetPtr.samplesPerBase, targetPtr.At(), targetPtr.data.Length);
    targetPtr.Set(pair);
    vals := chosen[q := pair];
    targetPtr.Next();
  }

  /** Reduces 8 source rows into one row of the place. */
  method ReducePairLine(k: Ballot, b: nat, target: array<nat>, source: array<nat>, sourceBase: nat, targetBase: nat,
                        stride: nat, w8: nat,
                        ghost g: Place, ghost height: nat, ghost chosen: seq<nat>, ghost was: seq<nat>, ghost j: nat)
      returns (ghost vals: seq<nat>)
    requires b in {1, 2, 4, 8} && target != source && stride * (8 / b) == g.width && sourceBase == 8 * j * stride
    requires g.Valid() && g.channels == 1 && g.width == 8 * w8 && g.w8 == w8 && j < g.h8
    requires g.y0 + g.h8 <= height == 8 * g.h8
    requires |Samples(FormatOf(k, b), source[..])| == height * g.width
    requires |Samples(PairFormat(b), target[..])| == height * (g.width * g.channels)
    requires targetBase * (8 / b) == Index(g, g.x0, g.y0 + j, 0)
    requires Progress(g, chosen, was, Samples(PairFormat(b), target[..]), j, 0, 0)
    requires AllChosen(k, b, Samples(FormatOf(k, b), source[..]), g, chosen, j, 0)
    modifies target
    ensures Progress(g, vals, was, Samples(PairFormat(b), target[..]), j + 1, 0, 0)
    ensures AllChosen(k, b, Samples(FormatOf(k, b), source[..]), g, vals, j + 1, 0)
  {
    PerElement(k, b);
    vals := chosen;
    ghost var flat := Samples(FormatOf(k, b), source[..]);
    var sourcePtr := sourceBase;
    var targetPtr := new SampleIterator(target, targetBase, 0, PairFormat(b));
    for i := 0 to w8
      invariant targetPtr.Valid() && fresh(targetPtr) && targetPtr.data == target && targetPtr.f == PairFormat(b)
      invariant sourcePtr == sourceBase + i * b && targetPtr.Index() == Index(g, g.x0, g.y0 + j, 0) + i * g.channels
      invariant Progress(g, vals, was, Samples(PairFormat(b), target[..]), j, i, 0) &&
                AllChosen(k, b, flat, g, vals, j, i)
    {
      var pair := ReducePixel(k, b, source, sourcePtr, stride, g.width, height, i, j);
      vals := StorePair(k, b, targetPtr, pair, flat, g, height, vals, was, j, i, targetPtr.Index());
      assert flat == Samples(FormatOf(k, b), source[..]);
      NextProduct(i, b);
      NextProduct(i, g.channels);
      sourcePtr := sourcePtr + b;
    }
    NextLine(g, vals, was, Samples(PairFormat(b), target[..]), j);
    NextLineChosen(k, b, flat, g, vals, j);
  }

  /** The stride of a source buffer in elements: bytes for single colours, 16 bit elements for pairs. */
  function SourceElements(k: Ballot, ppb: nat, width: nat): nat
    requires ppb > 0
  {
    if k.Single? then width / ppb else 2 * width / ppb / 2
  }

  lemma SourceStrideIs(k: Ballot, d: nat, width: nat, m: nat)
    requires d > 0 && width == 8 * (m * d)
    ensures SourceElements(k, d, width) * d == width && 2 * width / d / 2 * d == width
  {
    Associate(8, m, d);
    Associate(16, m, d);
    Quotient(16 * (m * d), d, 16 * m);
    Quotient(8 * (m * d), d, 8 * m);
  }

  lemma Quotient(a: nat, d: nat, q: nat)
    requires d > 0 && a == q * d
    ensures a / d == q
  {
    DivModUnique(a, d, q, 0);
  }

  lemma NextPairBase(g: Place, col: nat, row: nat, targetBase: nat, targetStride: nat, spb: nat)
    requires g.channels == 1 && targetBase * spb == Index(g, col, row, 0) && targetStride * spb == g.width
    ensures (targetBase + targetStride) * spb == Index(g, col, row + 1, 0)
  {
    Distribute(targetBase, targetStride, spb);
    NextBase(g, col, row);
  }

  /** All rows of the place. */
  method ReducePairLines(k: Ballot, b: nat, target: array<nat>, source: array<nat>, first: nat, sourceStride: nat,
                         targetStride: nat,
                         w8: nat, h8: nat, ghost g: Place, ghost height: nat,
                         ghost was: seq<nat>)
      returns (ghost vals: seq<nat>)
    requires b in {1, 2, 4, 8} && target != source && sourceStride * (8 / b) == g.width
    requires g.Valid() && g.channels == 1 && g.width == 8 * w8 && g.w8 == w8 && g.h8 == h8
    requires g.y0 + h8 <= height == 8 * h8
    requires |Samples(FormatOf(k, b), source[..])| == height * g.width
    requires was == Samples(PairFormat(b), target[..]) && |was| == height * (g.width * g.channels)
    requires first * (8 / b) == Index(g, g.x0, g.y0, 0) && targetStride * (8 / b) == g.width
    modifies target
    ensures Progress(g, vals, was, Samples(PairFormat(b), target[..]), h8, 0, 0)
    ensures AllChosen(k, b, Samples(FormatOf(k, b), source[..]), g, vals, h8, 0)
  {
    vals := was;
    var sourceBase: nat, targetBase: nat := 0, first;
    for j := 0 to h8
      invariant sourceBase == 8 * j * sourceStride && targetBase * (8 / b) == Index(g, g.x0, g.y0 + j, 0)
      invariant Progress(g, vals, was, Samples(PairFormat(b), target[..]), j, 0, 0)
      invariant AllChosen(k, b, Samples(FormatOf(k, b), source[..]), g, vals, j, 0)
    {
      vals := ReducePairLine(k, b, target, source, sourceBase, targetBase, sourceStride, w8, g, height, vals, was, j);
      Distribute(8 * j, 8, sourceStride);
      NextPairBase(g, g.x0, g.y0 + j, targetBase, targetStride, 8 / b);
      sourceBase, targetBase := sourceBase + sourceStride * 8, targetBase + targetStride;
    }
  }

  /**
   * Reduces `source` into place (x, y) of `target`: each pixel of the place
   * becomes the pair of the two most frequent colours of its 8x8 source pixels,
   * all others keep their value.  The condition on the width is the one of
   * PairBaseIff.
   */
  method ReducePairs(k: Ballot, b: nat, target: array<nat>, source: array<nat>, width: nat, height: nat, x: nat, y: nat)
    requires b in {1, 2, 4, 8} && target != source && 0 < width && Fits(8 / b, width, height) && x < 8 && y < 8
    requires |Samples(FormatOf(k, b), source[..])| == height * width
    requires |Samples(PairFormat(b), target[..])| == height * width
    modifies target
    ensures PlaceAt(width, height, 1, x, y).Valid()
    ensures PlaceHolds(k, b, Samples(FormatOf(k, b), source[..]), PlaceAt(width, height, 1, x, y),
                       old(Samples(PairFormat(b), target[..])), Samples(PairFormat(b), target[..]))
  {
    PairPlan(k, 8 / b, width, height, x, y);
    ghost var g, was := PlaceAt(width, height, 1, x, y), Samples(PairFormat(b), target[..]);
    var ppb := 8 / b;
    var first: nat, sourceStride: nat := PairBase(width, height, ppb, x, y) / 2, SourceElements(k, ppb, width);
    var targetStride: nat := 2 * width / ppb / 2;
    ghost var vals := ReducePairLines(k, b, target, source, first, sourceStride, targetStride, width / 8, height / 8,
                                      g, height, was);
    PlaceFilled(k, b, Samples(FormatOf(k, b), source[..]), g, vals, was, Samples(PairFormat(b), target[..]));
  }

  /** The addresses and strides, put together. */
  lemma PairPlan(k: Ballot, d: nat, width: nat, height: nat, x: nat, y: nat)
    requires 0 < width && Fits(d, width, height) && x < 8 && y < 8
    ensures SourceElements(k, d, width) * d == width && 2 * width / d / 2 * d == width
    ensures var g := PlaceAt(width, height, 1, x, y);
      && g.Valid() && g.y0 + g.h8 <= height && PairBase(width, height, d, x, y) / 2 * d == Index(g, g.x0, g.y0, 0)
  {
    var m := width / 8 / d;
    assert width / 8 == m * d;
    PlaceIsValid(width, height, 1, x, y);
    PairBaseIs(d, m, height / 8, x, y);
    SourceStrideIs(k, d, width, m);
  }

  /** The pixels of the place hold the right colours, and no others have changed. */
  ghost predicate PlaceHolds(k: Ballot, b: nat, flat: seq<nat>, g: Place, was: seq<nat>, now: seq<nat>)
    requires g.Valid()
  {
    |now| == |was| &&
    forall p: nat | p < |was| :: if InPlace(g, p) then ChosenAt(k, b, flat, g, p, now[p]) else now[p] == was[p]
  }

  lemma PlaceFilled(k: Ballot, b: nat, flat: seq<nat>, g: Place, vals: seq<nat>, was: seq<nat>, now: seq<nat>)
    requires g.Valid() && Progress(g, vals, was, now, g.h8, 0, 0) && AllChosen(k, b, flat, g, vals, g.h8, 0)
    ensures PlaceHolds(k, b, flat, g, was, now)
  {
    AllStored(g, vals, was, now);
    forall p: nat | p < |was| && InPlace(g, p) ensures Before(g, p, g.h8, 0, 0) {}
  }
}
