/**
 * The reduction that keeps one bit per pixel: a target pixel is set when any of
 * its 8x8 source pixels is.
 */
module Clipped {

  import opened Arith
  import opened Bits
  import opened SampleIterators
  import opened Reduce

  function ClippedBase(width: nat, height: nat, x: nat, y: nat): nat {
    height * y * (width / 8) / 8 + width * x / 8 / 8
  }

  /**
   * The bytes that the clipped operation begins at are the places of whole pixels
   * exactly for widths that are multiples of 64.
   */
  lemma ClippedBaseIff(width: nat, height: nat)
    requires width % 8 == 0 && height % 8 == 0
    ensures (forall x: nat, y: nat | x < 8 && y < 8 ::
              8 * ClippedBase(width, height, x, y) == y * (height / 8) * width + x * (width / 8))
            <==> width % 64 == 0
  {
    var w8, h8 := width / 8, height / 8;
    forall x: nat, y: nat | x < 8 && y < 8
      ensures ClippedBase(width, height, x, y) == y * h8 * w8 + w8 * x / 8
      ensures y * h8 * width == 8 * (y * h8 * w8)
    {
      ClippedBaseIs(w8, h8, x, y);
    }
    if width % 64 == 0 {
      forall x: nat, y: nat | x < 8 && y < 8
        ensures 8 * ClippedBase(width, height, x, y) == y * (height / 8) * width + x * (width / 8)
      {
        assert w8 * x == 8 * (w8 / 8 * x);
      }
    } else {
      assert 8 * ClippedBase(width, height, 1, 0) == 8 * (w8 / 8) != w8;
    }
  }

  lemma ClippedBaseIs(w8: nat, h8: nat, x: nat, y: nat)
    ensures ClippedBase(8 * w8, 8 * h8, x, y) == y * h8 * w8 + w8 * x / 8
    ensures y * h8 * (8 * w8) == 8 * (y * h8 * w8)
  {
    Mul3(h8, y, w8);
    Eighth(h8 * y * w8);
    Associate(8, w8, x);
    Eighth(w8 * x);
    assert y * h8 * (8 * w8) == 8 * (y * h8 * w8) by { Associate(y * h8, 8, w8); Associate(8, y * h8, w8); }
  }

  // ------------------------------------------------------------------
  // The operation

  const ONE_BIT: Format := Format(8, 1)

  function Clip(sum: nat): nat { if sum > 0 then 1 else 0 }

  /** The sum of 8x8 bits is positive exactly when one of them is set. */
  lemma {:induction false} AnyInRow(flat: seq<nat>, width: nat, X: nat, Y: nat, n: nat)
    ensures PixelRow(flat, width, 1, X, Y, n, 0) > 0 <==>
            exists x: nat :: X <= x < X + n && PixelSample(flat, width, 1, x, Y, 0) > 0
  {
    if n > 0 {
      AnyInRow(flat, width, X, Y, n - 1);
      if PixelSample(flat, width, 1, X + n - 1, Y, 0) > 0 { assert X <= X + n - 1 < X + n; }
    }
  }

  ghost predicate AnySet(flat: seq<nat>, width: nat, X: nat, Y: nat, rows: nat) {
    exists x: nat, y: nat :: X <= x < X + 8 && Y <= y < Y + rows && PixelSample(flat, width, 1, x, y, 0) > 0
  }

  lemma {:induction false} AnyInBlock(flat: seq<nat>, width: nat, X: nat, Y: nat, k: nat)
    ensures PixelBlock(flat, width, 1, X, Y, k, 0) > 0 <==> AnySet(flat, width, X, Y, k)
  {
    if k > 0 {
      AnyInBlock(flat, width, X, Y, k - 1);
      AnyInRow(flat, width, X, Y + k - 1, 8);
      if PixelRow(flat, width, 1, X, Y + k - 1, 8, 0) > 0 {
        var x: nat :| X <= x < X + 8 && PixelSample(flat, width, 1, x, Y + k - 1, 0) > 0;
        assert AnySet(flat, width, X, Y, k);
      }
      if AnySet(flat, width, X, Y, k) && !AnySet(flat, width, X, Y, k - 1) {
        var x: nat, y: nat :| X <= x < X + 8 && Y <= y < Y + k && PixelSample(flat, width, 1, x, y, 0) > 0;
        assert y == Y + k - 1;
      }
    }
  }

  function ClippedPixel(g: Place, source: seq<nat>, p: nat): nat
    requires g.Valid() && InPlace(g, p)
  {
    Clip(PixelBlock(TileSamples(Bw1, source), 8 * g.w8, 1, 8 * (Col(g, p) - g.x0), 8 * (Row(g, p) - g.y0), 8, 0))
  }

  ghost predicate Clips(g: Place, source: seq<nat>, vals: seq<nat>)
    requires g.Valid()
  {
    forall p: nat | p < |vals| && InPlace(g, p) :: vals[p] == ClippedPixel(g, source, p)
  }

  /** A pixel of the target is set exactly when one of its 8x8 source pixels is. */
  lemma ClippedIsAny(g: Place, source: seq<nat>, p: nat)
    requires g.Valid() && InPlace(g, p)
    ensures ClippedPixel(g, source, p) == 1 <==>
      AnySet(TileSamples(Bw1, source), 8 * g.w8, 8 * (Col(g, p) - g.x0), 8 * (Row(g, p) - g.y0), 8)
  {
    AnyInBlock(TileSamples(Bw1, source), 8 * g.w8, 8 * (Col(g, p) - g.x0), 8 * (Row(g, p) - g.y0), 8);
  }

  lemma ClipStored(g: Place, source: seq<nat>, vals: seq<nat>, height: nat, i: nat, j: nat, sourcePtr: nat, sum: nat,
                   p: nat)
    requires Bytes(source) && g.Valid() && g.channels == 1 && i < g.w8 && j < g.h8 && g.y0 + g.h8 <= height
    requires sourcePtr == 8 * j * (Bpp(Bw1) * g.w8) + i * Bpp(Bw1)
    requires sum == BlockSum(Bw1, source, sourcePtr, Bpp(Bw1) * g.w8, 8, 0)
    requires p == Index(g, g.x0, g.y0 + j, 0) + i && |vals| == height * (g.width * g.channels) && Clips(g, source, vals)
    ensures p == Index(g, g.x0 + i, g.y0 + j, 0) && p < |vals| && vals[p] == Clip(sum)
  {
    PointerStored(g, height, i, j, p);
    IndexParts(g, g.x0 + i, g.y0 + j, 0);
    BlockOfPixels(Bw1, source, g.w8, i, 8 * j, sourcePtr, 8, 0);
    assert InPlace(g, p);
  }

  /** Clips 8 source rows into one row of the place. */
  method ClipLine(target: array<nat>, source: seq<nat>, sourceBase: nat, targetBase: nat, sourceStride: nat, w8: nat,
                  lut: BitCountLut, ghost g: Place, ghost height: nat, ghost vals: seq<nat>, ghost was: seq<nat>,
                  ghost j: nat)
    requires Bytes(source) && g.Valid() && g.channels == 1 && g.w8 == w8 && j < g.h8 && g.y0 + g.h8 <= height
    requires sourceStride == Bpp(Bw1) * w8 && |source| == 8 * g.h8 * sourceStride
    requires 8 * target.Length == height * (g.width * 1)
    requires sourceBase == 8 * j * sourceStride && 8 * targetBase == Index(g, g.x0, g.y0 + j, 0)
    requires lut.Valid() && target != lut.lut && Clips(g, source, vals)
    requires Progress(g, vals, was, Samples(ONE_BIT, target[..]), j, 0, 0)
    modifies target
    ensures Progress(g, vals, was, Samples(ONE_BIT, target[..]), j + 1, 0, 0)
  {
    var sourcePtr := sourceBase;
    var targetPtr := new SampleIterator(target, targetBase, 0, ONE_BIT);
    for i := 0 to w8
      invariant targetPtr.Valid() && fresh(targetPtr) && targetPtr.data == target && targetPtr.f == ONE_BIT
      invariant sourcePtr == sourceBase + i * Bpp(Bw1) && targetPtr.Index() == 8 * targetBase + i
      invariant Progress(g, vals, was, Samples(ONE_BIT, target[..]), j, i, 0)
    {
      BlockInSource(Bpp(Bw1), w8, g.h8, i, j);
      var sums := SumBlock(Bw1, source, sourcePtr, sourceStride, lut);
      ghost var p := targetPtr.Index();
      ClipStored(g, source, vals, height, i, j, sourcePtr, sums[0], p);
      StoreOne(g, vals, was, Samples(ONE_BIT, target[..]), j, i, 0, p);
      ElementOf(targetPtr.samplesPerBase, targetPtr.At(), target.Length);
      OneBit();
      targetPtr.Set(if sums[0] > 0 then 1 else 0);
      NextPixel(g, vals, was, Samples(ONE_BIT, target[..]), j, i);
      targetPtr.Next();
      sourcePtr := sourcePtr + 1;
    }
    NextLine(g, vals, was, Samples(ONE_BIT, target[..]), j);
  }

  lemma OneBit()
    ensures Mask(ONE_BIT.bps) == 1 && ONE_BIT.SamplesPerBase() == 8
  {
    Masks();
  }

  /**
   * Clips `source` into place (x, y) of `target`.  The condition on the width is
   * the one of ClippedBaseIff.
   */
  method ClipTile(target: array<nat>, source: seq<nat>, width: nat, height: nat, x: nat, y: nat, lut: BitCountLut)
    requires 0 < width && width % 64 == 0 && height % 8 == 0 && x < 8 && y < 8 && lut.Valid() && target != lut.lut
    requires Bytes(source) && |source| == height * (width / 8) && target.Length == height * (width / 8)
    modifies target
    ensures PlaceAt(width, height, 1, x, y).Valid()
    ensures forall p: nat | p < 8 * target.Length ::
      Samples(ONE_BIT, target[..])[p] == if InPlace(PlaceAt(width, height, 1, x, y), p)
                                         then ClippedPixel(PlaceAt(width, height, 1, x, y), source, p)
                                         else old(Samples(ONE_BIT, target[..]))[p]
  {
    PlaceIsValid(width, height, 1, x, y);
    OneBit();
    ghost var g := PlaceAt(width, height, 1, x, y);
    ghost var was := Samples(ONE_BIT, target[..]);
    ghost var vals: seq<nat> :=
      seq(|was|, p requires p >= 0 => if InPlace(g, p) then ClippedPixel(g, source, p) else 0);
    var w8, h8 := width / 8, height / 8;
    ClippedBaseIff(width, height);
    Associate(height, w8, 8);
    var sourceStride, targetStride := width / 8, width / 8;
    var sourceBase: nat, targetBase := 0, ClippedBase(width, height, x, y);
    for j := 0 to h8
      invariant sourceBase == 8 * j * sourceStride && 8 * targetBase == Index(g, g.x0, g.y0 + j, 0)
      invariant Progress(g, vals, was, Samples(ONE_BIT, target[..]), j, 0, 0)
    {
      ClipLine(target, source, sourceBase, targetBase, sourceStride, w8, lut, g, height, vals, was, j);
      Distribute(8 * j, 8, sourceStride);
      NextBase(g, g.x0, g.y0 + j);
      sourceBase, targetBase := sourceBase + sourceStride * 8, targetBase + targetStride;
    }
    AllStored(g, vals, was, Samples(ONE_BIT, target[..]));
  }
}
