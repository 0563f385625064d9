/**
 * The average colour of a rectangle, added up tile by tile.
 */
module Pipette {

  import opened Arith
  import opened Rectangles
  import opened SampleIterators

  // ------------------------------------------------------------------
  // One tile

  /** A buffer of samples, `width` pixels per row, seen as an image. */
  function Shown(flat: seq<nat>, width: nat, spp: nat): Image {
    (x, y, ch) => At(flat, (y * width + x) * spp + ch)
  }

  function At(flat: seq<nat>, i: int): nat { if 0 <= i < |flat| then flat[i] else 0 }

  function Packing(bps: nat): Format { Format(8, bps) }

  /** Where the iterator is at sample `ch` of pixel (x, y). */
  lemma PixelIndex(flat: seq<nat>, width: nat, spp: nat, x: nat, y: nat, ch: nat, n: nat)
    requires n == (y * width + x) * spp + ch && n < |flat|
    ensures Shown(flat, width, spp)(x, y, ch) == flat[n]
  {
    assert Shown(flat, width, spp)(x, y, ch) == At(flat, n);
  }

  lemma SampleInside(width: nat, height: nat, spp: nat, x: nat, y: nat)
    requires x < width && y < height
    ensures (y * width + x) * spp + spp <= height * width * spp
  {
    MulMonotone(y + 1, height, width);
    assert (y + 1) * width == y * width + width;
    MulMonotone(y * width + x + 1, height * width, spp);
    assert (y * width + x + 1) * spp == (y * width + x) * spp + spp;
  }

  /** Adds the samples of one pixel. */
  method AddPixel(si: SampleIterator, sums: seq<nat>, spp: nat, ghost flat: seq<nat>,
                  ghost first: nat) returns (total: seq<nat>)
    requires si.Valid() && |sums| == spp && flat == Samples(si.f, si.data[..])
    requires si.Index() == first && first + spp <= |flat|
    modifies si
    ensures si.Valid() && si.Index() == first + spp
    ensures |total| == spp && forall ch | 0 <= ch < spp :: total[ch] == sums[ch] + flat[first + ch]
  {
    total := sums;
    for ch := 0 to spp
      invariant si.Valid() && si.Index() == first + ch && |total| == spp
      invariant forall c | 0 <= c < spp :: total[c] == if c < ch then sums[c] + flat[first + c] else sums[c]
    {
      ElementOf(si.samplesPerBase, si.At(), si.data.Length);
      var v := si.Get();
      total := total[ch := total[ch] + v];
      si.Next();
    }
  }

  predicate Totals(img: Image, sums: seq<nat>, spp: nat, l: int, r: int, t: int, b: int) {
    |sums| == spp && forall ch | 0 <= ch < spp :: sums[ch] == RectTotal(img, ch, l, r, t, b)
  }

  ghost predicate LineTotals(img: Image, was: seq<nat>, sums: seq<nat>, spp: nat, y: int, l: int, r: int) {
    |was| == |sums| == spp && forall ch | 0 <= ch < spp :: sums[ch] == was[ch] + RowTotal(img, ch, y, l, r)
  }

  lemma NextPixel(flat: seq<nat>, width: nat, spp: nat, was: seq<nat>, sums: seq<nat>, total: seq<nat>, y: nat,
                  l: nat, x: nat, first: nat)
    requires l <= x && first == (y * width + x) * spp && first + spp <= |flat|
    requires LineTotals(Shown(flat, width, spp), was, sums, spp, y, l, x)
    requires |total| == spp && forall ch | 0 <= ch < spp :: total[ch] == sums[ch] + flat[first + ch]
    ensures LineTotals(Shown(flat, width, spp), was, total, spp, y, l, x + 1)
  {
    forall ch | 0 <= ch < spp ensures Shown(flat, width, spp)(x, y, ch) == flat[first + ch] {
      PixelIndex(flat, width, spp, x, y, ch, first + ch);
    }
  }

  /** Adds the samples of one row of the rectangle. */
  method AddLine(si: SampleIterator, sums: seq<nat>, spp: nat, width: nat, l: nat, r: nat, ghost height: nat,
                 ghost y: nat, ghost flat: seq<nat>)
      returns (total: seq<nat>)
    requires si.Valid() && |sums| == spp && flat == Samples(si.f, si.data[..]) && l <= r <= width && y < height
    requires height * width * spp <= |flat| && si.Index() == (y * width + l) * spp
    modifies si
    ensures si.Valid() && si.Index() == (y * width + r) * spp
    ensures LineTotals(Shown(flat, width, spp), sums, total, spp, y, l, r)
  {
    total := sums;
    for x := l to r
      invariant si.Valid() && si.Index() == (y * width + x) * spp
      invariant LineTotals(Shown(flat, width, spp), sums, total, spp, y, l, x)
    {
      SampleInside(width, height, spp, x, y);
      ghost var first, before := si.Index(), total;
      total := AddPixel(si, total, spp, flat, first);
      NextPixel(flat, width, spp, sums, before, total, y, l, x, first);
      NextProduct(y * width + x, spp);
    }
  }

  /**
   * The sums over the rectangle of a tile.  The iterator starts at the first
   * pixel and jumps from the end of each row to the next.
   */
  method SumPixelValues(tile: array<nat>, width: nat, height: nat, bps: nat, spp: nat, l: nat, r: nat, t: nat,
                        b: nat) returns (sums: seq<nat>)
    requires bps in {1, 2, 4, 8} && l <= r <= width && t <= b <= height
    requires height * width * spp <= |Samples(Packing(bps), tile[..])|
    ensures Totals(Shown(Samples(Packing(bps), tile[..]), width, spp), sums, spp, l, r, t, b)
  {
    ghost var flat := Samples(Packing(bps), tile[..]);
    ProductNat(1, spp, t * width + l);
    ProductNat(1, spp, width - (r - l));
    var offset: nat, stride: nat := spp * (t * width + l), spp * (width - (r - l));
    var si := new SampleIterator(tile, 0, 0, Packing(bps));
    si.Add(offset);
    sums := seq(spp, _ => 0);
    Commute(spp, t * width + l);
    sums := AddRows(si, sums, spp, width, height, stride, l, r, t, b, flat);
  }

  method AddRows(si: SampleIterator, zero: seq<nat>, spp: nat, width: nat, height: nat, stride: nat, l: nat, r: nat,
                 t: nat, b: nat, ghost flat: seq<nat>)
      returns (sums: seq<nat>)
    requires si.Valid() && flat == Samples(si.f, si.data[..]) && l <= r <= width && t <= b <= height
    requires stride == spp * (width - (r - l))
    requires height * width * spp <= |flat| && si.Index() == (t * width + l) * spp
    requires Totals(Shown(flat, width, spp), zero, spp, l, r, t, t)
    modifies si
    ensures Totals(Shown(flat, width, spp), sums, spp, l, r, t, b)
  {
    sums := zero;
    for y := t to b
      invariant si.Valid() && si.Index() == (y * width + l) * spp
      invariant Totals(Shown(flat, width, spp), sums, spp, l, r, t, y)
    {
      ghost var was := sums;
      sums := AddLine(si, sums, spp, width, l, r, height, y, flat);
      NextTotals(Shown(flat, width, spp), was, sums, spp, y, l, r, t);
      si.Add(stride);
      NextLine(width, spp, l, r, y);
    }
  }

  lemma NextTotals(img: Image, was: seq<nat>, sums: seq<nat>, spp: nat, y: int, l: int, r: int, t: int)
    requires t <= y && Totals(img, was, spp, l, r, t, y) && LineTotals(img, was, sums, spp, y, l, r)
    ensures Totals(img, sums, spp, l, r, t, y + 1)
  {}

  lemma NextLine(width: nat, spp: nat, l: nat, r: nat, y: nat)
    requires l <= r <= width
    ensures (y * width + r) * spp + spp * (width - (r - l)) == ((y + 1) * width + l) * spp
  {
    var d := width - (r - l);
    assert (y + 1) * width + l == y * width + r + d by { NextProduct(y, width); }
    assert (y * width + r + d) * spp == (y * width + r) * spp + d * spp;
  }

  // ------------------------------------------------------------------
  // All tiles

  function Max(a: int, b: int): int { if a < b then b else a }

  function Min(a: int, b: int): int { if a < b then a else b }

  /** The boundary `v` between tiles, moved into the rectangle. */
  function Cut(lo: int, hi: int, v: int): int { Max(lo, Min(v, hi)) }

  /** Tile (i, j) shows its part of the image, as far as the image goes. */
  ghost predicate ShowsPart(img: Image, flat: seq<nat>, T: nat, spp: nat, w: nat, h: nat, i: nat, j: nat) {
    forall x, y, ch | 0 <= x < T && 0 <= y < T && 0 <= ch < spp && i * T + x < w && j * T + y < h ::
      Shown(flat, T, spp)(x, y, ch) == img(i * T + x, j * T + y, ch)
  }

  /** The buffer of tile (i, j) is large enough and shows its part of the image. */
  ghost predicate TileHolds(tile: seq<nat>, img: Image, T: nat, bps: nat, spp: nat, w: nat, h: nat, i: nat, j: nat)
    requires Packing(bps).Valid()
  {
    T * T * spp <= |Samples(Packing(bps), tile)| && ShowsPart(img, Samples(Packing(bps), tile), T, spp, w, h, i, j)
  }

  /** Adds colour values; the left operand may still be empty. */
  function SumPipetteColors(lhs: seq<nat>, rhs: seq<nat>): seq<nat>
    requires |lhs| == 0 || |lhs| == |rhs|
  {
    if |lhs| == 0 then rhs else seq(|rhs|, ch requires 0 <= ch < |rhs| => rhs[ch] + lhs[ch])
  }

  method DividePipetteColors(elements: seq<nat>, divisor: nat) returns (result: seq<nat>)
    requires divisor > 0
    ensures |result| == |elements| && forall ch | 0 <= ch < |elements| :: result[ch] == elements[ch] / divisor
  {
    result := elements;
    for i := 0 to |elements|
      invariant |result| == |elements|
      invariant forall ch | 0 <= ch < |elements| ::
        result[ch] == if ch < i then elements[ch] / divisor else elements[ch]
    {
      result := result[i := result[i] / divisor];
    }
  }

  function Value(sums: seq<nat>, ch: int): nat { if 0 <= ch < |sums| then sums[ch] else 0 }

  /** The sum of the columns of tiles before boundary `cx`, and of the next column before boundary `cy`. */
  ghost predicate Collected(img: Image, sums: seq<nat>, spp: nat, l: int, t: int, b: int, cx: int, nx: int, cy: int) {
    (|sums| == 0 || |sums| == spp)
    && forall ch | 0 <= ch < spp ::
         Value(sums, ch) == RectTotal(img, ch, l, cx, t, b) + RectTotal(img, ch, cx, nx, t, cy)
  }

  lemma CollectTile(img: Image, sums: seq<nat>, part: seq<nat>, spp: nat, l: int, t: int, b: int, cx: int, nx: int,
                    cy: int, ny: int)
    requires t <= cy <= ny && Collected(img, sums, spp, l, t, b, cx, nx, cy) && Totals(img, part, spp, cx, nx, cy, ny)
    ensures Collected(img, SumPipetteColors(sums, part), spp, l, t, b, cx, nx, ny)
  {
    forall ch | 0 <= ch < spp
      ensures Value(SumPipetteColors(sums, part), ch) ==
              RectTotal(img, ch, l, cx, t, b) + RectTotal(img, ch, cx, nx, t, ny)
    {
      RectSplitY(img, ch, cx, nx, t, cy, ny);
    }
  }

  lemma NextColumn(img: Image, sums: seq<nat>, spp: nat, l: int, t: int, b: int, cx: int, nx: int, mx: int)
    requires l <= cx <= nx && Collected(img, sums, spp, l, t, b, cx, nx, b)
    ensures Collected(img, sums, spp, l, t, b, nx, mx, t)
  {
    forall ch | 0 <= ch < spp
      ensures Value(sums, ch) == RectTotal(img, ch, l, nx, t, b) + RectTotal(img, ch, nx, mx, t, t)
    {
      RectSplitX(img, ch, l, cx, nx, t, b);
    }
  }

  /** A part of tile (i, j), given by its place in the image. */
  lemma TileTotals(img: Image, flat: seq<nat>, T: nat, spp: nat, w: nat, h: nat, i: nat, j: nat, part: seq<nat>,
                   dx: int, dy: int, l: int, r: int, t: int, b: int)
    requires ShowsPart(img, flat, T, spp, w, h, i, j) && dx == i * T && dy == j * T
    requires dx <= l && r <= dx + T && dy <= t && b <= dy + T && r <= w && b <= h
    requires Totals(Shown(flat, T, spp), part, spp, l - dx, r - dx, t - dy, b - dy)
    ensures Totals(img, part, spp, l, r, t, b)
  {
    forall ch | 0 <= ch < spp ensures part[ch] == RectTotal(img, ch, l, r, t, b) {
      RectMoved(img, Shown(flat, T, spp), ch, dx, dy, l - dx, r - dx, t - dy, b - dy);
    }
  }

  /** The boundaries of the tile in place `i`, moved into the rectangle. */
  lemma TileBounds(T: nat, lo: nat, hi: nat, i: nat, at: nat)
    requires T > 0 && lo < hi && lo / T <= i <= (hi - 1) / T && at == i * T
    ensures Cut(lo, hi, at) == Max(at, lo) && Cut(lo, hi, at + T) == Min(at + T, hi)
    ensures at < hi && lo < at + T
  {
    MulMonotone(lo / T, i, T);
    MulMonotone(i, (hi - 1) / T, T);
    assert lo < lo / T * T + T;
    assert (hi - 1) / T * T <= hi - 1;
  }

  lemma FirstBound(T: nat, lo: nat, hi: nat)
    requires T > 0 && lo < hi
    ensures Cut(lo, hi, lo / T * T) == lo && Cut(lo, hi, ((hi - 1) / T + 1) * T) == hi && lo / T <= (hi - 1) / T
  {
    assert lo / T * T <= lo;
    var q := (hi - 1) / T;
    assert hi - 1 < q * T + T == (q + 1) * T;
    if q < lo / T { MulMonotone(q + 1, lo / T, T); }
  }

  /** Adds tile (x, y) to the colours. */
  method AddTile(tile: array<nat>, T: nat, bps: nat, spp: nat, x: nat, y: nat, l: nat, r: nat, t: nat, b: nat,
                 colors: seq<nat>,
                 ghost img: Image, ghost w: nat, ghost h: nat) returns (sums: seq<nat>)
    requires T > 0 && bps in {1, 2, 4, 8} && l < r <= w && t < b <= h
    requires TileHolds(tile[..], img, T, bps, spp, w, h, x, y)
    requires l / T <= x <= (r - 1) / T && t / T <= y <= (b - 1) / T
    requires Collected(img, colors, spp, l, t, b, Cut(l, r, x * T), Cut(l, r, x * T + T), Cut(t, b, y * T))
    ensures Collected(img, sums, spp, l, t, b, Cut(l, r, x * T), Cut(l, r, x * T + T), Cut(t, b, y * T + T))
    ensures |sums| == spp
  {
    ghost var flat := Samples(Packing(bps), tile[..]);
    var baseX: nat, baseY: nat := x * T, y * T;
    TileBounds(T, l, r, x, baseX);
    TileBounds(T, t, b, y, baseY);
    var left, right, top, bottom := Max(baseX, l), Min(baseX + T, r), Max(baseY, t), Min(baseY + T, b);
    var part := SumPixelValues(tile, T, T, bps, spp, left - baseX, right - baseX, top - baseY, bottom - baseY);
    TileTotals(img, flat, T, spp, w, h, x, y, part, baseX, baseY, left, right, top, bottom);
    assert left == Cut(l, r, x * T) && right == Cut(l, r, x * T + T) && top == Cut(t, b, y * T) &&
           bottom == Cut(t, b, y * T + T);
    CollectTile(img, colors, part, spp, l, t, b, left, right, top, bottom);
    sums := SumPipetteColors(colors, part);
  }

  /** All tiles of a plane, each with its part of the image. */
  ghost predicate Holds(tiles: seq<seq<array<nat>>>, img: Image, T: nat, bps: nat, spp: nat, w: nat, h: nat)
    requires Packing(bps).Valid()
    reads set j, i | 0 <= j < |tiles| && 0 <= i < |tiles[j]| :: tiles[j][i]
  {
    && T > 0 && |tiles| == CeilDiv(h, T)
    && (forall j | 0 <= j < |tiles| :: |tiles[j]| == CeilDiv(w, T))
    && forall j, i | 0 <= j < |tiles| && 0 <= i < |tiles[j]| :: TileHolds(tiles[j][i][..], img, T, bps, spp, w, h, i, j)
  }

  lemma TileExists(T: nat, hi: nat, size: nat, i: nat)
    requires T > 0 && 0 < hi <= size && i <= (hi - 1) / T
    ensures i < CeilDiv(size, T)
  {
    CeilDivIndex(hi - 1, size, T);
  }

  /** Adds the tiles of column `x`. */
  method AddColumn(tiles: seq<seq<array<nat>>>, T: nat, bps: nat, spp: nat, x: nat, l: nat, r: nat, t: nat, b: nat,
                   colors: seq<nat>,
                   ghost img: Image, ghost w: nat, ghost h: nat) returns (sums: seq<nat>)
    requires bps in {1, 2, 4, 8} && l < r <= w && t < b <= h && Holds(tiles, img, T, bps, spp, w, h)
    requires l / T <= x <= (r - 1) / T
    requires Collected(img, colors, spp, l, t, b, Cut(l, r, x * T), Cut(l, r, x * T + T), t)
    ensures Collected(img, sums, spp, l, t, b, Cut(l, r, x * T), Cut(l, r, x * T + T), b) && |sums| == spp
  {
    sums := colors;
    var yStart: nat, yEnd: nat := t / T, (b - 1) / T;
    FirstBound(T, t, b);
    for y := yStart to yEnd + 1
      invariant y == yStart || |sums| == spp
      invariant Collected(img, sums, spp, l, t, b, Cut(l, r, x * T), Cut(l, r, x * T + T), Cut(t, b, y * T))
    {
      TileExists(T, r, w, x);
      TileExists(T, b, h, y);
      sums := AddTile(tiles[y][x], T, bps, spp, x, y, l, r, t, b, sums, img, w, h);
      NextProduct(y, T);
    }
  }

  /** Adds all columns of tiles that meet the rectangle. */
  method AddColumns(tiles: seq<seq<array<nat>>>, T: nat, bps: nat, spp: nat, l: nat, r: nat, t: nat, b: nat,
                    ghost img: Image, ghost w: nat, ghost h: nat) returns (sums: seq<nat>)
    requires bps in {1, 2, 4, 8} && l < r <= w && t < b <= h && Holds(tiles, img, T, bps, spp, w, h)
    ensures Totals(img, sums, spp, l, r, t, b)
  {
    sums := [];
    var xStart: nat, xEnd: nat := l / T, (r - 1) / T;
    FirstBound(T, l, r);
    StartEmpty(img, spp, l, t, b, Cut(l, r, xStart * T + T));
    for x := xStart to xEnd + 1
      invariant x == xStart || |sums| == spp
      invariant Collected(img, sums, spp, l, t, b, Cut(l, r, x * T), Cut(l, r, x * T + T), t)
    {
      sums := AddColumn(tiles, T, bps, spp, x, l, r, t, b, sums, img, w, h);
      NextProduct(x, T);
      NextColumn(img, sums, spp, l, t, b, Cut(l, r, x * T), Cut(l, r, x * T + T), Cut(l, r, (x + 1) * T + T));
    }
  }

  lemma StartEmpty(img: Image, spp: nat, l: int, t: int, b: int, nx: int)
    ensures Collected(img, [], spp, l, t, b, l, nx, t)
  {
    forall ch | 0 <= ch < spp ensures RectTotal(img, ch, l, l, t, b) == 0 { EmptyRect(img, ch, l, t, b); }
  }

  lemma AreaPositive(a: nat, b: nat)
    ensures a * b >= 0 && (a * b == 0 <==> a == 0 || b == 0)
  {}

  /**
   * The average over the rectangle l <= x < r, t <= y < b: the sums of the parts
   * of all tiles that meet it, divided by the number of pixels.
   */
  method GetPixelAverages(tiles: seq<seq<array<nat>>>, T: nat, bps: nat, spp: nat, l: nat, r: nat, t: nat, b: nat,
                          ghost img: Image, ghost w: nat, ghost h: nat) returns (averages: seq<nat>)
    requires bps in {1, 2, 4, 8} && l <= r <= w && t <= b <= h && Holds(tiles, img, T, bps, spp, w, h)
    ensures (l == r || t == b) ==> averages == []
    ensures l < r && t < b ==> (r - l) * (b - t) > 0 && |averages| == spp
    ensures l < r && t < b ==>
            forall ch | 0 <= ch < spp :: averages[ch] == RectTotal(img, ch, l, r, t, b) / ((r - l) * (b - t))
  {
    AreaPositive(r - l, b - t);
    var totalPixels := (r - l) * (b - t);
    if totalPixels == 0 {
      return [];
    }
    var sums := AddColumns(tiles, T, bps, spp, l, r, t, b, img, w, h);
    averages := DividePipetteColors(sums, totalPixels);
  }
}
