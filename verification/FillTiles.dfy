/** Scattering the scanlines of a file over one row of tiles. */
module FillTiles {

  import opened Arith
  import opened Rectangles
  import opened SampleIterators
  import Pipette

  /** `s` with `piece` written at `at`. */
  function Overwritten(s: seq<nat>, at: nat, piece: seq<nat>): (r: seq<nat>)
    requires at + |piece| <= |s|
    ensures |r| == |s|
  {
    s[..at] + piece + s[at + |piece|..]
  }

  method Memcpy(dst: array<nat>, at: nat, src: seq<nat>, from: nat, n: nat)
    requires at + n <= dst.Length && from + n <= |src|
    modifies dst
    ensures dst[..] == Overwritten(old(dst[..]), at, src[from..from + n])
  {
    for i := 0 to n
      invariant forall k | 0 <= k < dst.Length ::
        dst[k] == if at <= k < at + i then src[from + (k - at)] else old(dst[k])
    {
      dst[at + i] := src[from + i];
    }
    OverwrittenIs(old(dst[..]), at, src, from, n, dst[..]);
  }

  lemma OverwrittenIs(s: seq<nat>, at: nat, src: seq<nat>, from: nat, n: nat, r: seq<nat>)
    requires at + n <= |s| == |r| && from + n <= |src|
    requires forall k | 0 <= k < |s| :: r[k] == if at <= k < at + n then src[from + (k - at)] else s[k]
    ensures r == Overwritten(s, at, src[from..from + n])
  {}

  /** What tile number `tile` of the line gets: `stride` bytes, less at the end of the line. */
  function Piece(row: seq<nat>, tile: nat, stride: nat): (p: seq<nat>)
    ensures |p| <= stride
  {
    var from := tile * stride;
    if from + stride <= |row| then row[from..from + stride] else if from <= |row| then row[from..] else []
  }

  /** A tile buffer after its first `n` lines. */
  function Filled(was: seq<nat>, lines: seq<seq<nat>>, start: nat, tile: nat, stride: nat, n: nat): (r: seq<nat>)
    requires n * stride <= |was| && start + n <= |lines|
    ensures |r| == |was|
  {
    if n == 0 then was
    else
      NextProduct(n - 1, stride);
      Overwritten(Filled(was, lines, start, tile, stride, n - 1), (n - 1) * stride,
                  Piece(lines[start + n - 1], tile, stride))
  }

  ghost predicate Distinct(tiles: seq<array<nat>>) {
    forall t, u | 0 <= t < u < |tiles| :: tiles[t] != tiles[u]
  }

  /** The scanline reaches into the last tile and not beyond it. */
  predicate LineFits(size: nat, firstTile: nat, tileCount: nat, stride: nat) {
    tileCount > 0 && (firstTile + tileCount - 1) * stride <= size <= (firstTile + tileCount) * stride
  }

  lemma PieceOf(row: seq<nat>, firstTile: nat, tileCount: nat, stride: nat, t: nat)
    requires LineFits(|row|, firstTile, tileCount, stride) && t < tileCount
    ensures 0 <= (firstTile + t) * stride <= |row|
    ensures var from := (firstTile + t) * stride;
      if t < tileCount - 1 then from + stride <= |row| && Piece(row, firstTile + t, stride) == row[from..from + stride]
      else |row| - from <= stride && Piece(row, firstTile + t, stride) == row[from..]
  {
    NextProduct(firstTile + t, stride);
    if t < tileCount - 1 {
      MulMonotone(firstTile + t + 1, firstTile + tileCount - 1, stride);
    } else {
      assert firstTile + t + 1 == firstTile + tileCount;
    }
  }

  /** `pieces` are the parts of the line for the tiles. */
  ghost predicate ArePieces(pieces: seq<seq<nat>>, row: seq<nat>, firstTile: nat, stride: nat, tileCount: nat) {
    |pieces| == tileCount && forall t | 0 <= t < tileCount :: pieces[t] == Piece(row, firstTile + t, stride)
  }

  method CopyPiece(dst: array<nat>, at: nat, row: seq<nat>, firstTile: nat, tileCount: nat, stride: nat, t: nat)
    requires LineFits(|row|, firstTile, tileCount, stride) && t < tileCount && at + stride <= dst.Length
    modifies dst
    ensures dst[..] == Overwritten(old(dst[..]), at, Piece(row, firstTile + t, stride))
  {
    PieceOf(row, firstTile, tileCount, stride, t);
    var from: nat := (firstTile + t) * stride;
    Memcpy(dst, at, row, from, if t < tileCount - 1 then stride else |row| - from);
  }

  /** Copies one scanline; every tile has its own pointer, and all of them advance by a tile row. */
  method FillLine(row: seq<nat>, dataPtr: seq<nat>, stride: nat, firstTile: nat, tiles: seq<array<nat>>,
                  ghost at: nat, ghost pieces: seq<seq<nat>>)
      returns (next: seq<nat>)
    requires Distinct(tiles) && LineFits(|row|, firstTile, |tiles|, stride) && |dataPtr| == |tiles|
    requires ArePieces(pieces, row, firstTile, stride, |tiles|)
    requires forall t | 0 <= t < |tiles| :: dataPtr[t] == at && at + stride <= tiles[t].Length
    modifies set t | t in tiles
    ensures |next| == |tiles| && forall t | 0 <= t < |tiles| :: next[t] == at + stride
    ensures forall t | 0 <= t < |tiles| :: tiles[t][..] == Overwritten(old(tiles[t][..]), at, pieces[t])
  {
    next := dataPtr;
    for tile := 0 to |tiles|
      invariant |next| == |tiles| && forall t | 0 <= t < |tiles| :: next[t] == if t < tile then at + stride else at
      invariant forall t | 0 <= t < tile :: tiles[t][..] == Overwritten(old(tiles[t][..]), at, pieces[t])
      invariant forall t | tile <= t < |tiles| :: tiles[t][..] == old(tiles[t][..])
    {
      CopyPiece(tiles[tile], next[tile], row, firstTile, |tiles|, stride, tile);
      next := next[tile := next[tile] + stride];
    }
  }

  /** Reads `lineCount` scanlines and copies each into the tiles of the row. */
  method FillTiles(lines: seq<seq<nat>>, startLine: nat, lineCount: nat, stride: nat, firstTile: nat,
                   tiles: seq<array<nat>>)
    requires Distinct(tiles) && startLine + lineCount <= |lines|
    requires forall i | startLine <= i < startLine + lineCount :: LineFits(|lines[i]|, firstTile, |tiles|, stride)
    requires forall t | 0 <= t < |tiles| :: lineCount * stride <= tiles[t].Length
    modifies set t | t in tiles
    ensures forall t | 0 <= t < |tiles| ::
      tiles[t][..] == Filled(old(tiles[t][..]), lines, startLine, firstTile + t, stride, lineCount)
  {
    var dataPtr: seq<nat> := seq(|tiles|, _ => 0);
    ghost var at: nat := 0;
    for i := 0 to lineCount
      invariant at == i * stride && |dataPtr| == |tiles| && forall t | 0 <= t < |tiles| :: dataPtr[t] == at
      invariant forall t | 0 <= t < |tiles| ::
        i * stride <= tiles[t].Length &&
        tiles[t][..] == Filled(old(tiles[t][..]), lines, startLine, firstTile + t, stride, i)
    {
      NextProduct(i, stride);
      MulMonotone(i + 1, lineCount, stride);
      ghost var pieces := seq(|tiles|, t requires t >= 0 => Piece(lines[startLine + i], firstTile + t, stride));
      dataPtr := FillLine(lines[startLine + i], dataPtr, stride, firstTile, tiles, at, pieces);
      at := at + stride;
    }
  }

  // ------------------------------------------------------------------
  // The samples of the tiles are those of the scanlines

  lemma OverwrittenAt(s: seq<nat>, at: nat, piece: seq<nat>, k: nat)
    requires at + |piece| <= |s| && k < |s|
    ensures Overwritten(s, at, piece)[k] == if at <= k < at + |piece| then piece[k - at] else s[k]
  {}

  lemma PieceByte(row: seq<nat>, tile: nat, stride: nat, c: nat)
    requires c < stride && tile * stride + c < |row|
    ensures 0 <= tile * stride && c < |Piece(row, tile, stride)|
    ensures Piece(row, tile, stride)[c] == row[tile * stride + c]
  {
    NextProduct(tile, stride);
  }

  /** Byte `c` of line `y` of a filled tile is the byte of the scanline, as far as the scanline goes. */
  lemma {:induction false} FilledByte(was: seq<nat>, lines: seq<seq<nat>>, start: nat, tile: nat, stride: nat, n: nat,
                                      y: nat, c: nat, at: nat)
    requires n * stride <= |was| && start + n <= |lines| && y < n && c < stride && at == y * stride + c
    requires tile * stride + c < |lines[start + y]|
    ensures at < |was| && 0 <= tile * stride
    ensures Filled(was, lines, start, tile, stride, n)[at] == lines[start + y][tile * stride + c]
  {
    var off: nat := LastLine(n, stride, y, c, at);
    FilledStep(was, lines, start, tile, stride, n, off, at);
    if y < n - 1 {
      FilledByte(was, lines, start, tile, stride, n - 1, y, c, at);
    } else {
      PieceByte(lines[start + y], tile, stride, c);
    }
  }

  /** Where the last line begins, and on which side of it a byte lies. */
  lemma LastLine(n: nat, stride: nat, y: nat, c: nat, at: nat) returns (off: nat)
    requires y < n && c < stride && at == y * stride + c
    ensures off == (n - 1) * stride && off + stride == n * stride
    ensures if y < n - 1 then at < off else at == off + c
  {
    NextProduct(n - 1, stride);
    NextProduct(y, stride);
    off := (n - 1) * stride;
    if y < n - 1 { MulMonotone(y + 1, n - 1, stride); }
  }

  lemma FilledStep(was: seq<nat>, lines: seq<seq<nat>>, start: nat, tile: nat, stride: nat, n: nat, off: nat, at: nat)
    requires 0 < n && off == (n - 1) * stride && off + stride == n * stride <= |was| && start + n <= |lines|
    requires at < |was|
    ensures (n - 1) * stride <= |was|
    ensures
      var before := Filled(was, lines, start, tile, stride, n - 1);
      var piece := Piece(lines[start + n - 1], tile, stride);
      Filled(was, lines, start, tile, stride, n)[at] ==
        if off <= at < off + |piece| then piece[at - off] else before[at]
  {
    OverwrittenAt(Filled(was, lines, start, tile, stride, n - 1), off, Piece(lines[start + n - 1], tile, stride), at);
  }

  /** Sample `ch` of pixel (x, y) of the image that the scanlines hold. */
  function LineImage(lines: seq<seq<nat>>, bps: nat, spp: nat): Image
    requires Pipette.Packing(bps).Valid()
  {
    (x, y, ch) =>
      if 0 <= y < |lines| && 0 <= x * spp + ch then SampleAt(Pipette.Packing(bps), lines[y], x * spp + ch) else 0
  }

  /** Bytes and samples of a tile row, for tile sizes that are multiples of 8. */
  predicate Aligned(T: nat, bps: nat, spp: nat, stride: nat) {
    bps in {1, 2, 4, 8} && stride == T * spp * bps / 8 && T % 8 == 0
  }

  lemma StrideSamples(T: nat, bps: nat, spp: nat, stride: nat)
    requires Aligned(T, bps, spp, stride)
    ensures Pipette.Packing(bps).Valid() && stride * Pipette.Packing(bps).SamplesPerBase() == T * spp
  {
    var a := T / 8 * spp * bps;
    assert T * spp * bps == 8 * a;
    assert stride == a;
    assert Pipette.Packing(bps).SamplesPerBase() * bps == 8;
    assert a * Pipette.Packing(bps).SamplesPerBase() == T / 8 * spp * (bps * Pipette.Packing(bps).SamplesPerBase());
  }

  /** One sample of a tile whose bytes are those of the scanline. */
  lemma SampleCopied(f: Format, s: seq<nat>, line: seq<nat>, spb: nat, a: nat, b: nat, m: nat)
    requires f.Valid() && spb == f.SamplesPerBase()
    requires a + m / spb < |s| && b + m / spb < |line| && s[a + m / spb] == line[b + m / spb]
    ensures SampleAt(f, s, a * spb + m) == SampleAt(f, line, b * spb + m)
  {
    PlaceOf(a, m, spb);
    PlaceOf(b, m, spb);
  }

  /** The place of a pixel's sample in a tile and in its scanline. */
  lemma PixelPlaces(T: nat, spp: nat, stride: nat, spb: nat, x: nat, y: nat, i: nat, ch: nat)
    requires x < T && ch < spp && stride * spb == T * spp
    ensures x * spp + ch < stride * spb
    ensures (y * T + x) * spp + ch == y * stride * spb + (x * spp + ch)
    ensures (i * T + x) * spp + ch == i * stride * spb + (x * spp + ch)
  {
    MulMonotone(x + 1, T, spp);
    NextProduct(x, spp);
    Distribute(y * T, x, spp);
    Distribute(i * T, x, spp);
    Associate(y, T, spp);
    Associate(y, stride, spb);
    Associate(i, T, spp);
    Associate(i, stride, spb);
  }

  /** What fillTiles needs of the scanlines of an image. */
  ghost predicate LinesFit(lines: seq<seq<nat>>, w: nat, h: nat, bps: nat, spp: nat, stride: nat, tileCount: nat)
    requires Pipette.Packing(bps).Valid()
  {
    |lines| == h && forall y | 0 <= y < h ::
      LineFits(|lines[y]|, 0, tileCount, stride) && w * spp <= |lines[y]| * Pipette.Packing(bps).SamplesPerBase()
  }

  /** The byte that holds a sample of the image is in its scanline. */
  lemma SampleInLine(size: nat, w: nat, spp: nat, spb: nat, X: nat, ch: nat, b: nat, m: nat)
    requires spb > 0 && X < w && ch < spp && w * spp <= size * spb && X * spp + ch == b * spb + m
    ensures b + m / spb < size
  {
    MulMonotone(X + 1, w, spp);
    NextProduct(X, spp);
    InBuffer(X * spp + ch, size, spb);
    PlaceOf(b, m, spb);
  }

  lemma LineSample(f: Format, spb: nat, was: seq<nat>, lines: seq<seq<nat>>, start: nat, tile: nat, stride: nat,
                   n: nat, y: nat,
                   m: nat, a: nat, b: nat)
    requires f.Valid() && spb == f.SamplesPerBase() && n * stride <= |was| && start + n <= |lines| && y < n
    requires a == y * stride && b == tile * stride && m < stride * spb && b + m / spb < |lines[start + y]|
    ensures a + m / spb < |was|
    ensures SampleAt(f, Filled(was, lines, start, tile, stride, n), a * spb + m) ==
            SampleAt(f, lines[start + y], b * spb + m)
  {
    InBuffer(m, stride, spb);
    FilledByte(was, lines, start, tile, stride, n, y, m / spb, a + m / spb);
    SampleCopied(f, Filled(was, lines, start, tile, stride, n), lines[start + y], spb, a, b, m);
  }

  /** A pixel of tile `i` of the row that begins at line `start`, at index `p` of the tile and `q` of the line. */
  lemma PixelCopied(f: Format, spb: nat, was: seq<nat>, lines: seq<seq<nat>>, start: nat, T: nat, spp: nat,
                    stride: nat, w: nat,
                    i: nat, n: nat, x: nat, y: nat, ch: nat, p: nat, q: nat)
    requires f.Valid() && spb == f.SamplesPerBase() && stride * spb == T * spp
    requires n * stride <= |was| && start + n <= |lines| && y < n && x < T && ch < spp && i * T + x < w
    requires w * spp <= |lines[start + y]| * spb
    requires p == (y * T + x) * spp + ch && q == (i * T + x) * spp + ch
    ensures p < |Samples(f, was)|
    ensures SampleAt(f, Filled(was, lines, start, i, stride, n), p) == SampleAt(f, lines[start + y], q)
  {
    var m := x * spp + ch;
    PixelPlaces(T, spp, stride, spb, x, y, i, ch);
    NextProduct(y, stride);
    NextProduct(i, stride);
    SampleInLine(|lines[start + y]|, w, spp, spb, i * T + x, ch, i * stride, m);
    LineSample(f, spb, was, lines, start, i, stride, n, y, m, y * stride, i * stride);
    PlaceOf(y * stride, m, spb);
    InBuffer(p, |was|, spb);
  }

  lemma TileSize(T: nat, stride: nat, spb: nat, spp: nat, size: nat)
    requires T * stride <= size && stride * spb == T * spp
    ensures T * T * spp <= size * spb
  {
    MulMonotone(T * stride, size, spb);
    Associate(T, stride, spb);
    Associate(T, T, spp);
  }

  lemma FilledPixel(was: seq<nat>, lines: seq<seq<nat>>, w: nat, T: nat, bps: nat, spp: nat, stride: nat, start: nat,
                    i: nat, n: nat, x: nat, y: nat, ch: nat)
    requires Aligned(T, bps, spp, stride) && Pipette.Packing(bps).Valid()
    requires n * stride <= |was| && start + n <= |lines| && y < n && x < T && ch < spp && i * T + x < w
    requires w * spp <= |lines[start + y]| * Pipette.Packing(bps).SamplesPerBase()
    ensures Pipette.Shown(Samples(Pipette.Packing(bps), Filled(was, lines, start, i, stride, n)), T, spp)(x, y, ch)
      == LineImage(lines, bps, spp)(i * T + x, start + y, ch)
  {
    StrideSamples(T, bps, spp, stride);
    var f, r := Pipette.Packing(bps), Filled(was, lines, start, i, stride, n);
    IndexNat(y, T, x, spp, ch);
    IndexNat(i, T, x, spp, ch);
    var p: nat, q: nat := (y * T + x) * spp + ch, (i * T + x) * spp + ch;
    PixelCopied(f, f.SamplesPerBase(), was, lines, start, T, spp, stride, w, i, n, x, y, ch, p, q);
    ShownAt(f, r, T, spp, x, y, ch, p);
    LineAt(lines, bps, spp, i * T + x, start + y, ch, q);
  }

  lemma IndexNat(a: nat, b: nat, c: nat, d: nat, e: nat)
    ensures a * b >= 0 && (a * b + c) * d + e >= 0
  {}

  lemma ShownAt(f: Format, r: seq<nat>, T: nat, spp: nat, x: nat, y: nat, ch: nat, p: nat)
    requires f.Valid() && p == (y * T + x) * spp + ch < |Samples(f, r)|
    ensures Pipette.Shown(Samples(f, r), T, spp)(x, y, ch) == SampleAt(f, r, p)
  {
    Pipette.PixelIndex(Samples(f, r), T, spp, x, y, ch, p);
  }

  lemma LineAt(lines: seq<seq<nat>>, bps: nat, spp: nat, X: nat, Y: nat, ch: nat, q: nat)
    requires Pipette.Packing(bps).Valid() && Y < |lines| && q == X * spp + ch
    ensures LineImage(lines, bps, spp)(X, Y, ch) == SampleAt(Pipette.Packing(bps), lines[Y], q)
  {}

  /** After fillTiles, tile (i, j) shows its part of the image. */
  lemma FilledShows(was: seq<nat>, lines: seq<seq<nat>>, w: nat, h: nat, T: nat, bps: nat, spp: nat, stride: nat,
                    count: nat,
                    i: nat, j: nat, start: nat, n: nat)
    requires Aligned(T, bps, spp, stride) && Pipette.Packing(bps).Valid()
    requires LinesFit(lines, w, h, bps, spp, stride, count)
    requires start == j * T < h && n == (if h - start < T then h - start else T)
    requires T * stride <= |was| && n * stride <= |was|
    ensures Pipette.TileHolds(Filled(was, lines, start, i, stride, n), LineImage(lines, bps, spp),
                              T, bps, spp, w, h, i, j)
  {
    StrideSamples(T, bps, spp, stride);
    TileSize(T, stride, Pipette.Packing(bps).SamplesPerBase(), spp, |was|);
    var flat, img := Samples(Pipette.Packing(bps), Filled(was, lines, start, i, stride, n)), LineImage(lines, bps, spp);
    forall x, y, ch | 0 <= x < T && 0 <= y < T && 0 <= ch < spp && i * T + x < w && j * T + y < h
      ensures Pipette.Shown(flat, T, spp)(x, y, ch) == img(i * T + x, j * T + y, ch)
    {
      FilledPixel(was, lines, w, T, bps, spp, stride, start, i, n, x, y, ch);
    }
  }

  // ------------------------------------------------------------------
  // From the file to the pipette

  /** Every scanline has as many bytes as its samples need. */
  predicate Scanlines(lines: seq<seq<nat>>, w: nat, h: nat, bps: nat, spp: nat) {
    |lines| == h && forall y | 0 <= y < h :: |lines[y]| == CeilDiv(w * spp * bps, 8)
  }

  /** `w` pixels of `d` bits, `a` bytes for `T` of them. */
  lemma LineBytes(w: nat, T: nat, d: nat, a: nat, count: nat, size: nat)
    requires T > 0 && w > 0 && 8 * a == T * d && count == CeilDiv(w, T) && size == CeilDiv(w * d, 8)
    ensures LineFits(size, 0, count, a) && w * d <= 8 * size
  {
    CeilDivBounds(w, T);
    CeilDivBounds(w * d, 8);
    MulMonotone(w, count * T, d);
    Associate(count, T, d);
    assert count * T * d == 8 * (count * a);
    var p: nat := count - 1;
    MulMonotone(p * T, w, d);
    Associate(p, T, d);
    assert p * T * d == 8 * (p * a);
  }

  lemma DivideOut(a: nat, b: nat, c: nat)
    requires c > 0 && a * c <= b * c
    ensures a <= b
  {
    if a > b { MulMonotone(b + 1, a, c); NextProduct(b, c); }
  }

  lemma SamplesFit(samples: nat, size: nat, bps: nat, spb: nat)
    requires bps > 0 && spb * bps == 8 && samples * bps <= 8 * size
    ensures samples <= size * spb
  {
    Associate(size, spb, bps);
    DivideOut(samples, size * spb, bps);
  }

  /** Scanlines that are just long enough reach into the last tile and not beyond it. */
  lemma ScanlinesFit(lines: seq<seq<nat>>, w: nat, h: nat, T: nat, bps: nat, spp: nat, stride: nat)
    requires Aligned(T, bps, spp, stride) && T > 0 && w > 0 && Scanlines(lines, w, h, bps, spp)
    ensures Pipette.Packing(bps).Valid() && LinesFit(lines, w, h, bps, spp, stride, CeilDiv(w, T))
  {
    var spb := Pipette.Packing(bps).SamplesPerBase();
    TileBits(T, bps, spp, stride);
    Associate(w, spp, bps);
    ProductNat(w, spp, bps);
    forall y | 0 <= y < h ensures LineFits(|lines[y]|, 0, CeilDiv(w, T), stride) && w * spp <= |lines[y]| * spb {
      LineBytes(w, T, spp * bps, stride, CeilDiv(w, T), |lines[y]|);
      SamplesFit(w * spp, |lines[y]|, bps, spb);
    }
  }

  lemma TileBits(T: nat, bps: nat, spp: nat, stride: nat)
    requires Aligned(T, bps, spp, stride)
    ensures 8 * stride == T * (spp * bps)
  {
    Associate(T / 8, spp, bps);
    Associate(8, T / 8, spp * bps);
    Associate(T, spp, bps);
    assert T * spp * bps == 8 * (T / 8 * (spp * bps));
  }

  /** No two places of the plane share a buffer. */
  ghost predicate AllDistinct(tiles: seq<seq<array<nat>>>) {
    && (forall j | 0 <= j < |tiles| :: Distinct(tiles[j]))
    && forall j, j' | 0 <= j < j' < |tiles| :: RowsApart(tiles[j], tiles[j'])
  }

  ghost predicate RowsApart(a: seq<array<nat>>, b: seq<array<nat>>) {
    forall i, i' | 0 <= i < |a| && 0 <= i' < |b| :: a[i] != b[i']
  }

  /** A plane of tiles that covers a bitmap of w x h pixels. */
  ghost predicate Plane(tiles: seq<seq<array<nat>>>, w: nat, h: nat, T: nat, stride: nat) {
    && T > 0 && |tiles| == CeilDiv(h, T)
    && (forall j | 0 <= j < |tiles| :: |tiles[j]| == CeilDiv(w, T))
    && forall j, i | 0 <= j < |tiles| && 0 <= i < |tiles[j]| :: T * stride <= tiles[j][i].Length
  }

  /** Each tile of row `j` shows its part of the image. */
  ghost predicate RowHolds(row: seq<array<nat>>, img: Image, T: nat, bps: nat, spp: nat, w: nat, h: nat, j: nat)
    requires Pipette.Packing(bps).Valid()
    reads set t | t in row
  {
    forall i | 0 <= i < |row| :: Pipette.TileHolds(row[i][..], img, T, bps, spp, w, h, i, j)
  }

  /** The scanlines of tile row `j`; they fit its tiles. */
  method RowLines(T: nat, h: nat, ghost stride: nat, j: nat) returns (start: nat, n: nat)
    requires T > 0 && j < CeilDiv(h, T)
    ensures start == j * T < h && n == (if h - start < T then h - start else T) && n * stride <= T * stride
  {
    CeilDivIndex(j, h, T);
    start := j * T;
    n := if h - start < T then h - start else T;
    MulMonotone(n, T, stride);
  }

  /** Fills the tiles of one row. */
  method FillRow(lines: seq<seq<nat>>, w: nat, h: nat, T: nat, bps: nat, spp: nat, stride: nat,
                 tiles: seq<array<nat>>, j: nat,
                 start: nat, lineCount: nat)
    requires Aligned(T, bps, spp, stride) && Pipette.Packing(bps).Valid() && Distinct(tiles)
    requires LinesFit(lines, w, h, bps, spp, stride, |tiles|)
    requires start == j * T < h && lineCount == (if h - start < T then h - start else T)
    requires lineCount * stride <= T * stride
    requires forall i | 0 <= i < |tiles| :: T * stride <= tiles[i].Length
    modifies set t | t in tiles
    ensures RowHolds(tiles, LineImage(lines, bps, spp), T, bps, spp, w, h, j)
  {
    FillTiles(lines, start, lineCount, stride, 0, tiles);
    forall i | 0 <= i < |tiles|
      ensures Pipette.TileHolds(tiles[i][..], LineImage(lines, bps, spp), T, bps, spp, w, h, i, j)
    {
      FilledShows(old(tiles[i][..]), lines, w, h, T, bps, spp, stride, |tiles|, i, j, start, lineCount);
    }
  }

  /** The first `n` rows of tiles show the image. */
  ghost predicate RowsHold(tiles: seq<seq<array<nat>>>, img: Image, T: nat, bps: nat, spp: nat, w: nat, h: nat, n: nat)
    requires Pipette.Packing(bps).Valid() && n <= |tiles|
    reads set j, i | 0 <= j < |tiles| && 0 <= i < |tiles[j]| :: tiles[j][i]
  {
    forall j | 0 <= j < n :: RowHolds(tiles[j], img, T, bps, spp, w, h, j)
  }

  lemma RowsDisjoint(a: seq<array<nat>>, b: seq<array<nat>>)
    requires RowsApart(a, b)
    ensures (set t | t in a) !! (set t | t in b)
  {}

  /** Fetches one row of tiles after the other. */
  method FillRows(lines: seq<seq<nat>>, w: nat, h: nat, T: nat, bps: nat, spp: nat, stride: nat,
                  tiles: seq<seq<array<nat>>>)
    requires Aligned(T, bps, spp, stride) && Pipette.Packing(bps).Valid() && Plane(tiles, w, h, T, stride)
    requires AllDistinct(tiles)
    requires LinesFit(lines, w, h, bps, spp, stride, CeilDiv(w, T))
    modifies set j, i | 0 <= j < |tiles| && 0 <= i < |tiles[j]| :: tiles[j][i]
    ensures RowsHold(tiles, LineImage(lines, bps, spp), T, bps, spp, w, h, |tiles|)
  {
    for j := 0 to |tiles|
      invariant RowsHold(tiles, LineImage(lines, bps, spp), T, bps, spp, w, h, j)
    {
      var start, lineCount := RowLines(T, h, stride, j);
      forall k | 0 <= k < j ensures (set t | t in tiles[k]) !! (set t | t in tiles[j]) {
        RowsDisjoint(tiles[k], tiles[j]);
      }
      FillRow(lines, w, h, T, bps, spp, stride, tiles[j], j, start, lineCount);
    }
  }

  lemma PlaneHolds(tiles: seq<seq<array<nat>>>, img: Image, T: nat, bps: nat, spp: nat, w: nat, h: nat, stride: nat)
    requires Pipette.Packing(bps).Valid() && Plane(tiles, w, h, T, stride)
    requires RowsHold(tiles, img, T, bps, spp, w, h, |tiles|)
    ensures Pipette.Holds(tiles, img, T, bps, spp, w, h)
  {
    forall j, i | 0 <= j < |tiles| && 0 <= i < |tiles[j]|
      ensures Pipette.TileHolds(tiles[j][i][..], img, T, bps, spp, w, h, i, j)
    {
      assert RowHolds(tiles[j], img, T, bps, spp, w, h, j);
    }
  }

  /**
   * Fetches a whole bitmap: afterwards the plane holds the image of the
   * scanlines, whatever the tiles held before.
   */
  method FillPlane(lines: seq<seq<nat>>, w: nat, h: nat, T: nat, bps: nat, spp: nat, stride: nat,
                   tiles: seq<seq<array<nat>>>)
    requires Aligned(T, bps, spp, stride) && w > 0 && Scanlines(lines, w, h, bps, spp)
    requires Plane(tiles, w, h, T, stride) && AllDistinct(tiles)
    modifies set j, i | 0 <= j < |tiles| && 0 <= i < |tiles[j]| :: tiles[j][i]
    ensures Pipette.Packing(bps).Valid() && Pipette.Holds(tiles, LineImage(lines, bps, spp), T, bps, spp, w, h)
  {
    ScanlinesFit(lines, w, h, T, bps, spp, stride);
    FillRows(lines, w, h, T, bps, spp, stride, tiles);
    PlaneHolds(tiles, LineImage(lines, bps, spp), T, bps, spp, w, h, stride);
  }

  /** From the scanlines of a file to the average colour of a rectangle. */
  method FileAverages(lines: seq<seq<nat>>, w: nat, h: nat, T: nat, bps: nat, spp: nat, stride: nat,
                      tiles: seq<seq<array<nat>>>,
                      l: nat, r: nat, t: nat, b: nat) returns (averages: seq<nat>)
    requires Aligned(T, bps, spp, stride) && w > 0 && Scanlines(lines, w, h, bps, spp)
    requires Plane(tiles, w, h, T, stride) && AllDistinct(tiles) && l < r <= w && t < b <= h
    modifies set j, i | 0 <= j < |tiles| && 0 <= i < |tiles[j]| :: tiles[j][i]
    ensures (r - l) * (b - t) > 0 && |averages| == spp && Pipette.Packing(bps).Valid()
    ensures forall ch | 0 <= ch < spp ::
      averages[ch] == RectTotal(LineImage(lines, bps, spp), ch, l, r, t, b) / ((r - l) * (b - t))
  {
    FillPlane(lines, w, h, T, bps, spp, stride, tiles);
    averages := Pipette.GetPixelAverages(tiles, T, bps, spp, l, r, t, b, LineImage(lines, bps, spp), w, h);
  }
}
