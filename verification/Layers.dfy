/**
 * The grid of tiles of a layer, the stack of layers of a bitmap, and the
 * coordinators that connect each layer to the one it is reduced from.
 */
module Layers {
  import opened Arith

  datatype Tile = Tile(k: nat, i: nat, j: nat) | OutOfBounds(k: nat)

  /** Width or height of layer `k`: the bitmap's size divided by 8^k, rounded up. */
  function LayerSize(size: nat, k: nat): nat {
    PowPositive(8, k);
    CeilDiv(size, Pow(8, k))
  }

  /** Number of tiles along one side of layer `k`. */
  function TileCount(size: nat, k: nat, T: nat): nat
    requires T > 0
  {
    CeilDiv(LayerSize(size, k), T)
  }

  lemma NextLayerSize(size: nat, k: nat)
    ensures LayerSize(size, 0) == size
    ensures LayerSize(size, k + 1) == CeilDiv(LayerSize(size, k), 8)
    ensures size > 0 ==> LayerSize(size, k) > 0
  {
    PowPositive(8, k);
    CeilDivNested(size, Pow(8, k), 8);
    assert Pow(8, k) * 8 == Pow(8, k + 1);
    CeilDivBounds(size, Pow(8, k));
  }

  lemma NextTileCount(size: nat, k: nat, T: nat)
    requires T > 0
    ensures TileCount(size, k + 1, T) == CeilDiv(TileCount(size, k, T), 8)
    ensures size > 0 ==> TileCount(size, k, T) > 0
  {
    NextLayerSize(size, k);
    CeilDivSwap(LayerSize(size, k), 8, T);
    CeilDivBounds(LayerSize(size, k), T);
  }

  /** Widening a layer up to the next multiple of 8 changes neither the tiles nor the layers above. */
  lemma {:induction false} PaddedSize(size: nat, padded: nat, k: nat, side: nat)
    requires side > 0 && size <= padded <= 8 * CeilDiv(size, 8)
    ensures k > 0 ==> LayerSize(padded, k) == LayerSize(size, k)
    ensures TileCount(padded, k, 8 * side) == TileCount(size, k, 8 * side)
  {
    NextLayerSize(size, 0);
    NextLayerSize(padded, 0);
    CeilDivUnique(padded, 8, CeilDiv(size, 8));
    if k == 0 {
      CeilDivNested(size, 8, side);
      CeilDivNested(padded, 8, side);
    } else if k > 1 {
      PaddedSize(size, padded, k - 1, side);
      NextLayerSize(size, k - 1);
      NextLayerSize(padded, k - 1);
    }
  }

  /** The block behind a pixel outside a layer lies outside the layer below. */
  lemma OutsideBelow(size: nat, k: nat, X: nat, d: nat)
    requires X >= LayerSize(size, k + 1)
    ensures 8 * X + d >= LayerSize(size, k)
  {
    NextLayerSize(size, k);
    CeilDivBounds(LayerSize(size, k), 8);
  }

  // ------------------------------------------------------------------
  // Layer

  class Layer {
    const depth: nat
    const width: nat
    const height: nat
    const horTileCount: nat
    const verTileCount: nat
    var tiles: seq<seq<Tile>>
    var lineOutOfBounds: seq<Tile>

    ghost predicate Valid()
      reads this
    {
      && |tiles| == verTileCount && |lineOutOfBounds| == horTileCount
      && (forall j :: 0 <= j < verTileCount ==> |tiles[j]| == horTileCount)
      && (forall j, i :: 0 <= j < verTileCount && 0 <= i < horTileCount ==> tiles[j][i] == Tile(depth, i, j))
      && (forall i :: 0 <= i < horTileCount ==> lineOutOfBounds[i] == OutOfBounds(depth))
    }

    constructor (depth: nat, width: nat, height: nat, T: nat)
      requires T > 0
      ensures Valid() && this.depth == depth && this.width == width && this.height == height
      ensures horTileCount == CeilDiv(width, T) && verTileCount == CeilDiv(height, T)
    {
      this.depth, this.width, this.height := depth, width, height;
      horTileCount := (width + T - 1) / T;
      verTileCount := (height + T - 1) / T;
      tiles, lineOutOfBounds := [], [];
      new;
      for j := 0 to verTileCount
        invariant |tiles| == j && lineOutOfBounds == []
        invariant forall y :: 0 <= y < j ==> |tiles[y]| == horTileCount
        invariant forall y, x :: 0 <= y < j && 0 <= x < horTileCount ==> tiles[y][x] == Tile(depth, x, y)
      {
        var tl: seq<Tile> := [];
        for i := 0 to horTileCount
          invariant |tl| == i && forall x :: 0 <= x < i ==> tl[x] == Tile(depth, x, j)
        {
          tl := tl + [Tile(depth, i, j)];
        }
        tiles := tiles + [tl];
      }
      for i := 0 to horTileCount
        invariant |lineOutOfBounds| == i && forall x :: 0 <= x < i ==> lineOutOfBounds[x] == OutOfBounds(depth)
        invariant |tiles| == verTileCount
        invariant forall y :: 0 <= y < verTileCount ==> |tiles[y]| == horTileCount
        invariant forall y, x :: 0 <= y < verTileCount && 0 <= x < horTileCount ==> tiles[y][x] == Tile(depth, x, y)
      {
        lineOutOfBounds := lineOutOfBounds + [OutOfBounds(depth)];
      }
    }

    method GetTile(i: int, j: int) returns (t: Tile)
      requires Valid()
      ensures t == if 0 <= i < horTileCount && 0 <= j < verTileCount then Tile(depth, i, j) else OutOfBounds(depth)
    {
      if 0 <= i < horTileCount && 0 <= j < verTileCount {
        return tiles[j][i];
      }
      return OutOfBounds(depth);
    }

    method GetTileLine(j: int) returns (line: seq<Tile>)
      requires Valid()
      ensures |line| == horTileCount
      ensures forall i :: 0 <= i < horTileCount ==>
        line[i] == if 0 <= j < verTileCount then Tile(depth, i, j) else OutOfBounds(depth)
    {
      if 0 <= j < verTileCount {
        return tiles[j];
      }
      return lineOutOfBounds;
    }
  }

  // ------------------------------------------------------------------
  // LayerCoordinator, as far as wiring is concerned

  datatype Coordinator = Coordinator(targetTile: Tile, sourceTiles: map<Tile, (nat, nat)>, unfinished: int) {
    function AddSourceTile(x: nat, y: nat, tile: Tile): Coordinator {
      this.(sourceTiles := sourceTiles[tile := (x, y)], unfinished := unfinished + 1)
    }
  }

  /**
   * Tile `t` of layer `k` feeds target (I, J) and is among the first `rows` rows
   * or the first `cols` of the next row.
   */
  predicate FeedsBefore(t: Tile, k: nat, hor: nat, I: nat, J: nat, rows: nat, cols: nat) {
    t.Tile? && t.k == k && t.i < hor && t.i / 8 == I && t.j / 8 == J && (t.j < rows || (t.j == rows && t.i < cols))
  }

  /** What a coordinator holds when exactly those tiles have been added to it, each at its position modulo 8. */
  ghost predicate Wired(lc: Coordinator, target: Tile, k: nat, hor: nat, I: nat, J: nat, rows: nat, cols: nat) {
    && lc.targetTile == target
    && (forall t :: t in lc.sourceTiles <==> FeedsBefore(t, k, hor, I, J, rows, cols))
    && (forall t :: t in lc.sourceTiles ==> t.Tile? && lc.sourceTiles[t] == (t.i % 8, t.j % 8))
    && lc.unfinished == |lc.sourceTiles|
  }

  ghost predicate LineWired(line: seq<Coordinator>, depth: nat, k: nat, hor: nat, J: nat, rows: nat, cols: nat) {
    forall I :: 0 <= I < |line| ==> Wired(line[I], Tile(depth, I, J), k, hor, I, J, rows, cols)
  }

  /** Source tile (i, j) is handed to the coordinator of its target. */
  method AddTile(line: seq<Coordinator>, i: nat, j: nat, tile: Tile, ghost depth: nat, ghost k: nat, ghost hor: nat)
      returns (r: seq<Coordinator>)
    requires i < hor && |line| == CeilDiv(hor, 8) && tile == Tile(k, i, j)
    requires LineWired(line, depth, k, hor, j / 8, j, i)
    ensures |r| == |line| && LineWired(r, depth, k, hor, j / 8, j, i + 1)
  {
    var hoffset, voffset := i % 8, j % 8;
    CeilDivIndex(i, hor, 8);
    var lc := line[i / 8];
    r := line[i / 8 := lc.AddSourceTile(hoffset, voffset, tile)];
  }

  lemma RowDone(line: seq<Coordinator>, depth: nat, k: nat, hor: nat, J: nat, j: nat)
    requires LineWired(line, depth, k, hor, J, j, hor) || (J != j / 8 && LineWired(line, depth, k, hor, J, j, 0))
    ensures LineWired(line, depth, k, hor, J, j + 1, 0)
  {
  }

  /** A new line of target tiles. */
  method NewLine(layer: Layer, j: nat, ghost k: nat, ghost hor: nat) returns (coordinators: seq<Coordinator>)
    requires layer.Valid() && j % 8 == 0 && j / 8 < layer.verTileCount
    ensures |coordinators| == layer.horTileCount
    ensures LineWired(coordinators, layer.depth, k, hor, j / 8, j, 0)
  {
    coordinators := [];
    var tileLine := layer.GetTileLine(j / 8);
    for x := 0 to |tileLine|
      invariant |coordinators| == x
      invariant LineWired(coordinators, layer.depth, k, hor, j / 8, j, 0)
    {
      var lc := Coordinator(tileLine[x], map[], 0);
      coordinators := coordinators + [lc];
    }
  }

  /** One row of source tiles is handed to the coordinators of its line. */
  method AddRow(line: seq<Coordinator>, prevLayer: Layer, j: nat,
                ghost depth: nat) returns (coordinators: seq<Coordinator>)
    requires prevLayer.Valid() && j < prevLayer.verTileCount
    requires |line| == CeilDiv(prevLayer.horTileCount, 8)
    requires LineWired(line, depth, prevLayer.depth, prevLayer.horTileCount, j / 8, j, 0)
    ensures |coordinators| == |line|
    ensures LineWired(coordinators, depth, prevLayer.depth, prevLayer.horTileCount, j / 8, j + 1, 0)
  {
    coordinators := line;
    for i := 0 to prevLayer.horTileCount
      invariant |coordinators| == |line|
      invariant LineWired(coordinators, depth, prevLayer.depth, prevLayer.horTileCount, j / 8, j, i)
    {
      var tile := prevLayer.GetTile(i, j);
      coordinators := AddTile(coordinators, i, j, tile, depth, prevLayer.depth, prevLayer.horTileCount);
    }
    RowDone(coordinators, depth, prevLayer.depth, prevLayer.horTileCount, j / 8, j);
  }

  ghost predicate GridWired(grid: seq<seq<Coordinator>>, depth: nat, k: nat, hor: nat, width: nat, rows: nat) {
    forall J :: 0 <= J < |grid| ==> |grid[J]| == width && LineWired(grid[J], depth, k, hor, J, rows, 0)
  }

  lemma OtherLines(grid: seq<seq<Coordinator>>, line: seq<Coordinator>, depth: nat, k: nat, hor: nat, width: nat,
                   j: nat)
    requires GridWired(grid, depth, k, hor, width, j) && |grid| == j / 8 + 1
    requires |line| == width && LineWired(line, depth, k, hor, j / 8, j + 1, 0)
    ensures GridWired(grid[j / 8 := line], depth, k, hor, width, j + 1)
  {
    forall J | 0 <= J < j / 8 ensures LineWired(grid[J], depth, k, hor, J, j + 1, 0) {
      RowDone(grid[J], depth, k, hor, J, j);
    }
  }

  lemma LineAdded(grid: seq<seq<Coordinator>>, line: seq<Coordinator>, depth: nat, k: nat, hor: nat, width: nat, j: nat)
    requires GridWired(grid, depth, k, hor, width, j) && |grid| == j / 8
    requires |line| == width && LineWired(line, depth, k, hor, j / 8, j, 0)
    ensures GridWired(grid + [line], depth, k, hor, width, j)
  {
  }

  method StartLine(grid: seq<seq<Coordinator>>, layer: Layer, prevLayer: Layer,
                   j: nat) returns (r: seq<seq<Coordinator>>)
    requires layer.Valid() && prevLayer.Valid() && j < prevLayer.verTileCount && |grid| == CeilDiv(j, 8)
    requires layer.verTileCount == CeilDiv(prevLayer.verTileCount, 8)
    requires GridWired(grid, layer.depth, prevLayer.depth, prevLayer.horTileCount, layer.horTileCount, j)
    ensures |r| == j / 8 + 1
    ensures GridWired(r, layer.depth, prevLayer.depth, prevLayer.horTileCount, layer.horTileCount, j)
  {
    r := grid;
    if j % 8 == 0 {
      // coordinators for the tiles of the next line
      CeilDivIndex(j, prevLayer.verTileCount, 8);
      var line := NewLine(layer, j, prevLayer.depth, prevLayer.horTileCount);
      LineAdded(grid, line, layer.depth, prevLayer.depth, prevLayer.horTileCount, layer.horTileCount, j);
      r := grid + [line];
    }
  }

  /** The body of `connect` for source row `j`. */
  method ConnectRow(grid: seq<seq<Coordinator>>, layer: Layer, prevLayer: Layer,
                    j: nat) returns (r: seq<seq<Coordinator>>)
    requires layer.Valid() && prevLayer.Valid() && j < prevLayer.verTileCount && |grid| == CeilDiv(j, 8)
    requires layer.verTileCount == CeilDiv(prevLayer.verTileCount, 8)
    requires layer.horTileCount == CeilDiv(prevLayer.horTileCount, 8)
    requires GridWired(grid, layer.depth, prevLayer.depth, prevLayer.horTileCount, layer.horTileCount, j)
    ensures |r| == j / 8 + 1
    ensures GridWired(r, layer.depth, prevLayer.depth, prevLayer.horTileCount, layer.horTileCount, j + 1)
  {
    r := StartLine(grid, layer, prevLayer, j);
    var line := AddRow(r[j / 8], prevLayer, j, layer.depth);
    OtherLines(r, line, layer.depth, prevLayer.depth, prevLayer.horTileCount, layer.horTileCount, j);
    r := r[j / 8 := line];
  }

  /**
   * `TiledBitmap::connect`: every source tile goes to exactly one coordinator,
   * at its position modulo 8.  `grid` holds the coordinators line by line.
   */
  method Connect(layer: Layer, prevLayer: Layer) returns (grid: seq<seq<Coordinator>>)
    requires layer.Valid() && prevLayer.Valid()
    requires layer.horTileCount == CeilDiv(prevLayer.horTileCount, 8)
    requires layer.verTileCount == CeilDiv(prevLayer.verTileCount, 8)
    ensures |grid| == layer.verTileCount
    ensures GridWired(grid, layer.depth, prevLayer.depth, prevLayer.horTileCount, layer.horTileCount,
                      prevLayer.verTileCount)
  {
    grid := [];
    for j := 0 to prevLayer.verTileCount
      invariant |grid| == CeilDiv(j, 8)
      invariant GridWired(grid, layer.depth, prevLayer.depth, prevLayer.horTileCount, layer.horTileCount, j)
    {
      grid := ConnectRow(grid, layer, prevLayer, j);
    }
  }

  /** Every target tile has a source tile, and every source tile has its target among the tiles of the next layer. */
  lemma TargetsAndSources(size: nat, k: nat, T: nat, i: nat)
    requires T > 0
    ensures i < TileCount(size, k, T) ==> i / 8 < TileCount(size, k + 1, T)
    ensures i < TileCount(size, k + 1, T) ==> 8 * i < TileCount(size, k, T)
  {
    NextTileCount(size, k, T);
    CeilDivIndex(i, TileCount(size, k, T), 8);
  }

  /** `TiledBitmap::initialize`: sizes of the layers, the bottom one first. */
  method LayerSizes(bitmapWidth: nat, bitmapHeight: nat, T: nat) returns (sizes: seq<(nat, nat)>)
    requires T >= 8 && T % 8 == 0
    ensures |sizes| > 0
    ensures forall k :: 0 <= k < |sizes| ==> sizes[k] == (LayerSize(bitmapWidth, k), LayerSize(bitmapHeight, k))
    ensures forall k :: 0 < k < |sizes| ==> sizes[k].0 > T / 4 || sizes[k].1 > T / 4
    ensures LayerSize(bitmapWidth, |sizes|) <= T / 4 && LayerSize(bitmapHeight, |sizes|) <= T / 4
  {
    var width, height := bitmapWidth, bitmapHeight;
    NextLayerSize(bitmapWidth, 0);
    NextLayerSize(bitmapHeight, 0);
    sizes := [(width, height)];
    width := (width + 7) / 8;
    height := (height + 7) / 8;
    while (if width > height then width else height) > T / 4
      invariant |sizes| > 0
      invariant forall k :: 0 <= k < |sizes| ==> sizes[k] == (LayerSize(bitmapWidth, k), LayerSize(bitmapHeight, k))
      invariant forall k :: 0 < k < |sizes| ==> sizes[k].0 > T / 4 || sizes[k].1 > T / 4
      invariant width == LayerSize(bitmapWidth, |sizes|) && height == LayerSize(bitmapHeight, |sizes|)
      decreases if width > height then width else height
    {
      sizes := sizes + [(width, height)];
      NextLayerSize(bitmapWidth, |sizes| - 1);
      NextLayerSize(bitmapHeight, |sizes| - 1);
      width := (width + 7) / 8;
      height := (height + 7) / 8;
    }
  }
}
