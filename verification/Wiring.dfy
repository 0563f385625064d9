/** The coordinators that `connect` makes are the ones the load protocol assumes. */
module Wiring {

  import opened Layers
  import opened Pyramid
  import LP = LoadProtocol

  /** The grid that Layers.Connect returns for layers `k` and `k + 1` of a bitmap. */
  ghost predicate Connected(grid: seq<seq<Coordinator>>, side: nat, w: nat, h: nat, k: nat) {
    side > 0 && |grid| == TileCount(h, k + 1, 8 * side)
    && GridWired(grid, k + 1, k, TileCount(w, k, 8 * side), TileCount(w, k + 1, 8 * side), TileCount(h, k, 8 * side))
  }

  lemma SourceIff(side: nat, w: nat, h: nat, depth: nat, k: nat, I: nat, J: nat, t: Tile)
    requires side > 0 && k + 1 < depth
    ensures t in LP.Sources(PlanOf(side, w, h, depth), Tile(k + 1, I, J)) <==>
      FeedsBefore(t, k, TileCount(w, k, 8 * side), I, J, TileCount(h, k, 8 * side), 0)
  {
  }

  /**
   * Each coordinator serves the target tile in its place; it holds exactly the
   * sources of that tile, and counts them.
   */
  lemma CoordinatorsServeThePlan(grid: seq<seq<Coordinator>>, side: nat, w: nat, h: nat, depth: nat, k: nat, I: nat,
                                 J: nat)
    requires Connected(grid, side, w, h, k) && k + 1 < depth && J < |grid| && I < TileCount(w, k + 1, 8 * side)
    ensures I < |grid[J]| && grid[J][I].targetTile == Tile(k + 1, I, J)
    ensures grid[J][I].sourceTiles.Keys == LP.Sources(PlanOf(side, w, h, depth), Tile(k + 1, I, J))
    ensures grid[J][I].unfinished == |LP.Sources(PlanOf(side, w, h, depth), Tile(k + 1, I, J))|
  {
    var lc := grid[J][I];
    forall t ensures t in lc.sourceTiles.Keys <==> t in LP.Sources(PlanOf(side, w, h, depth), Tile(k + 1, I, J)) {
      SourceIff(side, w, h, depth, k, I, J, t);
    }
  }

  /** Two sources of one coordinator never share a place, and every target tile is the target of some source. */
  lemma PlacesAreDistinct(grid: seq<seq<Coordinator>>, side: nat, w: nat, h: nat, k: nat, I: nat, J: nat, t: Tile,
                          u: Tile)
    requires Connected(grid, side, w, h, k) && J < |grid| && I < TileCount(w, k + 1, 8 * side)
    ensures I < |grid[J]|
    ensures t in grid[J][I].sourceTiles && u in grid[J][I].sourceTiles && t != u ==>
      grid[J][I].sourceTiles[t] != grid[J][I].sourceTiles[u]
    ensures Tile(k, 8 * I, 8 * J) in grid[J][I].sourceTiles
  {
    TargetsAndSources(w, k, 8 * side, I);
    TargetsAndSources(h, k, 8 * side, J);
    assert FeedsBefore(Tile(k, 8 * I, 8 * J), k, TileCount(w, k, 8 * side), I, J, TileCount(h, k, 8 * side), 0);
  }
}
