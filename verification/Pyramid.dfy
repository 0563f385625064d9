/**
 * The pixels of the tile pyramid.  The load protocol runs on tile buffers; its
 * result is compared with a flat definition of the pyramid that knows no
 * tiles, jobs or order.
 */
module Pyramid {
  import opened Arith
  import opened Layers
  import LP = LoadProtocol

  /** A pixel is the number formed by its bits; 0 is the value of initialised memory. */
  type Pixel = int

  /**
   * `side` is TILESIZE / 8, `depth` the number of layers, `op(k, block)` what
   * the operations of layer `k` make of 64 pixels, given row by row; `plan`
   * lists the wired tiles.
   */
  datatype Config = Config(side: nat, w: nat, h: nat, depth: nat,
                           image: (int, int) -> Pixel, op: (int, seq<Pixel>) -> Pixel,
                           plan: LP.Plan)
  {
    function T(): nat { 8 * side }
  }

  const BLANK: seq<Pixel> := seq(64, _ => 0)

  predicate InGeometry(c: Config, t: Tile) {
    && c.side > 0 && t.Tile? && t.k < c.depth
    && t.i < TileCount(c.w, t.k, c.T()) && t.j < TileCount(c.h, t.k, c.T())
  }

  ghost predicate Planned(c: Config, t: Tile) {
    t in c.plan.all <==> InGeometry(c, t)
  }

  ghost predicate Valid(c: Config) {
    && c.side > 0 && c.w > 0 && c.h > 0 && c.depth > 0
    && (forall k: int :: c.op(k, BLANK) == 0)
    && c.plan.depth == c.depth && c.plan.pixels == c.side * c.side
    && LP.Valid(c.plan)
    && (forall t {:trigger Planned(c, t)} :: Planned(c, t))
  }

  // ------------------------------------------------------------------
  // The flat pyramid

  function Padded(c: Config, X: int, Y: int): Pixel {
    if X < c.w && Y < c.h then c.image(X, Y) else 0
  }

  /** Pixel (X, Y) of layer `k`: the operation applied to the 8x8 block at (8X, 8Y) of the layer below. */
  ghost function Flat(c: Config, k: nat, X: int, Y: int): Pixel
    decreases k, 1
  {
    if k == 0 then Padded(c, X, Y) else c.op(k - 1, FlatBlock(c, k - 1, X, Y))
  }

  ghost function FlatBlock(c: Config, k: nat, X: int, Y: int): (b: seq<Pixel>)
    decreases k, 2
  {
    seq(64, n requires 0 <= n < 64 => Flat(c, k, 8 * X + n % 8, 8 * Y + n / 8))
  }

  /** Outside the layer the flat pyramid is blank. */
  lemma {:induction false} FlatOutside(c: Config, k: nat, X: nat, Y: nat)
    requires Valid(c) && (X >= LayerSize(c.w, k) || Y >= LayerSize(c.h, k))
    ensures Flat(c, k, X, Y) == 0
    decreases k
  {
    if k == 0 {
      NextLayerSize(c.w, 0);
      NextLayerSize(c.h, 0);
    } else {
      forall n | 0 <= n < 64 ensures FlatBlock(c, k - 1, X, Y)[n] == BLANK[n] {
        if X >= LayerSize(c.w, k) { OutsideBelow(c.w, k - 1, X, n % 8); } else { OutsideBelow(c.h, k - 1, Y, n / 8); }
        FlatOutside(c, k - 1, 8 * X + n % 8, 8 * Y + n / 8);
      }
      assert FlatBlock(c, k - 1, X, Y) == BLANK;
    }
  }

  // ------------------------------------------------------------------
  // The plan that the load protocol works through

  ghost function PlanOf(side: nat, w: nat, h: nat, depth: nat): (p: LP.Plan)
    requires side > 0
  {
    LP.Plan((set k, i, j | 0 <= k < depth && 0 <= i < TileCount(w, k, 8 * side) && 0 <= j < TileCount(h, k, 8 * side)
             :: Tile(k, i, j)),
            depth, TileCount(w, 0, 8 * side), TileCount(h, 0, 8 * side), side * side)
  }

  /** Every bitmap of positive size gives a plan that meets the wiring the protocol relies on. */
  lemma PlanIsValid(side: nat, w: nat, h: nat, depth: nat, image: (int, int) -> Pixel, op: (int, seq<Pixel>) -> Pixel)
    requires side > 0 && w > 0 && h > 0 && depth > 0 && forall k: int :: op(k, BLANK) == 0
    ensures Valid(Config(side, w, h, depth, image, op, PlanOf(side, w, h, depth)))
  {
    var p := PlanOf(side, w, h, depth);
    var c := Config(side, w, h, depth, image, op, p);
    NextTileCount(w, 0, c.T());
    forall t ensures Planned(c, t) {}
    forall i: nat, j: nat ensures Tile(0, i, j) in p.all <==> i < p.cols && j < p.rows {
      assert Planned(c, Tile(0, i, j));
    }
    forall t | t in p.all ensures LP.Connected(p, t) {
      assert Planned(c, t);
      TargetsAndSources(w, t.k, c.T(), t.i);
      TargetsAndSources(h, t.k, c.T(), t.j);
      assert Planned(c, LP.Target(t));
      if t.k > 0 {
        TargetsAndSources(w, t.k - 1, c.T(), t.i);
        TargetsAndSources(h, t.k - 1, c.T(), t.j);
        assert Planned(c, Tile(t.k - 1, 8 * t.i, 8 * t.j));
        assert Tile(t.k - 1, 8 * t.i, 8 * t.j) in LP.Sources(p, t);
      }
    }
  }

  // ------------------------------------------------------------------
  // Tile buffers

  /** A tile has a buffer from the moment it is initialised; `buffers[t][y][x]` is one pixel. */
  type Buffers = map<Tile, seq<seq<Pixel>>>

  predicate Has(b: Buffers, t: Tile, x: int, y: int) {
    t in b && 0 <= y < |b[t]| && 0 <= x < |b[t][y]|
  }

  function Pix(b: Buffers, t: Tile, x: int, y: int): Pixel {
    if Has(b, t, x, y) then b[t][y][x] else 0
  }

  /** A store outside the buffer is lost; `Shaped` rules it out. */
  function Store(b: Buffers, t: Tile, x: int, y: int, v: Pixel): Buffers {
    if Has(b, t, x, y) then b[t := b[t][y := b[t][y][x := v]]] else b
  }

  lemma StoreEffect(b: Buffers, t: Tile, x: int, y: int, v: Pixel, u: Tile, p: int, q: int)
    ensures Has(Store(b, t, x, y, v), u, p, q) <==> Has(b, u, p, q)
    ensures Pix(Store(b, t, x, y, v), u, p, q) ==
            if Has(b, t, x, y) && u == t && p == x && q == y then v else Pix(b, u, p, q)
    ensures Store(b, t, x, y, v).Keys == b.Keys
  {
  }

  function Grid(T: nat, f: (int, int) -> Pixel): seq<seq<Pixel>> {
    seq(T, y requires 0 <= y < T => seq(T, x requires 0 <= x < T => f(x, y)))
  }

  datatype State = State(ctl: LP.Control, buffers: Buffers)

  /** The 64 pixels of source tile `t` behind its target pixel (px, py). */
  function SourceBlock(b: Buffers, t: Tile, px: int, py: int): seq<Pixel> {
    seq(64, n requires 0 <= n < 64 => Pix(b, t, 8 * px + n % 8, 8 * py + n / 8))
  }

  ghost function RowTiles(c: Config, row: nat): (r: set<Tile>)
    ensures forall t :: t in r <==> t in c.plan.all && t.Tile? && t.k == 0 && t.j == row
  {
    set t | t in c.plan.all && t.Tile? && t.k == 0 && t.j == row
  }

  /** A bottom tile is zeroed unless already initialised, then gets its part of the image. */
  function FillValue(c: Config, b: Buffers, t: Tile): (int, int) -> Pixel
    requires t.Tile?
  {
    (x, y) =>
      var X, Y := t.i * c.T() + x, t.j * c.T() + y;
      if X < c.w && Y < c.h then c.image(X, Y) else if t in b then Pix(b, t, x, y) else 0
  }

  function FilledTile(c: Config, b: Buffers, t: Tile): seq<seq<Pixel>>
    requires t.Tile?
  {
    Grid(c.T(), FillValue(c, b, t))
  }

  /** `initialize` and `fillTiles` on all tiles of a row. */
  ghost function FilledRow(c: Config, b: Buffers, row: nat): Buffers
    requires c.side > 0
  {
    b + map t | t in RowTiles(c, row) :: FilledTile(c, b, t)
  }

  /** `CompressedTile::initialize`: zeroes the buffer of an uninitialised tile, once. */
  function Initialised(c: Config, b: Buffers, t: Tile): Buffers {
    if t in b then b else b[t := Grid(c.T(), (x, y) => 0)]
  }

  /** Pixel `n` of the job of source tile `t` is stored in the target, at offset (i % 8, j % 8). */
  function ReducedPixel(c: Config, b: Buffers, t: Tile, n: nat): Buffers
    requires t.Tile? && c.side > 0
  {
    var px, py := n % c.side, n / c.side;
    Store(b, LP.Target(t), (t.i % 8) * c.side + px, (t.j % 8) * c.side + py, c.op(t.k, SourceBlock(b, t, px, py)))
  }

  ghost predicate Enabled(c: Config, s: State, e: LP.Step)
    requires Valid(c)
  {
    LP.Enabled(c.plan, s.ctl, e)
  }

  ghost function Apply(c: Config, s: State, e: LP.Step): State
    requires Valid(c) && Enabled(c, s, e)
  {
    State(LP.Apply(c.plan, s.ctl, e),
      match e
      case Fill => FilledRow(c, s.buffers, s.ctl.row)
      case ReportFetched => s.buffers
      case Begin(t) => Initialised(c, s.buffers, LP.Target(t))
      case Write(t) => ReducedPixel(c, s.buffers, t, LP.PhaseOf(s.ctl.phase, t).n)
      case Finish(_) => s.buffers)
  }

  ghost predicate Init(c: Config, s: State)
    requires Valid(c)
  {
    LP.Init(c.plan, s.ctl) && s.buffers == map[]
  }

  /** Nothing is left to do. */
  ghost predicate Quiet(c: Config, s: State)
    requires Valid(c)
  {
    forall e :: !Enabled(c, s, e)
  }

  ghost predicate IsStep(c: Config, s: State, e: LP.Step, n: State)
    requires Valid(c)
  {
    Enabled(c, s, e) && n == Apply(c, s, e)
  }

  ghost predicate Next(c: Config, s: State, n: State)
    requires Valid(c)
  {
    exists e :: IsStep(c, s, e, n)
  }

  ghost predicate StepAt(c: Config, r: seq<State>, i: nat)
    requires Valid(c) && 0 < i < |r|
  {
    Next(c, r[i - 1], r[i])
  }

  ghost predicate IsRun(c: Config, r: seq<State>)
    requires Valid(c)
  {
    |r| > 0 && Init(c, r[0]) && forall i {:trigger StepAt(c, r, i)} :: 0 < i < |r| ==> StepAt(c, r, i)
  }

  // ------------------------------------------------------------------
  // Invariants of the buffers

  type Phases = map<Tile, LP.Phase>

  ghost predicate Shaped(c: Config, b: Buffers) {
    forall t :: t in b ==> |b[t]| == c.T() && forall y :: 0 <= y < c.T() ==> |b[t][y]| == c.T()
  }

  predicate RowFilled(ctl: LP.Control, t: Tile)
    requires t.Tile?
  {
    t.j < ctl.row || (t.j == ctl.row && ctl.filled)
  }

  predicate Begun(ph: LP.Phase) { ph.Writing? || ph.Reduced? }

  /** Pixel `n` of a job has been stored. */
  predicate Stored(ph: LP.Phase, n: int) { ph.Reduced? || (ph.Writing? && n < ph.n) }

  /** Bottom tiles get a buffer when their row is filled. */
  ghost predicate BottomAllocated(c: Config, b: Buffers, ctl: LP.Control) {
    forall t :: t in c.plan.all && t.Tile? && t.k == 0 ==> (t in b <==> RowFilled(ctl, t))
  }

  /** The target of a job that has begun has a buffer. */
  ghost predicate UpperAllocated(c: Config, b: Buffers, phase: Phases) {
    forall t :: t in c.plan.all && Begun(LP.PhaseOf(phase, t)) ==> LP.Target(t) in b
  }

  /** A filled bottom tile shows the zero-padded image. */
  ghost predicate BottomPixel(c: Config, b: Buffers, t: Tile, x: int, y: int)
    requires t.Tile?
  {
    Pix(b, t, x, y) == Padded(c, t.i * c.T() + x, t.j * c.T() + y)
  }

  function SourceAt(t: Tile, ox: nat, oy: nat): Tile
    requires t.Tile? && t.k > 0
  {
    Tile(t.k - 1, 8 * t.i + ox, 8 * t.j + oy)
  }

  /** A place in a tile: offset (ox, oy) of a source tile and pixel (px, py) of its part. */
  datatype Spot = Spot(ox: nat, oy: nat, px: nat, py: nat)

  predicate SpotIn(c: Config, p: Spot) {
    p.ox < 8 && p.oy < 8 && p.px < c.side && p.py < c.side
  }

  function X(c: Config, p: Spot): int { p.ox * c.side + p.px }
  function Y(c: Config, p: Spot): int { p.oy * c.side + p.py }

  /** The spot of an upper tile is flat once the job of its source has stored it, and blank until then. */
  ghost predicate UpperPixel(c: Config, b: Buffers, phase: Phases, t: Tile, p: Spot)
    requires t.Tile? && t.k > 0
  {
    var u := SourceAt(t, p.ox, p.oy);
    Pix(b, t, X(c, p), Y(c, p))
      == if u in c.plan.all && Stored(LP.PhaseOf(phase, u), p.py * c.side + p.px)
         then Flat(c, t.k, u.i * c.side + p.px, u.j * c.side + p.py) else 0
  }

  ghost predicate BottomOk(c: Config, b: Buffers) {
    forall t, x, y {:trigger BottomPixel(c, b, t, x, y)} ::
      (t in c.plan.all && t.Tile? && t.k == 0 && t in b && 0 <= x < c.T() && 0 <= y < c.T() ==>
         BottomPixel(c, b, t, x, y))
  }

  ghost predicate UpperOk(c: Config, b: Buffers, phase: Phases) {
    forall t, p {:trigger UpperPixel(c, b, phase, t, p)} ::
      t in c.plan.all && t.Tile? && t.k > 0 && t in b && SpotIn(c, p) ==> UpperPixel(c, b, phase, t, p)
  }

  ghost predicate BuffersOk(c: Config, b: Buffers, ctl: LP.Control) {
    Shaped(c, b) && BottomAllocated(c, b, ctl) && UpperAllocated(c, b, ctl.phase) && BottomOk(c, b) &&
    UpperOk(c, b, ctl.phase)
  }

  ghost predicate Inv(c: Config, s: State)
    requires Valid(c)
  {
    LP.Inv(c.plan, s.ctl) && BuffersOk(c, s.buffers, s.ctl)
  }

  // ------------------------------------------------------------------
  // Addresses

  lemma Digits(b: nat, o: nat, p: nat, o': nat, p': nat)
    requires p < b && p' < b && o * b + p == o' * b + p'
    ensures o == o' && p == p'
  {
    DivModUnique(o * b + p, b, o, p);
    DivModUnique(o' * b + p', b, o', p');
  }

  lemma DigitsInRange(b: nat, o: nat, p: nat)
    requires p < b && o < 8
    ensures o * b + p < 8 * b
  {
    MulMonotone(o, 7, b);
  }

  /** Different spots have different addresses, all inside the tile. */
  lemma Addresses(c: Config, p: Spot, q: Spot)
    requires c.side > 0 && SpotIn(c, p) && SpotIn(c, q)
    ensures X(c, p) == X(c, q) && Y(c, p) == Y(c, q) <==> p == q
  {
    if X(c, p) == X(c, q) && Y(c, p) == Y(c, q) {
      Digits(c.side, p.ox, p.px, q.ox, q.px);
      Digits(c.side, p.oy, p.py, q.oy, q.py);
    }
  }

  lemma AddressInTile(c: Config, p: Spot)
    requires c.side > 0 && SpotIn(c, p)
    ensures 0 <= X(c, p) < c.T() && 0 <= Y(c, p) < c.T()
  {
    DigitsInRange(c.side, p.ox, p.px);
    DigitsInRange(c.side, p.oy, p.py);
  }

  lemma DigitsOf(b: nat, x: nat)
    requires b > 0 && x < 8 * b
    ensures x / b < 8 && (x / b) * b + x % b == x
  {
    var q := x / b;
    if q >= 8 { MulMonotone(8, q, b); }
  }

  /** Every address inside a tile is a spot. */
  lemma AddressIsSpot(c: Config, x: nat, y: nat) returns (p: Spot)
    requires c.side > 0 && x < c.T() && y < c.T()
    ensures SpotIn(c, p) && X(c, p) == x && Y(c, p) == y
  {
    DigitsOf(c.side, x);
    DigitsOf(c.side, y);
    p := Spot(x / c.side, y / c.side, x % c.side, y % c.side);
  }

  /** Position of a pixel among those a job stores. */
  lemma Slot(side: nat, px: nat, py: nat, n: nat)
    requires side > 0 && px < side && py < side
    ensures py * side + px < side * side
    ensures py * side + px == n <==> px == n % side && py == n / side
    ensures n < side * side ==> n / side < side
  {
    MulMonotone(py, side - 1, side);
    assert (side - 1) * side == side * side - side;
    assert n == (n / side) * side + n % side;
    if n / side >= side { MulMonotone(side, n / side, side); }
    if py * side + px == n { DivModUnique(n, side, py, px); }
  }

  /** A spot of tile `t` seen from the whole layer. */
  lemma Place(side: nat, i: nat, ox: nat, p: int)
    ensures (8 * i + ox) * side + p == i * (8 * side) + (ox * side + p)
  {
  }

  lemma CoveredByTiles(w: nat, side: nat, i: nat)
    requires side > 0 && i >= CeilDiv(w, 8 * side)
    ensures i * side >= CeilDiv(w, 8)
  {
    CeilDivBounds(w, 8 * side);
    MulMonotone(CeilDiv(w, 8 * side), i, 8 * side);
    var n := i * side;
    assert i * (8 * side) == n * 8;
  }

  /** Beyond the last source tile the flat pyramid is blank. */
  lemma NoSourceNoPixels(c: Config, size: nat, k: nat, i: nat, p: nat)
    requires c.side > 0 && i >= TileCount(size, k, c.T())
    ensures i * c.side + p >= LayerSize(size, k + 1)
  {
    var w := LayerSize(size, k);
    NextLayerSize(size, k);
    CoveredByTiles(w, c.side, i);
  }

  // ------------------------------------------------------------------
  // Finished tiles

  /** What a finished tile holds: every pixel equals the flat pyramid. */
  ghost predicate ShowsFlat(c: Config, b: Buffers, t: Tile) {
    t.Tile? && t in b && forall x, y :: 0 <= x < c.T() && 0 <= y < c.T() ==>
      Has(b, t, x, y) && Pix(b, t, x, y) == Flat(c, t.k, t.i * c.T() + x, t.j * c.T() + y)
  }

  lemma BottomShowsFlat(c: Config, b: Buffers, t: Tile)
    requires Shaped(c, b) && BottomOk(c, b) && t in c.plan.all && t.Tile? && t.k == 0 && t in b
    ensures ShowsFlat(c, b, t)
  {
    forall x, y | 0 <= x < c.T() && 0 <= y < c.T()
      ensures Has(b, t, x, y) && Pix(b, t, x, y) == Flat(c, 0, t.i * c.T() + x, t.j * c.T() + y)
    {
      assert BottomPixel(c, b, t, x, y);
    }
  }

  /** Where there is no source tile the flat pyramid is blank, like the buffer. */
  lemma BlankSpot(c: Config, t: Tile, p: Spot)
    requires Valid(c) && t.Tile? && 0 < t.k < c.depth && SourceAt(t, p.ox, p.oy) !in c.plan.all
    ensures Flat(c, t.k, (8 * t.i + p.ox) * c.side + p.px, (8 * t.j + p.oy) * c.side + p.py) == 0
  {
    var u := SourceAt(t, p.ox, p.oy);
    assert Planned(c, u);
    if u.i >= TileCount(c.w, u.k, c.T()) { NoSourceNoPixels(c, c.w, u.k, u.i, p.px); }
    else { NoSourceNoPixels(c, c.h, u.k, u.j, p.py); }
    FlatOutside(c, t.k, u.i * c.side + p.px, u.j * c.side + p.py);
  }

  lemma SourceAtIff(t: Tile, ox: nat, oy: nat, u: Tile)
    requires t.Tile? && t.k > 0 && u.Tile? && ox < 8 && oy < 8
    ensures SourceAt(t, ox, oy) == u <==> LP.Target(u) == t && ox == u.i % 8 && oy == u.j % 8
  {
  }

  lemma UpperShowsFlatAt(c: Config, b: Buffers, phase: Phases, t: Tile, x: nat, y: nat)
    requires Valid(c) && UpperOk(c, b, phase) && t in c.plan.all && t.Tile? && 0 < t.k < c.depth && t in b
    requires x < c.T() && y < c.T() && LP.Unreduced(c.plan, phase, t) == {}
    ensures Pix(b, t, x, y) == Flat(c, t.k, t.i * c.T() + x, t.j * c.T() + y)
  {
    var p := AddressIsSpot(c, x, y);
    var u := SourceAt(t, p.ox, p.oy);
    assert UpperPixel(c, b, phase, t, p);
    Place(c.side, t.i, p.ox, p.px);
    Place(c.side, t.j, p.oy, p.py);
    if u in c.plan.all {
      SourceAtIff(t, p.ox, p.oy, u);
      assert u !in LP.Unreduced(c.plan, phase, t);
    } else {
      BlankSpot(c, t, p);
    }
  }

  lemma UpperShowsFlat(c: Config, b: Buffers, phase: Phases, t: Tile)
    requires Valid(c) && Shaped(c, b) && UpperOk(c, b, phase) && t in c.plan.all && t.Tile? && 0 < t.k < c.depth
    requires t in b
    requires LP.Unreduced(c.plan, phase, t) == {}
    ensures ShowsFlat(c, b, t)
  {
    forall x, y | 0 <= x < c.T() && 0 <= y < c.T()
      ensures Has(b, t, x, y) && Pix(b, t, x, y) == Flat(c, t.k, t.i * c.T() + x, t.j * c.T() + y)
    {
      UpperShowsFlatAt(c, b, phase, t, x, y);
    }
  }

  /** A tile that has been reported finished shows the flat pyramid. */
  lemma FinishedShowsFlat(c: Config, s: State, t: Tile)
    requires Valid(c) && Inv(c, s) && t in c.plan.all && s.ctl.reports[t] > 0
    ensures ShowsFlat(c, s.buffers, t)
  {
    assert LP.TileOk(c.plan, s.ctl, t) && LP.Connected(c.plan, t);
    if t.k == 0 {
      BottomShowsFlat(c, s.buffers, t);
    } else {
      var u :| u in LP.Sources(c.plan, t);
      assert u !in LP.Unreduced(c.plan, s.ctl.phase, t);
      UpperShowsFlat(c, s.buffers, s.ctl.phase, t);
    }
  }

  /** A pixel of a source block seen from the whole layer. */
  lemma SourcePlace(side: nat, i: nat, p: nat, d: nat)
    requires p < side && d < 8
    ensures i * (8 * side) + (8 * p + d) == 8 * (i * side + p) + d
    ensures 0 <= 8 * p + d < 8 * side
  {
  }

  /** A job reads exactly the block that the flat pyramid reduces. */
  lemma SourceBlockIsFlat(c: Config, b: Buffers, t: Tile, px: nat, py: nat)
    requires ShowsFlat(c, b, t) && px < c.side && py < c.side
    ensures SourceBlock(b, t, px, py) == FlatBlock(c, t.k, t.i * c.side + px, t.j * c.side + py)
  {
    forall n | 0 <= n < 64
      ensures Pix(b, t, 8 * px + n % 8, 8 * py + n / 8)
           == Flat(c, t.k, 8 * (t.i * c.side + px) + n % 8, 8 * (t.j * c.side + py) + n / 8)
    {
      SourcePlace(c.side, t.i, px, n % 8);
      SourcePlace(c.side, t.j, py, n / 8);
    }
  }

  // ------------------------------------------------------------------
  // What each step does to the buffers

  lemma UpperUntouched(c: Config, b: Buffers, f: Phases, g: Phases)
    requires c.side > 0 && UpperOk(c, b, f)
    requires forall u, m: nat {:trigger Stored(LP.PhaseOf(g, u), m)} :: u in c.plan.all && m < c.side * c.side ==>
      (Stored(LP.PhaseOf(f, u), m) <==> Stored(LP.PhaseOf(g, u), m))
    ensures UpperOk(c, b, g)
  {
    forall t, p | t in c.plan.all && t.Tile? && t.k > 0 && t in b && SpotIn(c, p) ensures UpperPixel(c, b, g, t, p) {
      assert UpperPixel(c, b, f, t, p);
      Slot(c.side, p.px, p.py, 0);
      var u, m := SourceAt(t, p.ox, p.oy), p.py * c.side + p.px;
      assert u in c.plan.all ==> (Stored(LP.PhaseOf(g, u), m) <==> Stored(LP.PhaseOf(f, u), m));
    }
  }

  lemma GridAt(T: nat, f: (int, int) -> Pixel, x: int, y: int)
    requires 0 <= x < T && 0 <= y < T
    ensures |Grid(T, f)| == T && |Grid(T, f)[y]| == T && Grid(T, f)[y][x] == f(x, y)
  {
  }

  /** A tile of a freshly filled row shows the padded image. */
  lemma FilledPixel(c: Config, b: Buffers, row: nat, t: Tile, x: int, y: int)
    requires c.side > 0 && t in RowTiles(c, row) && t !in b && 0 <= x < c.T() && 0 <= y < c.T()
    ensures BottomPixel(c, FilledRow(c, b, row), t, x, y)
  {
    var n := FilledRow(c, b, row);
    assert n[t] == FilledTile(c, b, t);
    GridAt(c.T(), FillValue(c, b, t), x, y);
    assert Pix(n, t, x, y) == FillValue(c, b, t)(x, y);
  }

  lemma FilledBottom(c: Config, b: Buffers, row: nat)
    requires c.side > 0 && BottomOk(c, b) && forall t :: t in RowTiles(c, row) ==> t !in b
    ensures BottomOk(c, FilledRow(c, b, row))
  {
    var n := FilledRow(c, b, row);
    forall t, x, y | t in c.plan.all && t.Tile? && t.k == 0 && t in n && 0 <= x < c.T() && 0 <= y < c.T()
      ensures BottomPixel(c, n, t, x, y)
    {
      if t in RowTiles(c, row) {
        FilledPixel(c, b, row, t, x, y);
      } else {
        assert BottomPixel(c, b, t, x, y);
      }
    }
  }

  lemma SameUpper(c: Config, b: Buffers, n: Buffers, phase: Phases)
    requires UpperOk(c, b, phase)
    requires forall t :: t in c.plan.all && t.Tile? && t.k > 0 && t in n ==> t in b && n[t] == b[t]
    ensures UpperOk(c, n, phase)
  {
    forall t, p | t in c.plan.all && t.Tile? && t.k > 0 && t in n && SpotIn(c, p)
      ensures UpperPixel(c, n, phase, t, p)
    {
      assert UpperPixel(c, b, phase, t, p);
    }
  }

  lemma FilledShape(c: Config, b: Buffers, row: nat)
    requires c.side > 0 && Shaped(c, b)
    ensures Shaped(c, FilledRow(c, b, row))
  {
    var n := FilledRow(c, b, row);
    forall t | t in n ensures |n[t]| == c.T() && forall y :: 0 <= y < c.T() ==> |n[t][y]| == c.T() {
      if t in RowTiles(c, row) { assert n[t] == FilledTile(c, b, t); } else { assert n[t] == b[t]; }
    }
  }

  lemma FillStep(c: Config, s: State)
    requires Valid(c) && Inv(c, s) && Enabled(c, s, LP.Fill)
    ensures BuffersOk(c, Apply(c, s, LP.Fill).buffers, Apply(c, s, LP.Fill).ctl)
  {
    FilledShape(c, s.buffers, s.ctl.row);
    FilledBottom(c, s.buffers, s.ctl.row);
    SameUpper(c, s.buffers, FilledRow(c, s.buffers, s.ctl.row), s.ctl.phase);
  }

  lemma SameBottom(c: Config, b: Buffers, n: Buffers)
    requires BottomOk(c, b)
    requires forall t :: t in c.plan.all && t.Tile? && t.k == 0 && t in n ==> t in b && n[t] == b[t]
    ensures BottomOk(c, n)
  {
    forall t, x, y | t in c.plan.all && t.Tile? && t.k == 0 && t in n && 0 <= x < c.T() && 0 <= y < c.T()
      ensures BottomPixel(c, n, t, x, y)
    {
      assert BottomPixel(c, b, t, x, y);
    }
  }

  lemma ZeroPix(c: Config, b: Buffers, g: Tile, p: Spot)
    requires c.side > 0 && g !in b && SpotIn(c, p)
    ensures Pix(Initialised(c, b, g), g, X(c, p), Y(c, p)) == 0
  {
    AddressInTile(c, p);
  }

  /** A target without buffer has no source that stored anything, so a blank buffer is right. */
  lemma InitialisedUpper(c: Config, b: Buffers, phase: Phases, g: Tile)
    requires c.side > 0 && UpperOk(c, b, phase) && UpperAllocated(c, b, phase)
    ensures UpperOk(c, Initialised(c, b, g), phase)
  {
    var n := Initialised(c, b, g);
    forall t, p | t in c.plan.all && t.Tile? && t.k > 0 && t in n && SpotIn(c, p)
      ensures UpperPixel(c, n, phase, t, p)
    {
      if t in b {
        assert UpperPixel(c, b, phase, t, p);
      } else {
        ZeroPix(c, b, g, p);
        var u := SourceAt(t, p.ox, p.oy);
        SourceAtIff(t, p.ox, p.oy, u);
        assert u in c.plan.all ==> !Begun(LP.PhaseOf(phase, u));
      }
    }
  }

  lemma InitialisedShape(c: Config, b: Buffers, g: Tile)
    requires Shaped(c, b)
    ensures Shaped(c, Initialised(c, b, g))
  {
  }

  lemma BeginBuffers(c: Config, b: Buffers, ctl: LP.Control, t: Tile)
    requires c.side > 0 && BuffersOk(c, b, ctl) && t in c.plan.all && t.Tile? && LP.PhaseOf(ctl.phase, t).Pending?
    ensures BuffersOk(c, Initialised(c, b, LP.Target(t)), ctl.(phase := ctl.phase[t := LP.Writing(0)]))
  {
    var n, g := Initialised(c, b, LP.Target(t)), ctl.phase[t := LP.Writing(0)];
    InitialisedShape(c, b, LP.Target(t));
    SameBottom(c, b, n);
    InitialisedUpper(c, b, ctl.phase, LP.Target(t));
    UpperUntouched(c, n, ctl.phase, g);
  }

  lemma BeginStep(c: Config, s: State, t: Tile)
    requires Valid(c) && Inv(c, s) && Enabled(c, s, LP.Begin(t))
    ensures BuffersOk(c, Apply(c, s, LP.Begin(t)).buffers, Apply(c, s, LP.Begin(t)).ctl)
  {
    LP.JobBelowTop(c.plan, s.ctl, t);
    BeginBuffers(c, s.buffers, s.ctl, t);
  }

  /** The spot and the bitmap-wide place of pixel `n` of the job of tile `t`. */
  function JobSpot(c: Config, t: Tile, n: nat): Spot
    requires c.side > 0 && t.Tile?
  {
    Spot(t.i % 8, t.j % 8, n % c.side, n / c.side)
  }

  /** A job that may store its pixel `n`. */
  ghost predicate Storing(c: Config, b: Buffers, phase: Phases, t: Tile, n: nat) {
    && c.side > 0 && t in c.plan.all && t.Tile? && LP.PhaseOf(phase, t) == LP.Writing(n) && n < c.side * c.side
    && LP.Target(t) in b && Shaped(c, b) && ShowsFlat(c, b, t)
  }

  /** The stored pixel is the flat one. */
  lemma StoresFlat(c: Config, b: Buffers, phase: Phases, t: Tile, n: nat)
    requires Storing(c, b, phase, t, n)
    ensures SpotIn(c, JobSpot(c, t, n))
    ensures var p := JobSpot(c, t, n);
      Has(b, LP.Target(t), X(c, p), Y(c, p))
      && c.op(t.k, SourceBlock(b, t, p.px, p.py)) == Flat(c, t.k + 1, t.i * c.side + p.px, t.j * c.side + p.py)
  {
    var p := JobSpot(c, t, n);
    Slot(c.side, 0, 0, n);
    SourceBlockIsFlat(c, b, t, p.px, p.py);
    AddressInTile(c, p);
  }

  /** Pixel `n` becomes stored and no other spot of any tile changes. */
  lemma StorePixel(c: Config, b: Buffers, phase: Phases, t: Tile, n: nat, u: Tile, p: Spot)
    requires Storing(c, b, phase, t, n) && u.Tile? && u.k > 0 && SpotIn(c, p) && UpperPixel(c, b, phase, u, p)
    ensures UpperPixel(c, ReducedPixel(c, b, t, n), phase[t := LP.Writing(n + 1)], u, p)
  {
    var q := JobSpot(c, t, n);
    StoresFlat(c, b, phase, t, n);
    Addresses(c, p, q);
    Slot(c.side, p.px, p.py, n);
    SourceAtIff(u, p.ox, p.oy, t);
    StoreEffect(b, LP.Target(t), X(c, q), Y(c, q), c.op(t.k, SourceBlock(b, t, q.px, q.py)), u, X(c, p), Y(c, p));
  }

  lemma StoreUpper(c: Config, b: Buffers, phase: Phases, t: Tile, n: nat)
    requires Storing(c, b, phase, t, n) && UpperOk(c, b, phase)
    ensures UpperOk(c, ReducedPixel(c, b, t, n), phase[t := LP.Writing(n + 1)])
  {
    var b', phase' := ReducedPixel(c, b, t, n), phase[t := LP.Writing(n + 1)];
    assert b'.Keys == b.Keys;
    forall u, p | u in c.plan.all && u.Tile? && u.k > 0 && u in b' && SpotIn(c, p)
      ensures UpperPixel(c, b', phase', u, p)
    {
      assert UpperPixel(c, b, phase, u, p);
      StorePixel(c, b, phase, t, n, u, p);
    }
  }

  lemma StoreShape(c: Config, b: Buffers, t: Tile, x: int, y: int, v: Pixel)
    requires Shaped(c, b)
    ensures Shaped(c, Store(b, t, x, y, v)) && Store(b, t, x, y, v).Keys == b.Keys
  {
  }

  lemma WriteBuffers(c: Config, b: Buffers, ctl: LP.Control, t: Tile, n: nat)
    requires Storing(c, b, ctl.phase, t, n) && BuffersOk(c, b, ctl)
    ensures BuffersOk(c, ReducedPixel(c, b, t, n), ctl.(phase := ctl.phase[t := LP.Writing(n + 1)]))
  {
    StoreUpper(c, b, ctl.phase, t, n);
    var q := JobSpot(c, t, n);
    StoreShape(c, b, LP.Target(t), X(c, q), Y(c, q), c.op(t.k, SourceBlock(b, t, q.px, q.py)));
    SameBottom(c, b, ReducedPixel(c, b, t, n));
  }

  lemma ApplyWrite(c: Config, s: State, t: Tile)
    requires Valid(c) && Enabled(c, s, LP.Write(t))
    ensures var n := LP.PhaseOf(s.ctl.phase, t).n;
      t.Tile? && Apply(c, s, LP.Write(t)) ==
                 State(s.ctl.(phase := s.ctl.phase[t := LP.Writing(n + 1)]), ReducedPixel(c, s.buffers, t, n))
  {
  }

  lemma WriteReady(c: Config, s: State, t: Tile)
    requires Valid(c) && Inv(c, s) && Enabled(c, s, LP.Write(t))
    ensures Storing(c, s.buffers, s.ctl.phase, t, LP.PhaseOf(s.ctl.phase, t).n)
  {
    LP.JobBelowTop(c.plan, s.ctl, t);
    FinishedShowsFlat(c, s, t);
  }

  lemma WriteStep(c: Config, s: State, t: Tile)
    requires Valid(c) && Enabled(c, s, LP.Write(t)) && BuffersOk(c, s.buffers, s.ctl)
    requires Storing(c, s.buffers, s.ctl.phase, t, LP.PhaseOf(s.ctl.phase, t).n)
    ensures BuffersOk(c, Apply(c, s, LP.Write(t)).buffers, Apply(c, s, LP.Write(t)).ctl)
  {
    WriteBuffers(c, s.buffers, s.ctl, t, LP.PhaseOf(s.ctl.phase, t).n);
    ApplyWrite(c, s, t);
  }

  /** Changes of control that fill no row, begin no job and store no pixel. */
  lemma ControlOnly(c: Config, b: Buffers, f: LP.Control, g: LP.Control)
    requires c.side > 0 && BuffersOk(c, b, f)
    requires forall t {:trigger RowFilled(g, t)} ::
      t in c.plan.all && t.Tile? ==> (RowFilled(f, t) <==> RowFilled(g, t))
    requires forall u {:trigger LP.PhaseOf(g.phase, u)} ::
      u in c.plan.all ==> (Begun(LP.PhaseOf(f.phase, u)) <==> Begun(LP.PhaseOf(g.phase, u)))
    requires forall u, m: nat {:trigger Stored(LP.PhaseOf(g.phase, u), m)} :: u in c.plan.all && m < c.side * c.side ==>
      (Stored(LP.PhaseOf(f.phase, u), m) <==> Stored(LP.PhaseOf(g.phase, u), m))
    ensures BuffersOk(c, b, g)
  {
    UpperUntouched(c, b, f.phase, g.phase);
  }

  lemma ReportStep(c: Config, s: State)
    requires Valid(c) && Inv(c, s) && Enabled(c, s, LP.ReportFetched)
    ensures BuffersOk(c, Apply(c, s, LP.ReportFetched).buffers, Apply(c, s, LP.ReportFetched).ctl)
  {
    var t := Tile(0, s.ctl.col, s.ctl.row);
    assert t in c.plan.all;
    assert LP.TileOk(c.plan, s.ctl, t);
    ControlOnly(c, s.buffers, s.ctl, LP.Apply(c.plan, s.ctl, LP.ReportFetched));
  }

  lemma FinishStep(c: Config, s: State, t: Tile)
    requires Valid(c) && Inv(c, s) && Enabled(c, s, LP.Finish(t))
    ensures BuffersOk(c, Apply(c, s, LP.Finish(t)).buffers, Apply(c, s, LP.Finish(t)).ctl)
  {
    LP.CanFinish(c.plan, s.ctl, t);
    LP.OneLess(c.plan, s.ctl, t);
    FinishControl(c, s.buffers, s.ctl, t);
  }

  /** Finishing a job changes no phase in a way that buffers depend on. */
  lemma FinishPhase(c: Config, f: LP.Control, t: Tile, u: Tile, m: nat)
    requires c.plan.pixels == c.side * c.side && LP.Finishing(c.plan, f, t) && LP.PhaseOf(f.phase, LP.Target(t)).Idle?
    ensures var g := LP.Apply(c.plan, f, LP.Finish(t));
      && (Begun(LP.PhaseOf(f.phase, u)) <==> Begun(LP.PhaseOf(g.phase, u)))
      && (m < c.side * c.side ==> (Stored(LP.PhaseOf(f.phase, u), m) <==> Stored(LP.PhaseOf(g.phase, u), m)))
  {}

  lemma FinishControl(c: Config, b: Buffers, f: LP.Control, t: Tile)
    requires c.side > 0 && BuffersOk(c, b, f) && c.plan.pixels == c.side * c.side && LP.Finishing(c.plan, f, t)
    requires LP.PhaseOf(f.phase, LP.Target(t)).Idle?
    ensures BuffersOk(c, b, LP.Apply(c.plan, f, LP.Finish(t)))
  {
    var g := LP.Apply(c.plan, f, LP.Finish(t));
    forall u | u in c.plan.all ensures Begun(LP.PhaseOf(f.phase, u)) <==> Begun(LP.PhaseOf(g.phase, u)) {
      FinishPhase(c, f, t, u, 0);
    }
    forall u, m: nat | u in c.plan.all && m < c.side * c.side
      ensures Stored(LP.PhaseOf(f.phase, u), m) <==> Stored(LP.PhaseOf(g.phase, u), m)
    {
      FinishPhase(c, f, t, u, m);
    }
    ControlOnly(c, b, f, g);
  }

  lemma InvStep(c: Config, s: State, e: LP.Step)
    requires Valid(c) && Inv(c, s) && Enabled(c, s, e)
    ensures Inv(c, Apply(c, s, e))
  {
    LP.InvStep(c.plan, s.ctl, e);
    match e
    case Fill => FillStep(c, s);
    case ReportFetched => ReportStep(c, s);
    case Begin(t) => BeginStep(c, s, t);
    case Write(t) => WriteReady(c, s, t); WriteStep(c, s, t);
    case Finish(t) => FinishStep(c, s, t);
  }

  lemma InvInit(c: Config, s: State)
    requires Valid(c) && Init(c, s)
    ensures Inv(c, s)
  {
    LP.InvInit(c.plan, s.ctl);
  }

  /** The step a run takes to its `i`-th state. */
  lemma StepOf(c: Config, r: seq<State>, i: nat) returns (e: LP.Step)
    requires Valid(c) && IsRun(c, r) && 0 < i < |r|
    ensures IsStep(c, r[i - 1], e, r[i])
  {
    assert StepAt(c, r, i);
    e :| IsStep(c, r[i - 1], e, r[i]);
  }

  lemma {:induction false} InvAlways(c: Config, r: seq<State>, i: nat)
    requires Valid(c) && IsRun(c, r) && i < |r|
    ensures Inv(c, r[i])
  {
    if i == 0 {
      InvInit(c, r[0]);
    } else {
      InvAlways(c, r, i - 1);
      var e := StepOf(c, r, i);
      InvStep(c, r[i - 1], e);
    }
  }

  // ------------------------------------------------------------------
  // Results about every load

  /**
   * At every moment of every load: no tile is reported twice, none before it
   * was fetched or before all its source tiles were reduced into it, the
   * counter stays within the number of tiles, and a reported tile already shows
   * the flat pyramid.
   */
  lemma LoadIsSafe(c: Config, r: seq<State>, i: nat, t: Tile)
    requires Valid(c) && IsRun(c, r) && i < |r| && t in c.plan.all
    ensures r[i].ctl.reports[t] <= 1
    ensures r[i].ctl.reports[t] == 1 <==> LP.Complete(c.plan, r[i].ctl, t)
    ensures !r[i].ctl.defect && r[i].ctl.finishedCount <= |c.plan.all|
    ensures r[i].ctl.reports[t] == 1 ==> ShowsFlat(c, r[i].buffers, t)
  {
    InvAlways(c, r, i);
    assert LP.TileOk(c.plan, r[i].ctl, t);
    LP.SubsetSize(LP.FinishedTiles(c.plan, r[i].ctl.reports), c.plan.all);
    if r[i].ctl.reports[t] == 1 { FinishedShowsFlat(c, r[i], t); }
  }

  lemma StepDown(c: Config, s: State, e: LP.Step, n: State)
    requires Valid(c) && LP.Inv(c.plan, s.ctl) && IsStep(c, s, e, n)
    ensures LP.Remaining(c.plan, n.ctl) == LP.Remaining(c.plan, s.ctl) - 1 >= 0
  {
    LP.StepUsesOneUnit(c.plan, s.ctl, e);
  }

  /**
   * Every step of a load uses up one unit of a measure, so no load takes more
   * steps than the measure says at the start.
   */
  lemma {:induction false} LoadTerminates(c: Config, r: seq<State>, i: nat)
    requires Valid(c) && IsRun(c, r) && i < |r|
    ensures LP.Remaining(c.plan, r[i].ctl) == LP.Remaining(c.plan, r[0].ctl) - i
    ensures i > 0 ==> i <= LP.Remaining(c.plan, r[0].ctl)
  {
    if i > 0 {
      LoadTerminates(c, r, i - 1);
      var e := StepOf(c, r, i);
      InvAlways(c, r, i - 1);
      StepDown(c, r[i - 1], e, r[i]);
    }
  }

  /**
   * The pyramid theorem: whatever the interleaving of fetching, reducing and
   * single pixel stores, once no step is possible every tile of every layer has
   * been reported once, the counter equals the number of tiles, and every
   * pixel of every tile equals the flat pyramid.
   */
  lemma LoadComputesFlatPyramid(c: Config, r: seq<State>, i: nat, t: Tile, x: nat, y: nat)
    requires Valid(c) && IsRun(c, r) && i < |r| && t in c.plan.all && x < c.T() && y < c.T()
    requires Quiet(c, r[i])
    ensures r[i].ctl.finishedCount == |c.plan.all| && r[i].ctl.reports[t] == 1
    ensures t.Tile? && Has(r[i].buffers, t, x, y)
    ensures Pix(r[i].buffers, t, x, y) == Flat(c, t.k, t.i * c.T() + x, t.j * c.T() + y)
  {
    InvAlways(c, r, i);
    assert forall e :: LP.Enabled(c.plan, r[i].ctl, e) ==> Enabled(c, r[i], e);
    LP.QuietIsFinished(c.plan, r[i].ctl);
    FinishedShowsFlat(c, r[i], t);
  }

  /**
   * Bits that pad the last byte of a scanline are copied into the tiles too.
   * They are pixels of a bitmap that is up to 7 pixels wider and has the same
   * tiles, so everything said about loads holds with that width, and only the
   * bottom layer is wider.
   */
  lemma PaddingBits(c: Config, padded: nat)
    requires Valid(c) && c.w <= padded <= 8 * CeilDiv(c.w, 8)
    ensures Valid(c.(w := padded))
    ensures forall k: nat | k > 0 :: LayerSize(padded, k) == LayerSize(c.w, k)
  {
    var d := c.(w := padded);
    forall t ensures Planned(d, t) {
      assert Planned(c, t);
      if t.Tile? { PaddedSize(c.w, padded, t.k, c.side); }
    }
    forall k: nat | k > 0 ensures LayerSize(padded, k) == LayerSize(c.w, k) { PaddedSize(c.w, padded, k, c.side); }
  }

  /** Every load can start. */
  lemma LoadStarts(c: Config) returns (r: seq<State>)
    requires Valid(c)
    ensures IsRun(c, r) && |r| == 1
  {
    var unfinished := map t | t in c.plan.all :: |LP.Sources(c.plan, t)|;
    r := [State(LP.Control(0, false, 0, multiset{}, map[], unfinished, 0, false), map[])];
  }

  lemma RunExtends(c: Config, r: seq<State>, e: LP.Step)
    requires Valid(c) && IsRun(c, r) && Enabled(c, r[|r| - 1], e)
    ensures IsRun(c, r + [Apply(c, r[|r| - 1], e)])
  {
    var n := Apply(c, r[|r| - 1], e);
    var q := r + [n];
    assert IsStep(c, q[|r| - 1], e, q[|r|]);
    forall i | 0 < i < |q| ensures StepAt(c, q, i) {
      if i < |r| { assert StepAt(c, r, i); }
    }
  }

  /** From wherever a load is, it can go on until nothing is left to do. */
  lemma {:induction false} LoadCompletes(c: Config, r: seq<State>) returns (q: seq<State>)
    requires Valid(c) && IsRun(c, r)
    ensures IsRun(c, q) && r <= q && Quiet(c, q[|q| - 1])
    decreases LP.Remaining(c.plan, r[|r| - 1].ctl)
  {
    var s := r[|r| - 1];
    if e :| Enabled(c, s, e) {
      InvAlways(c, r, |r| - 1);
      StepDown(c, s, e, Apply(c, s, e));
      RunExtends(c, r, e);
      q := LoadCompletes(c, r + [Apply(c, s, e)]);
    } else {
      q := r;
    }
  }
}
