/**
 * Reducing colormapped tiles: which two colours occur most in 8x8 pixels, and
 * how a pair of colours is packed into one sample.
 */
module Histogram {

  import opened Arith
  import opened Bits
  import opened SampleIterators

  // ------------------------------------------------------------------
  // The two most frequent colours

  /** The first colour among those that occur most. */
  predicate IsFirst(lookup: seq<nat>, n: nat, first: nat) {
    && first < n <= |lookup|
    && (forall c | 0 <= c < n :: lookup[c] <= lookup[first])
    && (forall c | 0 <= c < first :: lookup[c] < lookup[first])
  }

  /** The first among those that occur most, leaving out `first`. */
  predicate IsSecond(lookup: seq<nat>, n: nat, first: nat, second: nat) {
    && second < n <= |lookup| && second != first
    && (forall c | 0 <= c < n && c != first :: lookup[c] <= lookup[second])
    && (forall c | 0 <= c < second && c != first :: lookup[c] < lookup[second])
  }

  /** The two most frequent colours; twice the same when there is only one. */
  predicate IsTopTwo(lookup: seq<nat>, first: nat, second: nat) {
    && IsFirst(lookup, |lookup|, first)
    && if forall c | 0 <= c < |lookup| && c != first :: lookup[c] == 0 then second == first
       else IsSecond(lookup, |lookup|, first, second) && lookup[second] > 0
  }

  method TopTwo(lookup: array<nat>) returns (first: nat, second: nat)
    requires lookup.Length >= 2
    ensures IsTopTwo(lookup[..], first, second)
  {
    first, second := 0, 1;
    if lookup[1] > lookup[0] {
      first, second := 1, 0;
    }
    for c := 2 to lookup.Length
      invariant IsFirst(lookup[..], c, first) && IsSecond(lookup[..], c, first, second)
    {
      if lookup[c] > lookup[first] {
        second := first;
        first := c;
      } else if lookup[c] > lookup[second] {
        second := c;
      }
    }
    if lookup[second] == 0 {
      second := first;
    }
  }

  // ------------------------------------------------------------------
  // Two colours in one sample

  function Pack(b: nat, first: nat, second: nat): nat {
    Or(Shl(first, b), second)
  }

  lemma PackBit(b: nat, first: nat, second: nat, i: nat)
    requires b > 0 && second <= Mask(b)
    ensures Bit(Pack(b, first, second), i) == if i < b then Bit(second, i) else Bit(first, i - b)
  {
    BitOr(Shl(first, b), second, i);
    BitShl(first, b, i);
    WithinMask(b, second, i);
  }

  /** `& pixelMask` and `>> pixelOffset` give the two colours back, and the pair fits a sample of twice the width. */
  lemma PackDecodes(b: nat, first: nat, second: nat)
    requires b > 0 && first <= Mask(b) && second <= Mask(b)
    ensures And(Pack(b, first, second), Mask(b)) == second
    ensures Shr(Pack(b, first, second), b) == first
    ensures Pack(b, first, second) <= Mask(2 * b)
  {
    var p := Pack(b, first, second);
    forall i: nat ensures Bit(And(p, Mask(b)), i) == Bit(second, i) {
      BitAnd(p, Mask(b), i);
      MaskBits(b, i);
      PackBit(b, first, second, i);
      WithinMask(b, second, i);
    }
    SameBits(And(p, Mask(b)), second);
    forall i: nat ensures Bit(Shr(p, b), i) == Bit(first, i) {
      BitShr(p, b, i);
      PackBit(b, first, second, i + b);
    }
    SameBits(Shr(p, b), first);
    PackFits(b, first, second);
  }

  lemma PackFits(b: nat, first: nat, second: nat)
    requires b > 0 && first <= Mask(b) && second <= Mask(b)
    ensures Pack(b, first, second) <= Mask(2 * b)
  {
    var p := Pack(b, first, second);
    forall i: nat ensures Bit(And(p, Mask(2 * b)), i) == Bit(p, i) {
      BitAnd(p, Mask(2 * b), i);
      MaskBits(2 * b, i);
      PackBit(b, first, second, i);
      if i >= b { WithinMask(b, first, i - b); }
    }
    SameBits(And(p, Mask(2 * b)), p);
    AndMask(p, 2 * b);
    MaskBits(2 * b, 0);
  }

  // ------------------------------------------------------------------
  // Counting the votes of 8x8 pixels

  /** One colour per sample, or two that are packed. */
  datatype Ballot = Single | Packed

  function Colours(k: Ballot, b: nat, v: nat): seq<nat>
    requires b > 0
  {
    if k.Single? then [v] else [And(v, Mask(b)), Shr(v, b)]
  }

  function Width(k: Ballot, b: nat): nat { if k.Single? then b else 2 * b }

  function Element(k: Ballot): nat { if k.Single? then 8 else 16 }

  function FormatOf(k: Ballot, b: nat): Format { Format(Element(k), Width(k, b)) }

  function Flatten(l: seq<seq<nat>>): seq<nat> {
    if |l| == 0 then [] else Flatten(l[..|l| - 1]) + l[|l| - 1]
  }

  lemma {:induction false} FlattenLength(l: seq<seq<nat>>, m: nat)
    requires forall i | 0 <= i < |l| :: |l[i]| <= m
    ensures |Flatten(l)| <= |l| * m
  {
    if |l| > 0 {
      FlattenLength(l[..|l| - 1], m);
      NextProduct(|l| - 1, m);
    }
  }

  lemma FlattenNext(l: seq<seq<nat>>, n: nat)
    requires n < |l|
    ensures Flatten(l[..n + 1]) == Flatten(l[..n]) + l[n]
  {
    assert l[..n + 1][..n] == l[..n];
  }

  /** How often each of the colours below `size` occurs. */
  function CountsOf(size: nat, votes: seq<nat>): (h: seq<nat>)
    ensures |h| == size
  {
    seq(size, c requires c >= 0 => multiset(votes)[c])
  }

  lemma {:induction false} CountBounded(v: seq<nat>, c: nat)
    ensures multiset(v)[c] <= |v|
  {
    if |v| > 0 {
      var w, x := v[..|v| - 1], v[|v| - 1];
      assert v == w + [x];
      CountBounded(w, c);
    }
  }

  /** `++lookup[c]` on a byte, after the votes `v`: it does not wrap around. */
  method VoteFor(lookup: array<nat>, c: nat, ghost v: seq<nat>)
    requires c < lookup.Length && |v| < 255 && lookup[..] == CountsOf(lookup.Length, v)
    modifies lookup
    ensures lookup[..] == CountsOf(lookup.Length, v + [c])
  {
    CountBounded(v, c);
    forall d: nat | d < lookup.Length
      ensures multiset(v + [c])[d] == lookup[d] + if d == c then 1 else 0
    {
      assert lookup[d] == lookup[..][d];
    }
    lookup[c] := (lookup[c] + 1) % 256;
  }

  /** The votes of one sample. */
  method VoteSample(k: Ballot, lookup: array<nat>, b: nat, value: nat, ghost v: seq<nat>)
    requires b > 0 && value <= Mask(Width(k, b)) && lookup.Length == Mask(b) + 1
    requires |v| < 254 && lookup[..] == CountsOf(lookup.Length, v)
    modifies lookup
    ensures lookup[..] == CountsOf(lookup.Length, v + Colours(k, b, value))
  {
    ColoursInRange(k, b, value);
    if k.Single? {
      VoteFor(lookup, value, v);
    } else {
      VoteFor(lookup, And(value, Mask(b)), v);
      VoteFor(lookup, Shr(value, b), v + [And(value, Mask(b))]);
      assert v + [And(value, Mask(b))] + [Shr(value, b)] == v + Colours(k, b, value);
    }
  }

  lemma ColoursInRange(k: Ballot, b: nat, value: nat)
    requires b > 0 && value <= Mask(Width(k, b))
    ensures if k.Single? then value <= Mask(b) else And(value, Mask(b)) <= Mask(b) && Shr(value, b) <= Mask(b)
  {
    if k.Packed? {
      FieldInRange(value, 0, b);
      TopField(value, b, b);
      FieldInRange(value, b, b);
    }
  }

  /** The ballots of 64 samples, each with at most two votes. */
  predicate IsBlock(ballots: seq<seq<nat>>) {
    |ballots| == 64 && forall i | 0 <= i < 64 :: |ballots[i]| <= 2
  }

  /** Counts the votes of the current sample, which is number `n` of its block and has value `v`, and moves on. */
  method CountSample(k: Ballot, b: nat, current: SampleIterator, lookup: array<nat>, ghost ballots: seq<seq<nat>>,
                     ghost n: nat, ghost flat: seq<nat>, ghost v: nat)
    requires 0 < b <= 8 && current.Valid() && current.f == FormatOf(k, b) && lookup != current.data
    requires flat == Samples(current.f, current.data[..]) && current.Index() < |flat| && v == flat[current.Index()]
    requires IsBlock(ballots) && n < 64 && ballots[n] == Colours(k, b, v)
    requires lookup.Length == Mask(b) + 1 && lookup[..] == CountsOf(lookup.Length, Flatten(ballots[..n]))
    modifies lookup, current
    ensures current.Valid() && current.Index() == old(current.Index()) + 1
    ensures lookup[..] == CountsOf(lookup.Length, Flatten(ballots[..n + 1]))
  {
    ElementOf(current.samplesPerBase, current.At(), current.data.Length);
    var value := current.Get();
    SampleFits(current.f, current.data[..], current.Index());
    FlattenLength(ballots[..n], 2);
    FlattenNext(ballots, n);
    VoteSample(k, lookup, b, value, Flatten(ballots[..n]));
    current.Next();
  }

  /** Ballots `n` to `n + 8` are those of the row that begins at sample `first`. */
  predicate IsRow(k: Ballot, b: nat, flat: seq<nat>, first: nat, ballots: seq<seq<nat>>, n: nat)
    requires b > 0
  {
    first + 8 <= |flat| && n + 8 <= |ballots| &&
    forall i | n <= i < n + 8 :: ballots[i] == Colours(k, b, flat[first + (i - n)])
  }

  lemma BallotOf(k: Ballot, b: nat, flat: seq<nat>, at: nat, first: nat, ballots: seq<seq<nat>>, n: nat, m: nat)
      returns (v: nat)
    requires b > 0 && IsRow(k, b, flat, first, ballots, n) && n <= m < n + 8 && at == first + (m - n)
    ensures at < |flat| && m < |ballots| && v == flat[at] && ballots[m] == Colours(k, b, v)
  {
    v := flat[at];
  }

  /** Row `r`, which begins at element `row`. */
  predicate RowAt(k: Ballot, b: nat, source: seq<nat>, row: nat, ballots: seq<seq<nat>>, r: nat)
    requires FormatOf(k, b).Valid()
  {
    IsRow(k, b, Samples(FormatOf(k, b), source), row * FormatOf(k, b).SamplesPerBase(), ballots, 8 * r)
  }

  /** Counts the votes of 8 samples from the current one on. */
  method CountEight(k: Ballot, b: nat, current: SampleIterator, lookup: array<nat>, ghost ballots: seq<seq<nat>>,
                    ghost n: nat, ghost flat: seq<nat>)
    requires 0 < b <= 8 && current.Valid() && current.f == FormatOf(k, b) && lookup != current.data && IsBlock(ballots)
    requires flat == Samples(current.f, current.data[..]) && IsRow(k, b, flat, current.Index(), ballots, n)
    requires lookup.Length == Mask(b) + 1 && lookup[..] == CountsOf(lookup.Length, Flatten(ballots[..n]))
    modifies lookup, current
    ensures lookup[..] == CountsOf(lookup.Length, Flatten(ballots[..n + 8]))
  {
    ghost var first, m: nat := current.Index(), n;
    for l := 0 to 8
      invariant current.Valid() && current.Index() == first + l && m == n + l
      invariant lookup[..] == CountsOf(lookup.Length, Flatten(ballots[..m]))
    {
      ghost var v := BallotOf(k, b, flat, first + l, first, ballots, n, m);
      CountSample(k, b, current, lookup, ballots, m, flat, v);
      m := m + 1;
    }
  }

  /** Counts the votes of row `r`, which begins at element `row`. */
  method CountRow(k: Ballot, b: nat, source: array<nat>, row: nat, lookup: array<nat>, ghost ballots: seq<seq<nat>>,
                  ghost r: nat)
    requires 0 < b <= 8 && lookup != source && IsBlock(ballots) && RowAt(k, b, source[..], row, ballots, r)
    requires lookup.Length == Mask(b) + 1 && lookup[..] == CountsOf(lookup.Length, Flatten(ballots[..8 * r]))
    modifies lookup
    ensures lookup[..] == CountsOf(lookup.Length, Flatten(ballots[..8 * r + 8]))
  {
    var current := new SampleIterator(source, row, 0, FormatOf(k, b));
    ghost var flat, n := Samples(FormatOf(k, b), source[..]), 8 * r;
    assert flat == Samples(current.f, current.data[..]) && IsRow(k, b, flat, current.Index(), ballots, n);
    CountEight(k, b, current, lookup, ballots, n, flat);
  }

  /** Every row of 8 samples from `starts` lies in the tile. */
  predicate RowsInside(starts: seq<nat>, length: nat) {
    |starts| == 8 && forall r | 0 <= r < 8 :: starts[r] + 8 <= length
  }

  /** The ballots of the 8x8 pixels, row after row. */
  function BlockBallots(k: Ballot, b: nat, flat: seq<nat>, starts: seq<nat>): (l: seq<seq<nat>>)
    requires b > 0 && RowsInside(starts, |flat|)
    ensures IsBlock(l)
  {
    seq(64, n requires 0 <= n < 64 => Colours(k, b, flat[starts[n / 8] + n % 8]))
  }

  // ------------------------------------------------------------------
  // What the votes are

  /** A pair votes once for each of its colours, twice when they are the same. */
  lemma PairVotes(b: nat, x: nat, y: nat)
    requires b > 0 && x <= Mask(b) && y <= Mask(b)
    ensures multiset(Colours(Packed, b, Pack(b, x, y))) == multiset{x, y}
  {
    PackDecodes(b, x, y);
    assert Colours(Packed, b, Pack(b, x, y)) == [y, x];
  }

  /** Sample `n` of the 8x8 pixels. */
  function BlockSample(flat: seq<nat>, starts: seq<nat>, n: nat): nat {
    if n / 8 < |starts| && starts[n / 8] + n % 8 < |flat| then flat[starts[n / 8] + n % 8] else 0
  }

  /** The numbers below `m` that satisfy `p`. */
  ghost function Places(p: nat -> bool, m: nat): set<nat> {
    set n: nat | n < m && p(n)
  }

  lemma PlacesNext(p: nat -> bool, m: nat)
    ensures |Places(p, m + 1)| == |Places(p, m)| + if p(m) then 1 else 0
  {
    if p(m) {
      assert Places(p, m + 1) == Places(p, m) + {m};
    } else {
      assert Places(p, m + 1) == Places(p, m);
    }
  }

  /** The samples that are `c`, those with `c` in their upper half, and those with `c` in their lower half. */
  function IsColour(flat: seq<nat>, starts: seq<nat>, c: nat): nat -> bool {
    (n: nat) => BlockSample(flat, starts, n) == c
  }

  function IsUpper(b: nat, flat: seq<nat>, starts: seq<nat>, c: nat): nat -> bool {
    (n: nat) => Shr(BlockSample(flat, starts, n), b) == c
  }

  function IsLower(b: nat, flat: seq<nat>, starts: seq<nat>, c: nat): nat -> bool
    requires b > 0
  {
    (n: nat) => And(BlockSample(flat, starts, n), Mask(b)) == c
  }

  /** How many votes colour `c` gets from the first `m` samples. */
  ghost function VotesFor(k: Ballot, b: nat, flat: seq<nat>, starts: seq<nat>, c: nat, m: nat): nat
    requires b > 0
  {
    if k.Single? then |Places(IsColour(flat, starts, c), m)|
    else |Places(IsUpper(b, flat, starts, c), m)| + |Places(IsLower(b, flat, starts, c), m)|
  }

  lemma VotesNext(k: Ballot, b: nat, flat: seq<nat>, starts: seq<nat>, c: nat, m: nat)
    requires b > 0
    ensures VotesFor(k, b, flat, starts, c, m + 1)
         == VotesFor(k, b, flat, starts, c, m) + multiset(Colours(k, b, BlockSample(flat, starts, m)))[c]
  {
    if k.Single? {
      PlacesNext(IsColour(flat, starts, c), m);
    } else {
      PlacesNext(IsUpper(b, flat, starts, c), m);
      PlacesNext(IsLower(b, flat, starts, c), m);
    }
  }

  lemma {:induction false} FirstVotes(k: Ballot, b: nat, flat: seq<nat>, starts: seq<nat>, c: nat, m: nat)
    requires b > 0 && RowsInside(starts, |flat|) && m <= 64
    ensures multiset(Flatten(BlockBallots(k, b, flat, starts)[..m]))[c] == VotesFor(k, b, flat, starts, c, m)
  {
    var all := BlockBallots(k, b, flat, starts);
    if m == 0 {
      assert all[..0] == [];
      assert Places(IsColour(flat, starts, c), 0) == {};
      assert Places(IsUpper(b, flat, starts, c), 0) == {} && Places(IsLower(b, flat, starts, c), 0) == {};
    } else {
      FirstVotes(k, b, flat, starts, c, m - 1);
      FlattenVotes(all, m - 1, c);
      VotesNext(k, b, flat, starts, c, m - 1);
      BallotIs(k, b, flat, starts, m - 1);
    }
  }

  lemma FlattenVotes(l: seq<seq<nat>>, n: nat, c: nat)
    requires n < |l|
    ensures multiset(Flatten(l[..n + 1]))[c] == multiset(Flatten(l[..n]))[c] + multiset(l[n])[c]
  {
    FlattenNext(l, n);
  }

  lemma BallotIs(k: Ballot, b: nat, flat: seq<nat>, starts: seq<nat>, n: nat)
    requires b > 0 && RowsInside(starts, |flat|) && n < 64
    ensures BlockBallots(k, b, flat, starts)[n] == Colours(k, b, BlockSample(flat, starts, n))
  {}

  /**
   * The votes for a colour are the samples that are this colour or, of pairs,
   * the samples that have it above and the samples that have it below.
   */
  lemma VotesCounted(k: Ballot, b: nat, flat: seq<nat>, starts: seq<nat>, c: nat)
    requires b > 0 && RowsInside(starts, |flat|)
    ensures multiset(Flatten(BlockBallots(k, b, flat, starts)))[c] == VotesFor(k, b, flat, starts, c, 64)
  {
    FirstVotes(k, b, flat, starts, c, 64);
    assert BlockBallots(k, b, flat, starts)[..64] == BlockBallots(k, b, flat, starts);
  }

  lemma {:induction false} AllPlaces(p: nat -> bool, m: nat)
    ensures (forall n: nat | n < m :: p(n)) ==> |Places(p, m)| == m
    ensures (forall n: nat | n < m :: !p(n)) ==> |Places(p, m)| == 0
  {
    if m > 0 {
      AllPlaces(p, m - 1);
      PlacesNext(p, m - 1);
    } else {
      assert Places(p, 0) == {};
    }
  }

  /** The counts when all 64 samples are the pair (x, y). */
  lemma UniformVotes(b: nat, flat: seq<nat>, starts: seq<nat>, x: nat, y: nat, c: nat)
    requires b > 0 && x <= Mask(b) && y <= Mask(b) && RowsInside(starts, |flat|)
    requires forall n: nat | n < 64 :: BlockSample(flat, starts, n) == Pack(b, x, y)
    ensures multiset(Flatten(BlockBallots(Packed, b, flat, starts)))[c] == 64 * multiset{x, y}[c]
  {
    PackDecodes(b, x, y);
    VotesCounted(Packed, b, flat, starts, c);
    AllPlaces(IsUpper(b, flat, starts, c), 64);
    AllPlaces(IsLower(b, flat, starts, c), 64);
  }

  /** A block in which all pixels hold the same two colours is reduced to a pair of these two colours. */
  lemma UniformPairStays(b: nat, flat: seq<nat>, starts: seq<nat>, x: nat, y: nat, first: nat, second: nat)
    requires b > 0 && x <= Mask(b) && y <= Mask(b) && RowsInside(starts, |flat|)
    requires forall n: nat | n < 64 :: BlockSample(flat, starts, n) == Pack(b, x, y)
    requires IsTopTwo(CountsOf(Mask(b) + 1, Flatten(BlockBallots(Packed, b, flat, starts))), first, second)
    ensures {first, second} == {x, y}
  {
    var counts := CountsOf(Mask(b) + 1, Flatten(BlockBallots(Packed, b, flat, starts)));
    forall c: nat | c < |counts| ensures counts[c] == 64 * multiset{x, y}[c] {
      UniformVotes(b, flat, starts, x, y, c);
    }
    assert counts[x] > 0 && counts[y] > 0;
    assert counts[first] > 0 && counts[second] > 0;
  }

  /** The first samples of 8 rows that begin at element `base`, `stride` elements apart. */
  function Starts(base: nat, stride: nat, spb: nat): (starts: seq<nat>)
    ensures |starts| == 8
  {
    seq(8, r requires r >= 0 => (base + r * stride) * spb)
  }

  predicate InTile(k: Ballot, b: nat, source: seq<nat>, base: nat, stride: nat)
    requires FormatOf(k, b).Valid()
  {
    RowsInside(Starts(base, stride, FormatOf(k, b).SamplesPerBase()), |Samples(FormatOf(k, b), source)|)
  }

  function BallotsAt(k: Ballot, b: nat, source: seq<nat>, base: nat, stride: nat): (l: seq<seq<nat>>)
    requires FormatOf(k, b).Valid() && InTile(k, b, source, base, stride)
    ensures IsBlock(l)
  {
    BlockBallots(k, b, Samples(FormatOf(k, b), source), Starts(base, stride, FormatOf(k, b).SamplesPerBase()))
  }

  /** The colours of the 8x8 pixels. */
  function VotesAt(k: Ballot, b: nat, source: seq<nat>, base: nat, stride: nat): seq<nat>
    requires FormatOf(k, b).Valid() && InTile(k, b, source, base, stride)
  {
    Flatten(BallotsAt(k, b, source, base, stride))
  }

  /** The votes that MostFrequent counts, colour by colour. */
  lemma VotesAtCounted(k: Ballot, b: nat, source: seq<nat>, base: nat, stride: nat, c: nat)
    requires 0 < b <= 8 && InTile(k, b, source, base, stride)
    ensures
      var flat, starts := Samples(FormatOf(k, b), source), Starts(base, stride, FormatOf(k, b).SamplesPerBase());
      multiset(VotesAt(k, b, source, base, stride))[c] == VotesFor(k, b, flat, starts, c, 64)
  {
    VotesCounted(k, b, Samples(FormatOf(k, b), source), Starts(base, stride, FormatOf(k, b).SamplesPerBase()), c);
  }

  lemma RowOf(k: Ballot, b: nat, flat: seq<nat>, starts: seq<nat>, r: nat, n: nat)
    requires b > 0 && RowsInside(starts, |flat|) && r < 8 && n == 8 * r
    ensures IsRow(k, b, flat, starts[r], BlockBallots(k, b, flat, starts), n)
  {
    var all := BlockBallots(k, b, flat, starts);
    forall i | n <= i < n + 8 ensures all[i] == Colours(k, b, flat[starts[r] + (i - n)]) {
      DivModUnique(i, 8, r, i - n);
    }
  }

  lemma StartOf(base: nat, stride: nat, spb: nat, r: nat, row: nat)
    requires r < 8 && row == base + r * stride
    ensures Starts(base, stride, spb)[r] == row * spb
  {}

  ghost predicate Rows(k: Ballot, b: nat, source: seq<nat>, base: nat, stride: nat, ballots: seq<seq<nat>>) {
    FormatOf(k, b).Valid() && IsBlock(ballots)
    && forall r: nat, row: nat | r < 8 && row == base + r * stride :: RowAt(k, b, source, row, ballots, r)
  }

  lemma RowsReady(k: Ballot, b: nat, source: seq<nat>, base: nat, stride: nat)
    requires 0 < b <= 8 && InTile(k, b, source, base, stride)
    ensures Rows(k, b, source, base, stride, BallotsAt(k, b, source, base, stride))
  {
    var spb, flat := FormatOf(k, b).SamplesPerBase(), Samples(FormatOf(k, b), source);
    var ballots := BallotsAt(k, b, source, base, stride);
    forall r: nat, row: nat | r < 8 && row == base + r * stride ensures RowAt(k, b, source, row, ballots, r) {
      StartOf(base, stride, spb, r, row);
      RowOf(k, b, flat, Starts(base, stride, spb), r, 8 * r);
    }
  }

  /** The rows of 8x8 pixels; `row` steps from one to the next. */
  method CountRows(k: Ballot, b: nat, source: array<nat>, base: nat, stride: nat, lookup: array<nat>,
                   ghost ballots: seq<seq<nat>>)
    requires 0 < b <= 8 && lookup != source && Rows(k, b, source[..], base, stride, ballots)
    requires lookup.Length == Mask(b) + 1 && lookup[..] == CountsOf(lookup.Length, [])
    modifies lookup
    ensures lookup[..] == CountsOf(lookup.Length, Flatten(ballots[..64]))
  {
    var row: nat := base;
    ghost var n: nat := 0;
    for r := 0 to 8
      invariant row == base + r * stride && n == 8 * r
      invariant lookup[..] == CountsOf(lookup.Length, Flatten(ballots[..n]))
    {
      assert RowAt(k, b, source[..], row, ballots, r);
      CountRow(k, b, source, row, lookup, ballots, r);
      NextProduct(r, stride);
      row := row + stride;
      n := n + 8;
    }
  }

  /** The histogram of 8x8 pixels. */
  method CountBlock(k: Ballot, b: nat, source: array<nat>, base: nat, stride: nat) returns (lookup: array<nat>)
    requires 0 < b <= 8 && InTile(k, b, source[..], base, stride)
    ensures fresh(lookup) && lookup[..] == CountsOf(Mask(b) + 1, VotesAt(k, b, source[..], base, stride))
  {
    lookup := NewLookup(b);
    ghost var ballots := BallotsAt(k, b, source[..], base, stride);
    RowsReady(k, b, source[..], base, stride);
    CountRows(k, b, source, base, stride, lookup, ballots);
    assert ballots[..64] == ballots;
  }

  method NewLookup(b: nat) returns (lookup: array<nat>)
    requires b > 0
    ensures fresh(lookup) && lookup.Length == Mask(b) + 1 && lookup[..] == CountsOf(lookup.Length, [])
  {
    lookup := new nat[Mask(b) + 1](_ => 0);
  }

  /** The value stored for 8x8 pixels: the most frequent colour above the second most frequent one. */
  method MostFrequent(k: Ballot, b: nat, source: array<nat>, base: nat, stride: nat) returns (pair: nat)
    requires 0 < b <= 8 && InTile(k, b, source[..], base, stride)
    ensures pair <= Mask(2 * b)
    ensures IsTopTwo(CountsOf(Mask(b) + 1, VotesAt(k, b, source[..], base, stride)), Shr(pair, b), And(pair, Mask(b)))
  {
    var lookup := CountBlock(k, b, source, base, stride);
    MaskBits(b, 0);
    PowAtLeastTwo(b);
    var first, second := TopTwo(lookup);
    PackDecodes(b, first, second);
    pair := Or(Shl(first, b), second);
  }

  lemma PowAtLeastTwo(b: nat)
    requires b > 0
    ensures Pow(2, b) >= 2
  {
    PowPositive(2, b - 1);
  }
}
