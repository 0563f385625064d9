/**
 * Reducing a tile by a factor 8 into one of the 64 places of its target tile,
 * for the seven formats that average.  Tiles are buffers of bytes; the
 * formats differ in strides, in how samples are packed and in a scale factor.
 */
module Reduce {

  import opened Arith
  import opened Bits
  import opened Rectangles
  import opened SampleIterators

  datatype Kind = Bw1 | Grey8 | Rgb24 | Cmyk32 | Cmyk16 | Cmyk8 | Cmyk4

  /** Bits per source pixel, which is also the number of source bytes for 8 pixels. */
  function Bpp(f: Kind): (n: nat)
    ensures n > 0
  {
    match f
    case Bw1 => 1
    case Grey8 => 8
    case Rgb24 => 24
    case Cmyk32 => 32
    case Cmyk16 => 16
    case Cmyk8 => 8
    case Cmyk4 => 4
  }

  function Channels(f: Kind): (n: nat)
    ensures n > 0
  {
    match f
    case Bw1 => 1
    case Grey8 => 1
    case Rgb24 => 3
    case _ => 4
  }

  /** Bits per sample. */
  function Bps(f: Kind): (n: nat)
    ensures n > 0 && n <= 8 && n * Channels(f) == Bpp(f)
  {
    match f
    case Bw1 => 1
    case Grey8 => 8
    case Rgb24 => 8
    case Cmyk32 => 8
    case Cmyk16 => 4
    case Cmyk8 => 2
    case Cmyk4 => 1
  }

  /** Bytes per row of a source tile, and of a target tile, as each format writes them. */
  function SourceStride(f: Kind, width: nat): nat {
    match f
    case Bw1 => width / 8
    case Grey8 => width
    case Rgb24 => 3 * width
    case Cmyk32 => 8 * width / 2
    case Cmyk16 => 4 * width / 2
    case Cmyk8 => width
    case Cmyk4 => width / 2
  }

  function TargetStride(f: Kind, width: nat): nat {
    match f
    case Bw1 => width
    case Grey8 => width
    case Rgb24 => 3 * width
    case _ => 8 * width / 2
  }

  /** Where the place (x, y) begins in the target buffer. */
  function TargetBase(f: Kind, width: nat, height: nat, x: nat, y: nat): nat {
    match f
    case Bw1 => height * y * TargetStride(f, width) / 8 + width * x / 8
    case Grey8 => height * y * TargetStride(f, width) / 8 + width * x / 8
    case Rgb24 => height * y * TargetStride(f, width) / 8 + TargetStride(f, width) * x / 8
    case _ => (height * y + x) * TargetStride(f, width) / 8
  }

  // ------------------------------------------------------------------
  // Counting bits

  /** The loop of the lookup table: add the lowest bit, shift right. */
  function PopCount(v: nat): nat {
    if v == 0 then 0 else And(v, 1) + PopCount(v / 2)
  }

  class BitCountLut {
    const lut: array<nat>

    ghost predicate Valid()
      reads this, lut
    {
      lut.Length == 256 && forall i | 0 <= i < 256 :: lut[i] == PopCount(i)
    }

    constructor ()
      ensures Valid() && fresh(lut)
    {
      var table := new nat[256];
      lut := table;
      new;
      for i := 0 to 256
        invariant forall k | 0 <= k < i :: lut[k] == PopCount(k)
      {
        var sum: nat, v: nat := 0, i;
        while v != 0
          invariant sum + PopCount(v) == PopCount(i)
          invariant forall k | 0 <= k < i :: lut[k] == PopCount(k)
        {
          sum := sum + And(v, 1);
          ShiftByOne(v);
          v := Shr(v, 1);
        }
        lut[i] := sum;
      }
    }

    method Lookup(index: nat) returns (n: nat)
      requires Valid() && index < 256
      ensures n == PopCount(index)
    {
      n := lut[index];
    }
  }

  lemma ShiftByOne(v: nat)
    ensures Shr(v, 1) == v / 2
  {}

  /** What byte `v`, at place `c` of the bytes of 8 pixels, adds to the sum of channel `ch`. */
  function Contribution(f: Kind, c: nat, v: nat, ch: nat): nat {
    match f
    case Bw1 => if ch == 0 then PopCount(v) else 0
    case Grey8 => if ch == 0 then v else 0
    case Rgb24 => if c % 3 == ch then v else 0
    case Cmyk32 => if c % 4 == ch then v else 0
    case Cmyk16 =>
      if c % 2 == 0 then (if ch == 0 then Shr(v, 4) else if ch == 1 then And(v, 15) else 0)
      else (if ch == 2 then Shr(v, 4) else if ch == 3 then And(v, 15) else 0)
    case Cmyk8 =>
      if ch == 0 then Shr(v, 6)
      else if ch == 1 then Shr(And(v, 0x30), 4)
      else if ch == 2 then Shr(And(v, 0x0C), 2)
      else if ch == 3 then And(v, 0x03)
      else 0
    case Cmyk4 => if ch < 4 then And(Shr(v, 7 - ch), 1) + And(Shr(v, 3 - ch), 1) else 0
  }

  function Scaled(f: Kind, sum: nat): nat {
    match f
    case Bw1 => sum * 255 / 64
    case Cmyk16 => sum * 255 / (15 * 64)
    case Cmyk8 => sum * 255 / 192
    case Cmyk4 => sum * 255 / 64
    case _ => sum / 64
  }

  // ------------------------------------------------------------------
  // What one target sample is

  function ByteAt(s: seq<nat>, i: nat): nat { if i < |s| then s[i] else 0 }

  /** The contributions of the first `n` bytes from `at`. */
  function RowSum(f: Kind, s: seq<nat>, at: nat, n: nat, ch: nat): nat {
    if n == 0 then 0 else RowSum(f, s, at, n - 1, ch) + Contribution(f, n - 1, ByteAt(s, at + n - 1), ch)
  }

  /** The contributions of the first `k` rows of the 8x8 pixels that begin at `at`. */
  function BlockSum(f: Kind, s: seq<nat>, at: nat, stride: nat, k: nat, ch: nat): nat {
    if k == 0 then 0 else BlockSum(f, s, at, stride, k - 1, ch) + RowSum(f, s, at + (k - 1) * stride, Bpp(f), ch)
  }

  method SumBlock(f: Kind, s: seq<nat>, base: nat, stride: nat, lut: BitCountLut) returns (sums: seq<nat>)
    requires base + 7 * stride + Bpp(f) <= |s|
    requires forall b | b in s :: b < 256
    requires lut.Valid()
    ensures |sums| == 4 && forall ch | 0 <= ch < 4 :: sums[ch] == BlockSum(f, s, base, stride, 8, ch)
  {
    var s0: nat, s1: nat, s2: nat, s3: nat := 0, 0, 0, 0;
    var row: nat := base;
    for k := 0 to 8
      invariant row == base + k * stride
      invariant AreBlockSums(f, s, base, stride, k, s0, s1, s2, s3)
    {
      RowInBlock(base, stride, k, Bpp(f), |s|);
      var t0, t1, t2, t3 := SumRow(f, s, row, lut);
      NextBlockRow(f, s, base, stride, k, row, s0, s1, s2, s3);
      s0, s1, s2, s3 := s0 + t0, s1 + t1, s2 + t2, s3 + t3;
      row := row + stride;
    }
    sums := [s0, s1, s2, s3];
  }

  predicate AreBlockSums(f: Kind, s: seq<nat>, at: nat, stride: nat, k: nat, s0: nat, s1: nat, s2: nat, s3: nat) {
    && s0 == BlockSum(f, s, at, stride, k, 0) && s1 == BlockSum(f, s, at, stride, k, 1)
    && s2 == BlockSum(f, s, at, stride, k, 2) && s3 == BlockSum(f, s, at, stride, k, 3)
  }

  lemma NextBlockRow(f: Kind, s: seq<nat>, at: nat, stride: nat, k: nat, row: nat, s0: nat, s1: nat, s2: nat, s3: nat)
    requires row == at + k * stride && AreBlockSums(f, s, at, stride, k, s0, s1, s2, s3)
    ensures AreBlockSums(f, s, at, stride, k + 1, s0 + RowSum(f, s, row, Bpp(f), 0), s1 + RowSum(f, s, row, Bpp(f), 1),
                         s2 + RowSum(f, s, row, Bpp(f), 2), s3 + RowSum(f, s, row, Bpp(f), 3))
  {}

  lemma RowInBlock(base: nat, stride: nat, k: nat, bpp: nat, size: nat)
    requires k < 8 && base + 7 * stride + bpp <= size
    ensures base + k * stride + bpp <= size && (k + 1) * stride == k * stride + stride
  {
    MulMonotone(k, 7, stride);
  }

  method SumRow(f: Kind, s: seq<nat>, row: nat, lut: BitCountLut) returns (t0: nat, t1: nat, t2: nat, t3: nat)
    requires row + Bpp(f) <= |s|
    requires forall b | b in s :: b < 256
    requires lut.Valid()
    ensures t0 == RowSum(f, s, row, Bpp(f), 0) && t1 == RowSum(f, s, row, Bpp(f), 1)
    ensures t2 == RowSum(f, s, row, Bpp(f), 2) && t3 == RowSum(f, s, row, Bpp(f), 3)
  {
    t0, t1, t2, t3 := 0, 0, 0, 0;
    for current := 0 to Bpp(f)
      invariant t0 == RowSum(f, s, row, current, 0) && t1 == RowSum(f, s, row, current, 1)
      invariant t2 == RowSum(f, s, row, current, 2) && t3 == RowSum(f, s, row, current, 3)
    {
      var v := s[row + current];
      assert v in s;
      if f.Bw1? {
        var n := lut.Lookup(v);
        t0 := t0 + n;
      } else {
        t0 := t0 + Contribution(f, current, v, 0);
        t1 := t1 + Contribution(f, current, v, 1);
        t2 := t2 + Contribution(f, current, v, 2);
        t3 := t3 + Contribution(f, current, v, 3);
      }
    }
  }

  // ------------------------------------------------------------------
  // The contributions are the samples

  /** Samples per byte. */
  function PerByte(f: Kind): (n: nat)
    ensures n > 0 && n * Bps(f) == 8 && Bpp(f) * n == 8 * Channels(f)
  {
    match f
    case Bw1 => 8
    case Cmyk16 => 2
    case Cmyk8 => 4
    case Cmyk4 => 8
    case _ => 1
  }

  function Packing(f: Kind): (p: Format)
    ensures p.Valid() && p.SamplesPerBase() == PerByte(f)
  {
    Format(8, Bps(f))
  }

  predicate Bytes(s: seq<nat>) { forall i | 0 <= i < |s| :: s[i] < 256 }

  /** The samples of one byte, from its highest bits. */
  function SamplesOfByte(f: Kind, b: nat): (w: seq<nat>)
    ensures |w| == PerByte(f)
  {
    seq(PerByte(f), r requires 0 <= r < PerByte(f) => SampleOf(Packing(f), b, PerByte(f) - 1 - r))
  }

  /** The samples of the bytes of 8 pixels. */
  function RowSamples(f: Kind, s: seq<nat>, at: nat): (v: seq<nat>)
    ensures |v| == 8 * Channels(f)
  {
    seq(8 * Channels(f), m requires 0 <= m => Part(Packing(f), PerByte(f), s, at + m / PerByte(f), m % PerByte(f)))
  }

  /** The sum of the first `n` samples that belong to channel `ch`; the first one is sample `m` of its row. */
  function ChannelSum(v: seq<nat>, m: nat, n: nat, channels: nat, ch: nat): nat
    requires n <= |v| && channels > 0
  {
    if n == 0 then 0
    else ChannelSum(v, m, n - 1, channels, ch) + (if (m + n - 1) % channels == ch then v[n - 1] else 0)
  }

  lemma {:induction false} ChannelSumSplit(v: seq<nat>, w: seq<nat>, m: nat, r: nat, channels: nat, ch: nat)
    requires channels > 0 && r <= |w| && m + |w| <= |v| && v[m..m + |w|] == w
    ensures ChannelSum(v, 0, m + r, channels, ch) ==
            ChannelSum(v, 0, m, channels, ch) + ChannelSum(w, m, r, channels, ch)
  {
    if r > 0 {
      ChannelSumSplit(v, w, m, r - 1, channels, ch);
      assert v[m + r - 1] == v[m..m + |w|][r - 1] == w[r - 1];
    }
  }

  lemma Masks()
    ensures Mask(1) == 1 && Mask(2) == 3 && Mask(4) == 15 && Mask(8) == 255
  {
    Powers();
    MaskBits(1, 0);
    MaskBits(2, 0);
    MaskBits(4, 0);
    MaskBits(8, 0);
  }

  lemma Powers()
    ensures Pow(2, 1) == 2 && Pow(2, 2) == 4 && Pow(2, 4) == 16 && Pow(2, 6) == 64 && Pow(2, 8) == 256
  {
    assert Pow(2, 2) == 4;
    assert Pow(2, 4) == 16;
    assert Pow(2, 6) == 64;
    assert Pow(2, 8) == 256;
  }

  /** Masking in place and then shifting is the same field. */
  lemma MaskThenShift(v: nat, m: nat, k: nat, b: nat)
    requires b > 0 && m == Shl(Mask(b), k)
    ensures Shr(And(v, m), k) == Field(v, k, b)
  {
    forall i: nat ensures Bit(Shr(And(v, m), k), i) == Bit(Field(v, k, b), i) {
      BitShr(And(v, m), k, i);
      BitAnd(v, m, i + k);
      BitShl(Mask(b), k, i + k);
      MaskBits(b, i);
      FieldBit(v, k, b, i);
    }
    SameBits(Shr(And(v, m), k), Field(v, k, b));
  }

  /** The lowest `n` bits, highest first. */
  function BitsFrom(v: nat, n: nat): nat {
    if n == 0 then 0 else And(Shr(v, n - 1), 1) + BitsFrom(v, n - 1)
  }

  lemma {:induction false} BitsFromHalf(v: nat, n: nat)
    requires n > 0
    ensures BitsFrom(v, n) == And(v, 1) + BitsFrom(v / 2, n - 1)
  {
    if n > 1 { BitsFromHalf(v, n - 1); }
  }

  lemma {:induction false} PopCountBits(v: nat, n: nat)
    requires v < Pow(2, n)
    ensures PopCount(v) == BitsFrom(v, n)
  {
    if n > 0 {
      BitsFromHalf(v, n);
      PopCountBits(v / 2, n - 1);
      if v == 0 { assert And(v, 1) == 0; }
    }
  }

  /** Sample `r` of a byte is a field of its bits. */
  lemma SampleField(f: Kind, b: nat, r: nat, k: nat)
    requires r < PerByte(f) && k == (PerByte(f) - 1 - r) * Bps(f)
    ensures SamplesOfByte(f, b)[r] == Field(b, k, Bps(f))
  {
    assert SamplesOfByte(f, b)[r] == SampleOf(Packing(f), b, PerByte(f) - 1 - r);
  }

  lemma WholeField(b: nat)
    requires b < 256
    ensures Field(b, 0, 8) == b
  {
    Masks();
    WithinMask(8, b, 0);
  }

  lemma Whole(f: Kind, b: nat)
    requires PerByte(f) == 1 && b < 256
    ensures SamplesOfByte(f, b) == [b]
  {
    WholeField(b);
    SampleField(f, b, 0, 0);
  }

  lemma NibbleFields(b: nat)
    requires b < 256
    ensures Field(b, 4, 4) == Shr(b, 4) && Field(b, 0, 4) == And(b, 15)
  {
    Masks();
    LowField(b, 4, 15);
    FitsMask(b);
    TopField(b, 4, 4);
  }

  lemma Nibbles(b: nat)
    requires b < 256
    ensures SamplesOfByte(Cmyk16, b) == [Shr(b, 4), And(b, 15)]
  {
    SampleField(Cmyk16, b, 0, 4);
    SampleField(Cmyk16, b, 1, 0);
    NibbleFields(b);
  }

  lemma LowField(b: nat, w: nat, m: nat)
    requires w > 0 && m == Mask(w)
    ensures Field(b, 0, w) == And(b, m)
  {}

  lemma OuterPairs(b: nat)
    requires b < 256
    ensures Field(b, 6, 2) == Shr(b, 6) && Field(b, 0, 2) == And(b, 0x03)
  {
    Masks();
    LowField(b, 2, 3);
    FitsMask(b);
    TopField(b, 6, 2);
  }

  lemma FitsMask(b: nat)
    requires b < 256
    ensures b <= Mask(8)
  {
    Masks();
  }

  lemma InnerPair(b: nat, k: nat, m: nat)
    requires m == Shl(3, k)
    ensures Field(b, k, 2) == Shr(And(b, m), k)
  {
    Masks();
    MaskThenShift(b, m, k, 2);
  }

  lemma PairMasks()
    ensures Shl(3, 2) == 0x0C && Shl(3, 4) == 0x30
  {
    assert Shl(3, 2) == 0x0C;
  }

  lemma Pairs(b: nat)
    requires b < 256
    ensures SamplesOfByte(Cmyk8, b) == [Shr(b, 6), Shr(And(b, 0x30), 4), Shr(And(b, 0x0C), 2), And(b, 0x03)]
  {
    SampleField(Cmyk8, b, 0, 6);
    SampleField(Cmyk8, b, 1, 4);
    SampleField(Cmyk8, b, 2, 2);
    SampleField(Cmyk8, b, 3, 0);
    OuterPairs(b);
    PairMasks();
    InnerPair(b, 4, 0x30);
    InnerPair(b, 2, 0x0C);
  }

  lemma Single(b: nat, k: nat)
    ensures Field(b, k, 1) == And(Shr(b, k), 1)
  {
    Masks();
  }

  lemma Singles(f: Kind, b: nat, r: nat)
    requires PerByte(f) == 8 && r < 8
    ensures SamplesOfByte(f, b)[r] == And(Shr(b, 7 - r), 1)
  {
    SampleField(f, b, r, 7 - r);
    Single(b, 7 - r);
  }

  lemma TwoSamples(w: seq<nat>, m: nat, channels: nat, ch: nat)
    requires channels > 0 && |w| >= 2
    ensures ChannelSum(w, m, 1, channels, ch) == if m % channels == ch then w[0] else 0
    ensures ChannelSum(w, m, 2, channels, ch) ==
            (if m % channels == ch then w[0] else 0) + (if (m + 1) % channels == ch then w[1] else 0)
  {
    assert ChannelSum(w, m, 1, channels, ch) == if m % channels == ch then w[0] else 0;
  }

  lemma NibbleSums(c: nat, b: nat, w: seq<nat>, m: nat, ch: nat)
    requires ch < 4 && m == 2 * c && w == [Shr(b, 4), And(b, 15)]
    ensures ChannelSum(w, m, 2, 4, ch) == Contribution(Cmyk16, c, b, ch)
  {
    TwoSamples(w, m, 4, ch);
    if c % 2 == 0 { assert m == 4 * (c / 2); } else { assert m == 4 * (c / 2) + 2; }
  }

  lemma {:induction false} FourAligned(w: seq<nat>, m: nat, ch: nat, r: nat)
    requires ch < 4 && r <= |w| <= 8 && m % 4 == 0
    ensures ChannelSum(w, m, r, 4, ch) == (if r > ch then w[ch] else 0) + (if r > ch + 4 then w[ch + 4] else 0)
  {
    if r > 0 {
      FourAligned(w, m, ch, r - 1);
      AddMultiple(m, r - 1, 4);
    }
  }

  lemma AddMultiple(m: nat, r: nat, k: nat)
    requires k > 0 && m % k == 0
    ensures (m + r) % k == r % k
  {
    assert m + r == (m / k + r / k) * k + r % k;
    DivModUnique(m + r, k, m / k + r / k, r % k);
  }

  lemma {:induction false} OneChannel(w: seq<nat>, b: nat, m: nat, r: nat)
    requires |w| == 8 && r <= 8 && forall i | 0 <= i < 8 :: w[i] == And(Shr(b, 7 - i), 1)
    ensures ChannelSum(w, m, r, 1, 0) + BitsFrom(b, 8 - r) == BitsFrom(b, 8)
  {
    if r > 0 { OneChannel(w, b, m, r - 1); }
  }

  lemma OnesOfByte(b: nat, m: nat)
    requires b < 256
    ensures ChannelSum(SamplesOfByte(Bw1, b), m, 8, 1, 0) == PopCount(b)
  {
    forall r | 0 <= r < 8 ensures SamplesOfByte(Bw1, b)[r] == And(Shr(b, 7 - r), 1) { Singles(Bw1, b, r); }
    OneChannel(SamplesOfByte(Bw1, b), b, m, 8);
    Powers();
    PopCountBits(b, 8);
  }

  lemma Cmyk4OfByte(c: nat, b: nat, m: nat, ch: nat)
    requires ch < 4 && m == c * 8
    ensures ChannelSum(SamplesOfByte(Cmyk4, b), m, 8, 4, ch) == Contribution(Cmyk4, c, b, ch)
  {
    Singles(Cmyk4, b, ch);
    Singles(Cmyk4, b, ch + 4);
    MultipleOfFour(c);
    Cmyk4Sum(SamplesOfByte(Cmyk4, b), c, b, m, ch);
  }

  lemma MultipleOfFour(c: nat)
    ensures c * 8 % 4 == 0
  {}

  lemma Cmyk4Sum(w: seq<nat>, c: nat, b: nat, m: nat, ch: nat)
    requires ch < 4 && m % 4 == 0 && |w| == 8 && w[ch] == And(Shr(b, 7 - ch), 1) && w[ch + 4] == And(Shr(b, 3 - ch), 1)
    ensures ChannelSum(w, m, 8, 4, ch) == Contribution(Cmyk4, c, b, ch)
  {
    FourAligned(w, m, ch, 8);
  }

  lemma Cmyk8OfByte(c: nat, b: nat, m: nat, ch: nat)
    requires b < 256 && ch < 4 && m == c * 4
    ensures ChannelSum(SamplesOfByte(Cmyk8, b), m, 4, 4, ch) == Contribution(Cmyk8, c, b, ch)
  {
    Pairs(b);
    FourAligned(SamplesOfByte(Cmyk8, b), m, ch, 4);
  }

  lemma WholeOfByte(f: Kind, c: nat, b: nat, ch: nat)
    requires (f.Grey8? || f.Rgb24? || f.Cmyk32?) && b < 256 && ch < Channels(f)
    ensures ChannelSum(SamplesOfByte(f, b), c, 1, Channels(f), ch) == Contribution(f, c, b, ch)
  {
    Whole(f, b);
    OneSample(b, c, Channels(f), ch);
  }

  lemma OneSample(b: nat, m: nat, channels: nat, ch: nat)
    requires channels > 0
    ensures ChannelSum([b], m, 1, channels, ch) == if m % channels == ch then b else 0
  {
    assert ChannelSum([b], m, 0, channels, ch) == 0;
  }

  /** Every byte contributes its samples, channel by channel. */
  lemma ContributionIsSamples(f: Kind, c: nat, b: nat, m: nat, ch: nat)
    requires b < 256 && ch < Channels(f) && m == c * PerByte(f)
    ensures ChannelSum(SamplesOfByte(f, b), m, PerByte(f), Channels(f), ch) == Contribution(f, c, b, ch)
  {
    match f {
      case Bw1 => OnesOfByte(b, m);
      case Cmyk16 => Nibbles(b); NibbleSums(c, b, SamplesOfByte(f, b), m, ch);
      case Cmyk8 => Cmyk8OfByte(c, b, m, ch);
      case Cmyk4 => Cmyk4OfByte(c, b, m, ch);
      case _ => WholeOfByte(f, c, b, ch);
    }
  }

  lemma PartInside(f: Kind, s: seq<nat>, q: nat, r: nat)
    requires r < PerByte(f) && q < |s|
    ensures Part(Packing(f), PerByte(f), s, q, r) == SamplesOfByte(f, s[q])[r]
  {}

  lemma PartOutside(f: Kind, s: seq<nat>, q: nat, r: nat)
    requires r < PerByte(f) && q >= |s|
    ensures Part(Packing(f), PerByte(f), s, q, r) == SamplesOfByte(f, 0)[r]
  {
    EmptyElement(Packing(f), PerByte(f) - 1 - r);
  }

  lemma RowSampleIs(f: Kind, s: seq<nat>, at: nat, m: nat, q: nat, r: nat)
    requires m < 8 * Channels(f) && q == at + m / PerByte(f) && r == m % PerByte(f)
    ensures RowSamples(f, s, at)[m] == Part(Packing(f), PerByte(f), s, q, r)
  {}

  lemma ByteInRowAt(f: Kind, s: seq<nat>, at: nat, c: nat, m: nat, r: nat)
    requires m == c * PerByte(f) && r < PerByte(f) && m + r < 8 * Channels(f)
    ensures RowSamples(f, s, at)[m + r] == SamplesOfByte(f, ByteAt(s, at + c))[r]
  {
    RowSampleAt(f, s, at, c, m, r, PerByte(f));
    PartIsSample(f, s, at + c, r);
  }

  lemma RowSampleAt(f: Kind, s: seq<nat>, at: nat, c: nat, m: nat, r: nat, spb: nat)
    requires spb == PerByte(f) && m == c * spb && r < spb && m + r < 8 * Channels(f)
    ensures RowSamples(f, s, at)[m + r] == Part(Packing(f), spb, s, at + c, r)
  {
    DivModUnique(m + r, spb, c, r);
    RowSampleIs(f, s, at, m + r, at + c, r);
  }

  lemma PartIsSample(f: Kind, s: seq<nat>, q: nat, r: nat)
    requires r < PerByte(f)
    ensures Part(Packing(f), PerByte(f), s, q, r) == SamplesOfByte(f, ByteAt(s, q))[r]
  {
    if q < |s| { PartInside(f, s, q, r); } else { PartOutside(f, s, q, r); }
  }

  lemma ByteInRow(f: Kind, s: seq<nat>, at: nat, c: nat, m: nat)
    requires m == c * PerByte(f) && c < Bpp(f)
    ensures m + PerByte(f) <= 8 * Channels(f)
    ensures RowSamples(f, s, at)[m..m + PerByte(f)] == SamplesOfByte(f, ByteAt(s, at + c))
  {
    MulMonotone(c + 1, Bpp(f), PerByte(f));
    Distribute(c, 1, PerByte(f));
    var v, w := RowSamples(f, s, at)[m..m + PerByte(f)], SamplesOfByte(f, ByteAt(s, at + c));
    forall r | 0 <= r < PerByte(f) ensures v[r] == w[r] {
      ByteInRowAt(f, s, at, c, m, r);
    }
  }

  lemma RowStep(f: Kind, s: seq<nat>, at: nat, c: nat, m: nat, ch: nat)
    requires Bytes(s) && ch < Channels(f) && c < Bpp(f) && m == c * PerByte(f)
    ensures m + PerByte(f) <= 8 * Channels(f)
    ensures ChannelSum(RowSamples(f, s, at), 0, m + PerByte(f), Channels(f), ch)
      == ChannelSum(RowSamples(f, s, at), 0, m, Channels(f), ch) + Contribution(f, c, ByteAt(s, at + c), ch)
  {
    ByteInRow(f, s, at, c, m);
    ChannelSumSplit(RowSamples(f, s, at), SamplesOfByte(f, ByteAt(s, at + c)), m, PerByte(f), Channels(f), ch);
    ContributionIsSamples(f, c, ByteAt(s, at + c), m, ch);
  }

  /** The contributions of `n` bytes are the samples in them. */
  lemma {:induction false} RowIsChannelSum(f: Kind, s: seq<nat>, at: nat, n: nat, m: nat, ch: nat)
    requires Bytes(s) && ch < Channels(f) && n <= Bpp(f) && m == n * PerByte(f)
    ensures m <= 8 * Channels(f) && RowSum(f, s, at, n, ch) == ChannelSum(RowSamples(f, s, at), 0, m, Channels(f), ch)
  {
    if n == 0 {
      assert m == 0;
    } else {
      TimesPredecessor(n, PerByte(f));
      var p: nat := (n - 1) * PerByte(f);
      RowIsChannelSum(f, s, at, n - 1, p, ch);
      RowExtended(f, s, at, n, p, ch);
    }
  }

  lemma RowExtended(f: Kind, s: seq<nat>, at: nat, n: nat, p: nat, ch: nat)
    requires Bytes(s) && ch < Channels(f) && 0 < n <= Bpp(f) && p == (n - 1) * PerByte(f) && p <= 8 * Channels(f)
    requires RowSum(f, s, at, n - 1, ch) == ChannelSum(RowSamples(f, s, at), 0, p, Channels(f), ch)
    ensures p + PerByte(f) <= 8 * Channels(f)
    ensures RowSum(f, s, at, n, ch) == ChannelSum(RowSamples(f, s, at), 0, p + PerByte(f), Channels(f), ch)
  {
    RowStep(f, s, at, n - 1, p, ch);
    RowSumStep(f, s, at, n, ch);
  }

  lemma RowSumStep(f: Kind, s: seq<nat>, at: nat, n: nat, ch: nat)
    requires n > 0
    ensures RowSum(f, s, at, n, ch) == RowSum(f, s, at, n - 1, ch) + Contribution(f, n - 1, ByteAt(s, at + n - 1), ch)
  {}

  // ------------------------------------------------------------------
  // The average of 8x8 pixels

  /** The samples of a tile, in the order in which the iterator visits its buffer. */
  function TileSamples(f: Kind, s: seq<nat>): seq<nat> {
    Samples(Packing(f), s)
  }

  /** Sample `ch` of pixel (X, Y). */
  function PixelSample(flat: seq<nat>, width: nat, channels: nat, X: nat, Y: nat, ch: nat): nat {
    ByteAt(flat, (Y * width + X) * channels + ch)
  }

  function PixelRow(flat: seq<nat>, width: nat, channels: nat, X: nat, Y: nat, n: nat, ch: nat): nat {
    if n == 0 then 0
    else PixelRow(flat, width, channels, X, Y, n - 1, ch) + PixelSample(flat, width, channels, X + n - 1, Y, ch)
  }

  /** The sum over `k` rows of 8 pixels. */
  function PixelBlock(flat: seq<nat>, width: nat, channels: nat, X: nat, Y: nat, k: nat, ch: nat): nat {
    if k == 0 then 0
    else PixelBlock(flat, width, channels, X, Y, k - 1, ch) + PixelRow(flat, width, channels, X, Y + k - 1, 8, ch)
  }

  /** The largest sample of a format. */
  function MaxSample(f: Kind): (n: nat)
    ensures n > 0
  {
    match f
    case Bw1 => 1
    case Cmyk16 => 15
    case Cmyk8 => 3
    case Cmyk4 => 1
    case _ => 255
  }

  /** The mean of the samples of 8x8 pixels, on the scale from 0 to 255, rounded down. */
  function Mean(sum: nat, max: nat): nat
    requires max > 0
  {
    QuotientNat(255 * sum, 64 * max);
    255 * sum / (64 * max)
  }

  function Average(f: Kind, s: seq<nat>, width: nat, X: nat, Y: nat, ch: nat): nat {
    Mean(PixelBlock(TileSamples(f, s), width, Channels(f), X, Y, 8, ch), MaxSample(f))
  }

  /** Scaling the sum is the same for every format: 255 / (64 * largest sample). */
  lemma ScaledIsMean(f: Kind, sum: nat)
    ensures Scaled(f, sum) == Mean(sum, MaxSample(f))
  {
    DivModUnique(255 * sum, 255 * 64, sum / 64, 255 * (sum % 64));
  }

  /** `v` is 255 / (64 * max) of the sum of 64 samples, rounded down: black is 0 and white is 255 in every format. */
  predicate IsScaledSum(v: int, sum: int, max: int) {
    64 * max * v <= 255 * sum < 64 * max * (v + 1)
  }

  lemma ScaledBounds(f: Kind, sum: nat)
    ensures IsScaledSum(Scaled(f, sum), sum, MaxSample(f))
  {}

  /** From the darkest to the brightest block each format uses the whole scale. */
  lemma ScaledRange(f: Kind, sum: nat)
    ensures Scaled(f, 0) == 0 && Scaled(f, 64 * MaxSample(f)) == 255
    ensures sum <= 64 * MaxSample(f) ==> Scaled(f, sum) <= 255
    ensures sum < 64 * MaxSample(f) ==> Scaled(f, sum) < 255
  {
    ScaledBounds(f, sum);
  }

  /** The samples of a tile as an image. */
  function TileImage(f: Kind, s: seq<nat>, width: nat): Image {
    (x, y, ch) =>
      if x >= 0 && y >= 0 && ch >= 0 then PixelSample(TileSamples(f, s), width, Channels(f), x, y, ch) else 0
  }

  lemma {:induction false} RowIsTotal(f: Kind, s: seq<nat>, width: nat, X: nat, Y: nat, n: nat, ch: nat)
    ensures PixelRow(TileSamples(f, s), width, Channels(f), X, Y, n, ch) ==
            RowTotal(TileImage(f, s, width), ch, Y, X, X + n)
  {
    if n > 0 {
      RowIsTotal(f, s, width, X, Y, n - 1, ch);
      assert TileImage(f, s, width)(X + n - 1, Y, ch) ==
             PixelSample(TileSamples(f, s), width, Channels(f), X + n - 1, Y, ch);
    }
  }

  /** The sum over the rows is the sum over the square of the image. */
  lemma {:induction false} BlockIsTotal(f: Kind, s: seq<nat>, width: nat, X: nat, Y: nat, k: nat, ch: nat)
    ensures PixelBlock(TileSamples(f, s), width, Channels(f), X, Y, k, ch)
         == RectTotal(TileImage(f, s, width), ch, X, X + 8, Y, Y + k)
  {
    if k > 0 {
      BlockIsTotal(f, s, width, X, Y, k - 1, ch);
      RowIsTotal(f, s, width, X, Y + k - 1, 8, ch);
    }
  }

  /** What an average is of its 8x8 pixels. */
  lemma AverageBounds(f: Kind, s: seq<nat>, width: nat, X: nat, Y: nat, ch: nat)
    ensures IsScaledSum(Average(f, s, width, X, Y, ch),
                        RectTotal(TileImage(f, s, width), ch, X, X + 8, Y, Y + 8), MaxSample(f))
  {
    BlockIsTotal(f, s, width, X, Y, 8, ch);
    var sum := PixelBlock(TileSamples(f, s), width, Channels(f), X, Y, 8, ch);
    ScaledIsMean(f, sum);
    ScaledBounds(f, sum);
  }

  predicate AllAtMost(flat: seq<nat>, max: nat) { forall i | 0 <= i < |flat| :: flat[i] <= max }

  lemma LargestMask(f: Kind)
    ensures Mask(Bps(f)) == MaxSample(f)
  {
    Masks();
  }

  lemma SamplesInRange(f: Kind, s: seq<nat>)
    ensures AllAtMost(TileSamples(f, s), MaxSample(f))
  {
    LargestMask(f);
    var flat := TileSamples(f, s);
    forall i | 0 <= i < |flat| ensures flat[i] <= MaxSample(f) {
      SampleFits(Packing(f), s, i);
    }
  }

  lemma {:induction false} RowInRange(flat: seq<nat>, max: nat, width: nat, channels: nat, X: nat, Y: nat, n: nat,
                                      ch: nat)
    requires AllAtMost(flat, max)
    ensures PixelRow(flat, width, channels, X, Y, n, ch) <= n * max
  {
    if n > 0 {
      RowInRange(flat, max, width, channels, X, Y, n - 1, ch);
      TimesPredecessor(n, max);
    }
  }

  lemma {:induction false} BlockInRange(flat: seq<nat>, max: nat, width: nat, channels: nat, X: nat, Y: nat, k: nat,
                                        ch: nat)
    requires AllAtMost(flat, max)
    ensures PixelBlock(flat, width, channels, X, Y, k, ch) <= k * (8 * max)
  {
    if k > 0 {
      BlockInRange(flat, max, width, channels, X, Y, k - 1, ch);
      RowInRange(flat, max, width, channels, X, Y + k - 1, 8, ch);
      TimesPredecessor(k, 8 * max);
    }
  }

  /** Every stored value fits its byte. */
  lemma AverageIsByte(f: Kind, s: seq<nat>, width: nat, X: nat, Y: nat, ch: nat)
    ensures Average(f, s, width, X, Y, ch) <= 255
  {
    SamplesInRange(f, s);
    BlockInRange(TileSamples(f, s), MaxSample(f), width, Channels(f), X, Y, 8, ch);
    AtMost(PixelBlock(TileSamples(f, s), width, Channels(f), X, Y, 8, ch), 64 * MaxSample(f));
  }

  lemma AtMost(a: nat, d: nat)
    requires d > 0 && a <= d
    ensures 255 * a / d <= 255
  {
    assert 255 * a / d * d <= 255 * a;
    if 255 * a / d > 255 { MulMonotone(256, 255 * a / d, d); }
  }

  // ------------------------------------------------------------------
  // The contributions of the bytes are the samples of the pixels

  lemma {:induction false} EveryChannel(v: seq<nat>, l: nat, r: nat, channels: nat, ch: nat, base: nat)
    requires channels > 0 && ch < channels && r <= channels && base == l * channels && base + r <= |v|
    ensures ChannelSum(v, 0, base + r, channels, ch) ==
            ChannelSum(v, 0, base, channels, ch) + if r > ch then v[base + ch] else 0
  {
    if r > 0 {
      EveryChannel(v, l, r - 1, channels, ch, base);
      DivModUnique(base + (r - 1), channels, l, r - 1);
    }
  }

  /** `v` holds the samples of the tile from `first` on. */
  ghost predicate HoldsFrom(flat: seq<nat>, v: seq<nat>, first: nat) {
    forall i: nat | i < |v| :: v[i] == ByteAt(flat, first + i)
  }

  lemma PixelPlace(flat: seq<nat>, width: nat, channels: nat, X: nat, Y: nat, l: nat, first: nat, base: nat, ch: nat)
    requires first == (Y * width + X) * channels && base == l * channels
    ensures ByteAt(flat, first + (base + ch)) == PixelSample(flat, width, channels, X + l, Y, ch)
  {
    Distribute(Y * width + X, l, channels);
    assert first + (base + ch) == (Y * width + (X + l)) * channels + ch;
  }

  lemma ChannelStep(flat: seq<nat>, v: seq<nat>, channels: nat, l: nat, base: nat, first: nat, ch: nat)
    requires ch < channels && base == l * channels && base + channels <= |v| && HoldsFrom(flat, v, first)
    ensures ChannelSum(v, 0, base + channels, channels, ch)
      == ChannelSum(v, 0, base, channels, ch) + ByteAt(flat, first + (base + ch))
  {
    EveryChannel(v, l, channels, channels, ch, base);
    assert v[base + ch] == ByteAt(flat, first + (base + ch));
  }

  /** The samples of one channel in a row are those of its pixels. */
  lemma {:induction false} ChannelIsPixels(flat: seq<nat>, v: seq<nat>, width: nat, channels: nat, X: nat, Y: nat,
                                           l: nat, base: nat,
                                           first: nat, ch: nat)
    requires ch < channels && base == l * channels && base <= |v|
    requires first == (Y * width + X) * channels && HoldsFrom(flat, v, first)
    ensures ChannelSum(v, 0, base, channels, ch) == PixelRow(flat, width, channels, X, Y, l, ch)
  {
    if l > 0 {
      var p := base - channels;
      TimesPredecessor(l, channels);
      ChannelIsPixels(flat, v, width, channels, X, Y, l - 1, p, first, ch);
      ChannelStep(flat, v, channels, l - 1, p, first, ch);
      PixelPlace(flat, width, channels, X, Y, l - 1, first, p, ch);
    }
  }

  /** One sample of a tile by its byte and its place in the byte. */
  lemma FlatSample(f: Kind, s: seq<nat>, n: nat, q: nat, r: nat)
    requires q == n / PerByte(f) && r == n % PerByte(f)
    ensures ByteAt(TileSamples(f, s), n) == Part(Packing(f), PerByte(f), s, q, r)
  {
    InBuffer(n, |s|, PerByte(f));
  }

  /** Sample `m` from byte `at` is sample `at * PerByte + m` of the tile. */
  lemma RowIsFlat(f: Kind, s: seq<nat>, at: nat, first: nat, m: nat)
    requires first == at * PerByte(f) && m < 8 * Channels(f)
    ensures RowSamples(f, s, at)[m] == ByteAt(TileSamples(f, s), first + m)
  {
    var q, r := at + m / PerByte(f), m % PerByte(f);
    PlaceOf(at, m, PerByte(f));
    RowSampleIs(f, s, at, m, q, r);
    FlatSample(f, s, first + m, q, r);
  }

  lemma RowHolds(f: Kind, s: seq<nat>, at: nat, first: nat)
    requires first == at * PerByte(f)
    ensures HoldsFrom(TileSamples(f, s), RowSamples(f, s, at), first)
  {
    var v := RowSamples(f, s, at);
    forall m: nat | m < |v| ensures v[m] == ByteAt(TileSamples(f, s), first + m) {
      RowIsFlat(f, s, at, first, m);
    }
  }

  /** The bytes of 8 pixels begin at the first sample of the first pixel. */
  lemma FirstSample(f: Kind, w8: nat, i: nat, Y: nat, at: nat)
    requires at == Y * (Bpp(f) * w8) + i * Bpp(f)
    ensures at * PerByte(f) == (Y * (8 * w8) + 8 * i) * Channels(f)
  {
    var u := Y * w8 + i;
    Regroup(Y, w8, Bpp(f), i);
    assert at == u * Bpp(f);
    Associate(u, Bpp(f), PerByte(f));
    Associate(u, 8, Channels(f));
    assert Y * (8 * w8) == 8 * (Y * w8);
  }

  lemma Regroup(a: nat, b: nat, c: nat, d: nat)
    ensures a * (c * b) + d * c == (a * b + d) * c
  {}

  lemma RowOfPixels(f: Kind, s: seq<nat>, w8: nat, i: nat, Y: nat, at: nat, ch: nat)
    requires Bytes(s) && ch < Channels(f) && at == Y * (Bpp(f) * w8) + i * Bpp(f)
    ensures RowSum(f, s, at, Bpp(f), ch) == PixelRow(TileSamples(f, s), 8 * w8, Channels(f), 8 * i, Y, 8, ch)
  {
    FirstSample(f, w8, i, Y, at);
    RowFrom(f, s, 8 * w8, 8 * i, Y, at, at * PerByte(f), ch);
  }

  lemma RowFrom(f: Kind, s: seq<nat>, width: nat, X: nat, Y: nat, at: nat, first: nat, ch: nat)
    requires Bytes(s) && ch < Channels(f) && first == at * PerByte(f) && first == (Y * width + X) * Channels(f)
    ensures RowSum(f, s, at, Bpp(f), ch) == PixelRow(TileSamples(f, s), width, Channels(f), X, Y, 8, ch)
  {
    RowHolds(f, s, at, first);
    RowIsChannelSum(f, s, at, Bpp(f), 8 * Channels(f), ch);
    ChannelIsPixels(TileSamples(f, s), RowSamples(f, s, at), width, Channels(f), X, Y, 8, 8 * Channels(f), first, ch);
  }

  /** The sum over the rows of bytes is the sum over the pixels. */
  lemma {:induction false} BlockOfPixels(f: Kind, s: seq<nat>, w8: nat, i: nat, Y: nat, at: nat, k: nat, ch: nat)
    requires Bytes(s) && ch < Channels(f) && at == Y * (Bpp(f) * w8) + i * Bpp(f)
    ensures BlockSum(f, s, at, Bpp(f) * w8, k, ch) ==
            PixelBlock(TileSamples(f, s), 8 * w8, Channels(f), 8 * i, Y, k, ch)
  {
    if k > 0 {
      BlockOfPixels(f, s, w8, i, Y, at, k - 1, ch);
      NextRow(f, s, w8, i, Y, at, k - 1, ch);
    }
  }

  lemma NextRow(f: Kind, s: seq<nat>, w8: nat, i: nat, Y: nat, at: nat, k: nat, ch: nat)
    requires Bytes(s) && ch < Channels(f) && at == Y * (Bpp(f) * w8) + i * Bpp(f)
    ensures RowSum(f, s, at + k * (Bpp(f) * w8), Bpp(f), ch) ==
            PixelRow(TileSamples(f, s), 8 * w8, Channels(f), 8 * i, Y + k, 8, ch)
  {
    var stride := Bpp(f) * w8;
    NextRowAt(Y, k, stride, i * Bpp(f), at);
    RowOfPixels(f, s, w8, i, Y + k, at + k * stride, ch);
  }

  lemma NextRowAt(Y: nat, k: nat, stride: nat, column: nat, at: nat)
    requires at == Y * stride + column
    ensures at + k * stride == (Y + k) * stride + column && k * stride >= 0
  {
    Distribute(Y, k, stride);
  }

  /** What the operations store is the average. */
  lemma ScaledBlockIsAverage(f: Kind, s: seq<nat>, w8: nat, i: nat, Y: nat, at: nat, ch: nat)
    requires Bytes(s) && ch < Channels(f) && at == Y * (Bpp(f) * w8) + i * Bpp(f)
    ensures Scaled(f, BlockSum(f, s, at, Bpp(f) * w8, 8, ch)) == Average(f, s, 8 * w8, 8 * i, Y, ch) <= 255
  {
    BlockOfPixels(f, s, w8, i, Y, at, 8, ch);
    ScaledIsMean(f, PixelBlock(TileSamples(f, s), 8 * w8, Channels(f), 8 * i, Y, 8, ch));
    AverageIsByte(f, s, 8 * w8, 8 * i, Y, ch);
  }

  // ------------------------------------------------------------------
  // Places in the target buffer

  /** Pixels per row and samples per pixel of the target; the place begins at pixel (x0, y0) and is w8 by h8 pixels. */
  datatype Place = Place(width: nat, channels: nat, x0: nat, y0: nat, w8: nat, h8: nat) {
    predicate Valid() { width > 0 && channels > 0 && x0 + w8 <= width }
  }

  function PlaceAt(width: nat, height: nat, channels: nat, x: nat, y: nat): Place {
    Place(width, channels, x * (width / 8), y * (height / 8), width / 8, height / 8)
  }

  function Col(g: Place, p: nat): nat
    requires g.Valid()
  {
    p / g.channels % g.width
  }

  function Row(g: Place, p: nat): nat
    requires g.Valid()
  {
    p / g.channels / g.width
  }

  function Chan(g: Place, p: nat): nat
    requires g.Valid()
  {
    p % g.channels
  }

  function Index(g: Place, col: nat, row: nat, ch: nat): nat {
    (row * g.width + col) * g.channels + ch
  }

  lemma IndexParts(g: Place, col: nat, row: nat, ch: nat)
    requires g.Valid() && col < g.width && ch < g.channels
    ensures Col(g, Index(g, col, row, ch)) == col && Row(g, Index(g, col, row, ch)) == row
    ensures Chan(g, Index(g, col, row, ch)) == ch
  {
    DivModUnique(Index(g, col, row, ch), g.channels, row * g.width + col, ch);
    DivModUnique(row * g.width + col, g.width, row, col);
  }

  lemma PartsIndex(g: Place, p: nat)
    requires g.Valid()
    ensures p == Index(g, Col(g, p), Row(g, p), Chan(g, p)) && Col(g, p) < g.width && Chan(g, p) < g.channels
  {
    assert p == p / g.channels * g.channels + p % g.channels;
    var q := p / g.channels;
    assert q == q / g.width * g.width + q % g.width;
  }

  /** Byte `p` of the target lies in the place. */
  predicate InPlace(g: Place, p: nat)
    requires g.Valid()
  {
    g.x0 <= Col(g, p) < g.x0 + g.w8 && g.y0 <= Row(g, p) < g.y0 + g.h8
  }

  /** It is stored before row `j`, pixel `i`, channel `ch` of the place. */
  predicate Before(g: Place, p: nat, j: nat, i: nat, ch: nat)
    requires g.Valid()
  {
    InPlace(g, p) &&
    (Row(g, p) < g.y0 + j
     || (Row(g, p) == g.y0 + j && (Col(g, p) < g.x0 + i || (Col(g, p) == g.x0 + i && Chan(g, p) < ch))))
  }

  /** The place is filled from `vals` up to a point, and nothing else has changed. */
  ghost predicate Progress(g: Place, vals: seq<nat>, was: seq<nat>, now: seq<nat>, j: nat, i: nat, ch: nat)
    requires g.Valid()
  {
    |now| == |was| == |vals| &&
    forall p: nat | p < |was| :: now[p] == if Before(g, p, j, i, ch) then vals[p] else was[p]
  }

  lemma StoreOne(g: Place, vals: seq<nat>, was: seq<nat>, now: seq<nat>, j: nat, i: nat, ch: nat, q: nat)
    requires g.Valid() && i < g.w8 && j < g.h8 && ch < g.channels && Progress(g, vals, was, now, j, i, ch)
    requires q == Index(g, g.x0 + i, g.y0 + j, ch) && q < |now|
    ensures Progress(g, vals, was, now[q := vals[q]], j, i, ch + 1)
  {
    IndexParts(g, g.x0 + i, g.y0 + j, ch);
    forall p: nat | p < |was|
      ensures now[q := vals[q]][p] == if Before(g, p, j, i, ch + 1) then vals[p] else was[p]
    {
      PartsIndex(g, p);
      BeforeNext(g, p, q, j, i, ch);
    }
  }

  /** One more byte is stored: the one at (i, j, ch). */
  lemma BeforeNext(g: Place, p: nat, q: nat, j: nat, i: nat, ch: nat)
    requires g.Valid() && i < g.w8 && j < g.h8
    requires Col(g, q) == g.x0 + i && Row(g, q) == g.y0 + j && Chan(g, q) == ch
    ensures Before(g, p, j, i, ch + 1) <==> Before(g, p, j, i, ch) || p == q
    ensures !Before(g, q, j, i, ch)
  {
    PartsIndex(g, p);
    PartsIndex(g, q);
  }

  lemma NextPixel(g: Place, vals: seq<nat>, was: seq<nat>, now: seq<nat>, j: nat, i: nat)
    requires g.Valid() && Progress(g, vals, was, now, j, i, g.channels)
    ensures Progress(g, vals, was, now, j, i + 1, 0)
  {
    forall p: nat | p < |was| ensures Before(g, p, j, i, g.channels) == Before(g, p, j, i + 1, 0) {
      PartsIndex(g, p);
    }
  }

  lemma NextLine(g: Place, vals: seq<nat>, was: seq<nat>, now: seq<nat>, j: nat)
    requires g.Valid() && Progress(g, vals, was, now, j, g.w8, 0)
    ensures Progress(g, vals, was, now, j + 1, 0, 0)
  {
    forall p: nat | p < |was| ensures Before(g, p, j, g.w8, 0) == Before(g, p, j + 1, 0, 0) {
    }
  }

  lemma AllStored(g: Place, vals: seq<nat>, was: seq<nat>, now: seq<nat>)
    requires g.Valid() && Progress(g, vals, was, now, g.h8, 0, 0)
    ensures |now| == |was| == |vals|
    ensures forall p: nat | p < |was| :: now[p] == if InPlace(g, p) then vals[p] else was[p]
  {
    forall p: nat | p < |was| ensures Before(g, p, g.h8, 0, 0) == InPlace(g, p) {}
  }

  // ------------------------------------------------------------------
  // The operation

  lemma Eighth(a: nat)
    ensures 8 * a / 8 == a
  {}

  lemma Mul3(a: nat, b: nat, c: nat)
    ensures 8 * a * b * c == 8 * (a * b * c)
  {
    Associate(8, a, b);
    Associate(8, a * b, c);
  }

  /** Both strides, for widths that are multiples of 8. */
  lemma Strides(f: Kind, width: nat, w8: nat)
    requires width == 8 * w8
    ensures SourceStride(f, width) == Bpp(f) * w8 && TargetStride(f, width) == width * Channels(f)
  {}

  /** All formats begin at the same pixel, although they compute it differently. */
  lemma TargetBaseIs(f: Kind, width: nat, height: nat, w8: nat, h8: nat, x: nat, y: nat)
    requires width == 8 * w8 && height == 8 * h8
    ensures TargetBase(f, width, height, x, y) == (y * h8 * width + x * w8) * Channels(f)
  {
    match f {
      case Bw1 => GreyBase(f, width, height, w8, h8, x, y);
      case Grey8 => GreyBase(f, width, height, w8, h8, x, y);
      case Rgb24 => RgbBase(width, height, w8, h8, x, y);
      case _ => CmykBase(f, width, height, w8, h8, x, y);
    }
  }

  lemma GreyBase(f: Kind, width: nat, height: nat, w8: nat, h8: nat, x: nat, y: nat)
    requires width == 8 * w8 && height == 8 * h8 && Channels(f) == 1
    ensures TargetBase(f, width, height, x, y) == y * h8 * width + x * w8
  {
    SeparateOffsets(h8, y, x, w8, width, 1);
  }

  lemma RgbBase(width: nat, height: nat, w8: nat, h8: nat, x: nat, y: nat)
    requires width == 8 * w8 && height == 8 * h8
    ensures TargetBase(Rgb24, width, height, x, y) == (y * h8 * width + x * w8) * 3
  {
    SeparateOffsets(h8, y, x, w8, width, 3);
  }

  lemma CmykBase(f: Kind, width: nat, height: nat, w8: nat, h8: nat, x: nat, y: nat)
    requires width == 8 * w8 && height == 8 * h8 && Channels(f) == 4
    ensures TargetBase(f, width, height, x, y) == (y * h8 * width + x * w8) * 4
  {
    CmykOffset(h8, y, x, w8, width);
    assert TargetStride(f, width) == width * 4;
  }

  lemma SeparateOffsets(h8: nat, y: nat, x: nat, w8: nat, width: nat, c: nat)
    requires width == 8 * w8
    ensures 8 * h8 * y * (c * width) / 8 == y * h8 * width * c && c * width * x / 8 == x * w8 * c
  {
    Mul3(h8, y, c * width);
    Eighth(h8 * y * (c * width));
    RowOffset(h8, y, width, c);
    PixelOffset(w8, x, c);
  }

  lemma RowOffset(h8: nat, y: nat, width: nat, c: nat)
    ensures h8 * y * (c * width) == y * h8 * width * c
  {
    Associate(y * h8, width, c);
  }

  lemma PixelOffset(w8: nat, x: nat, c: nat)
    ensures 8 * w8 * c * x / 8 == x * w8 * c
  {
    assert 8 * w8 * c * x == 8 * (x * w8 * c) by {
      Associate(8 * w8, c, x);
      Associate(8, w8, c * x);
      Associate(w8, x, c);
    }
    Eighth(x * w8 * c);
  }

  lemma CmykOffset(h8: nat, y: nat, x: nat, w8: nat, width: nat)
    requires width == 8 * w8
    ensures (8 * h8 * y + x) * (width * 4) / 8 == y * h8 * width * 4 + x * w8 * 4
  {
    var a := 8 * h8 * y;
    assert a == 8 * (y * h8);
    Distribute(a, x, width * 4);
    assert a * (width * 4) == 8 * (y * h8 * width * 4) by {
      Associate(8, y * h8, width * 4);
      Associate(y * h8, width, 4);
    }
    assert x * (width * 4) == 8 * (x * w8 * 4);
    Eighth(y * h8 * width * 4 + x * w8 * 4);
  }

  lemma IndexInTarget(g: Place, height: nat, col: nat, row: nat, ch: nat)
    requires col < g.width && row < height && ch < g.channels
    ensures Index(g, col, row, ch) < height * (g.width * g.channels)
  {
    var q := row * g.width + col;
    MulMonotone(row + 1, height, g.width);
    Distribute(row, 1, g.width);
    MulMonotone(q + 1, height * g.width, g.channels);
    Distribute(q, 1, g.channels);
    Associate(height, g.width, g.channels);
  }

  lemma BlockInSource(bpp: nat, w8: nat, h8: nat, i: nat, j: nat)
    requires i < w8 && j < h8
    ensures 8 * j * (bpp * w8) + i * bpp + 7 * (bpp * w8) + bpp <= 8 * h8 * (bpp * w8)
  {
    var s := bpp * w8;
    MulMonotone(i + 1, w8, bpp);
    Distribute(i, 1, bpp);
    MulMonotone(8 * j + 8, 8 * h8, s);
    Distribute(8 * j, 8, s);
  }

  /** The value that byte `p` of the place gets. */
  function Reduced(f: Kind, g: Place, source: seq<nat>, p: nat): nat
    requires g.Valid() && InPlace(g, p)
  {
    Average(f, source, 8 * g.w8, 8 * (Col(g, p) - g.x0), 8 * (Row(g, p) - g.y0), Chan(g, p))
  }

  /** Byte `v` of the place is the scaled sum of the 8x8 source pixels under it. */
  predicate ShowsSquare(f: Kind, g: Place, source: seq<nat>, p: nat, v: nat)
    requires g.Valid() && InPlace(g, p)
  {
    var X, Y := 8 * (Col(g, p) - g.x0), 8 * (Row(g, p) - g.y0);
    IsScaledSum(v, RectTotal(TileImage(f, source, 8 * g.w8), Chan(g, p), X, X + 8, Y, Y + 8), MaxSample(f))
  }

  lemma ReducedShows(f: Kind, g: Place, source: seq<nat>, p: nat)
    requires g.Valid() && InPlace(g, p)
    ensures ShowsSquare(f, g, source, p, Reduced(f, g, source, p))
  {
    AverageBounds(f, source, 8 * g.w8, 8 * (Col(g, p) - g.x0), 8 * (Row(g, p) - g.y0), Chan(g, p));
  }

  ghost predicate Averages(f: Kind, g: Place, source: seq<nat>, vals: seq<nat>)
    requires g.Valid()
  {
    forall p: nat | p < |vals| && InPlace(g, p) :: vals[p] == Reduced(f, g, source, p)
  }

  /** Stores the channels of one pixel. */
  method StorePixel(f: Kind, target: array<nat>, targetPtr: nat, sums: seq<nat>,
                    ghost g: Place, ghost vals: seq<nat>, ghost was: seq<nat>, ghost j: nat, ghost i: nat)
    requires g.Valid() && g.channels == Channels(f) && i < g.w8 && j < g.h8 && |sums| == 4
    requires targetPtr == Index(g, g.x0 + i, g.y0 + j, 0) && targetPtr + Channels(f) <= target.Length == |vals|
    requires forall ch: nat | ch < Channels(f) :: Scaled(f, sums[ch]) == vals[targetPtr + ch]
    requires Progress(g, vals, was, target[..], j, i, 0)
    modifies target
    ensures Progress(g, vals, was, target[..], j, i + 1, 0)
  {
    for ch := 0 to Channels(f)
      invariant Progress(g, vals, was, target[..], j, i, ch)
    {
      ghost var now := target[..];
      StoreOne(g, vals, was, now, j, i, ch, targetPtr + ch);
      target[targetPtr + ch] := Scaled(f, sums[ch]);
      assert target[..] == now[targetPtr + ch := vals[targetPtr + ch]];
    }
    NextPixel(g, vals, was, target[..], j, i);
  }

  /** Reduces 8 source rows into one row of the place. */
  method ReduceLine(f: Kind, target: array<nat>, source: seq<nat>, sourceBase: nat, targetBase: nat,
                    sourceStride: nat, w8: nat,
                    lut: BitCountLut, ghost g: Place, ghost height: nat, ghost vals: seq<nat>, ghost was: seq<nat>,
                    ghost j: nat)
    requires Bytes(source) && g.Valid() && g.channels == Channels(f) && g.w8 == w8 && j < g.h8 && g.y0 + g.h8 <= height
    requires sourceStride == Bpp(f) * w8 && |source| == 8 * g.h8 * sourceStride
    requires target.Length == height * (g.width * g.channels)
    requires sourceBase == 8 * j * sourceStride && targetBase == Index(g, g.x0, g.y0 + j, 0)
    requires lut.Valid() && target != lut.lut && Averages(f, g, source, vals)
    requires Progress(g, vals, was, target[..], j, 0, 0)
    modifies target
    ensures Progress(g, vals, was, target[..], j + 1, 0, 0)
  {
    var sourcePtr, targetPtr := sourceBase, targetBase;
    for i := 0 to w8
      invariant sourcePtr == sourceBase + i * Bpp(f) && targetPtr == targetBase + i * Channels(f)
      invariant Progress(g, vals, was, target[..], j, i, 0)
    {
      BlockInSource(Bpp(f), w8, g.h8, i, j);
      var sums := SumBlock(f, source, sourcePtr, sourceStride, lut);
      PixelStored(f, g, source, height, w8, i, j, sourcePtr, targetPtr, sums, vals);
      StorePixel(f, target, targetPtr, sums, g, vals, was, j, i);
      Distribute(i, 1, Bpp(f));
      Distribute(i, 1, Channels(f));
      sourcePtr, targetPtr := sourcePtr + Bpp(f), targetPtr + Channels(f);
    }
    NextLine(g, vals, was, target[..], j);
  }

  /**
   * Reduces `source` into place (x, y) of `target`: each byte of the place
   * becomes the average of its 8x8 source pixels, all others keep their value.
   */
  method ReduceTile(f: Kind, target: array<nat>, source: seq<nat>, width: nat, height: nat, x: nat, y: nat,
                    lut: BitCountLut)
    requires 0 < width && width % 8 == 0 && height % 8 == 0 && x < 8 && y < 8 && lut.Valid() && target != lut.lut
    requires Bytes(source) && |source| == height * SourceStride(f, width)
    requires target.Length == height * TargetStride(f, width)
    modifies target
    ensures PlaceAt(width, height, Channels(f), x, y).Valid()
    ensures forall p: nat | p < target.Length ::
      target[p] == if InPlace(PlaceAt(width, height, Channels(f), x, y), p)
                   then Reduced(f, PlaceAt(width, height, Channels(f), x, y), source, p)
                   else old(target[p])
    ensures forall p: nat | p < target.Length && InPlace(PlaceAt(width, height, Channels(f), x, y), p) ::
      ShowsSquare(f, PlaceAt(width, height, Channels(f), x, y), source, p, target[p])
  {
    PlaceIsValid(width, height, Channels(f), x, y);
    ghost var g := PlaceAt(width, height, Channels(f), x, y);
    ghost var was := target[..];
    ghost var vals: seq<nat> := seq(|was|, p requires p >= 0 => if InPlace(g, p) then Reduced(f, g, source, p) else 0);
    var w8, h8 := width / 8, height / 8;
    Strides(f, width, w8);
    TargetBaseIs(f, width, height, w8, h8, x, y);
    var sourceStride, targetStride := SourceStride(f, width), TargetStride(f, width);
    var sourceBase: nat, targetBase := 0, TargetBase(f, width, height, x, y);
    for j := 0 to h8
      invariant sourceBase == 8 * j * sourceStride && targetBase == Index(g, g.x0, g.y0 + j, 0)
      invariant Progress(g, vals, was, target[..], j, 0, 0)
    {
      ReduceLine(f, target, source, sourceBase, targetBase, sourceStride, w8, lut, g, height, vals, was, j);
      Distribute(8 * j, 8, sourceStride);
      NextBase(g, g.x0, g.y0 + j);
      sourceBase, targetBase := sourceBase + sourceStride * 8, targetBase + targetStride;
    }
    AllStored(g, vals, was, target[..]);
    forall p: nat | p < target.Length && InPlace(g, p) ensures ShowsSquare(f, g, source, p, target[p]) {
      ReducedShows(f, g, source, p);
    }
  }

  lemma PlaceIsValid(width: nat, height: nat, channels: nat, x: nat, y: nat)
    requires 0 < width && 0 < channels && width % 8 == 0 && height % 8 == 0 && x < 8 && y < 8
    ensures PlaceAt(width, height, channels, x, y).Valid() && y * (height / 8) + height / 8 <= height
  {
    MulMonotone(x, 7, width / 8);
    MulMonotone(y, 7, height / 8);
  }

  lemma NextBase(g: Place, col: nat, row: nat)
    ensures Index(g, col, row + 1, 0) == Index(g, col, row, 0) + g.width * g.channels
  {
    Distribute(row, 1, g.width);
    Distribute(row * g.width + col, g.width, g.channels);
  }

  /** The pointers of one step of the loops are the right ones. */
  lemma PixelStored(f: Kind, g: Place, source: seq<nat>, height: nat, w8: nat, i: nat, j: nat, sourcePtr: nat,
                    targetPtr: nat,
                    sums: seq<nat>, vals: seq<nat>)
    requires Bytes(source) && g.Valid() && g.channels == Channels(f) && g.w8 == w8 && i < w8 && j < g.h8
    requires g.y0 + g.h8 <= height
    requires sourcePtr == 8 * j * (Bpp(f) * w8) + i * Bpp(f)
    requires targetPtr == Index(g, g.x0, g.y0 + j, 0) + i * Channels(f)
    requires |sums| == 4 && forall ch | 0 <= ch < 4 :: sums[ch] == BlockSum(f, source, sourcePtr, Bpp(f) * w8, 8, ch)
    requires |vals| == height * (g.width * g.channels) && Averages(f, g, source, vals)
    ensures targetPtr == Index(g, g.x0 + i, g.y0 + j, 0) && targetPtr + Channels(f) <= |vals|
    ensures forall ch: nat | ch < Channels(f) :: Scaled(f, sums[ch]) == vals[targetPtr + ch]
  {
    PointerStored(g, height, i, j, targetPtr);
    forall ch: nat | ch < Channels(f) ensures Scaled(f, sums[ch]) == vals[targetPtr + ch] {
      ScaledBlockIsAverage(f, source, w8, i, 8 * j, sourcePtr, ch);
      ValueStored(f, g, source, vals, i, j, ch, targetPtr + ch);
    }
  }

  lemma PointerStored(g: Place, height: nat, i: nat, j: nat, targetPtr: nat)
    requires g.Valid() && i < g.w8 && j < g.h8 && g.y0 + g.h8 <= height
    requires targetPtr == Index(g, g.x0, g.y0 + j, 0) + i * g.channels
    ensures targetPtr == Index(g, g.x0 + i, g.y0 + j, 0) && targetPtr + g.channels <= height * (g.width * g.channels)
  {
    MovedIndex(g, g.x0, g.y0 + j, i);
    IndexInTarget(g, height, g.x0 + i, g.y0 + j, g.channels - 1);
  }

  lemma MovedIndex(g: Place, col: nat, row: nat, i: nat)
    ensures Index(g, col + i, row, 0) == Index(g, col, row, 0) + i * g.channels
  {
    Distribute(row * g.width + col, i, g.channels);
  }

  lemma ValueStored(f: Kind, g: Place, source: seq<nat>, vals: seq<nat>, i: nat, j: nat, ch: nat, p: nat)
    requires g.Valid() && i < g.w8 && j < g.h8 && ch < g.channels && p == Index(g, g.x0 + i, g.y0 + j, ch) < |vals|
    requires Averages(f, g, source, vals)
    ensures vals[p] == Average(f, source, 8 * g.w8, 8 * i, 8 * j, ch)
  {
    IndexParts(g, g.x0 + i, g.y0 + j, ch);
    assert InPlace(g, p);
  }

  // ------------------------------------------------------------------
  // The 64 places

  /** Every pixel of the target lies in exactly one of the 64 places. */
  lemma OnePlace(width: nat, height: nat, channels: nat, p: nat, x: nat, y: nat)
    requires 0 < width && 0 < height && 0 < channels && width % 8 == 0 && height % 8 == 0 && x < 8 && y < 8
    requires p < height * (width * channels)
    ensures PlaceAt(width, height, channels, x, y).Valid() && PlaceAt(width, height, channels, 0, 0).Valid()
    ensures var g := PlaceAt(width, height, channels, 0, 0);
      && Col(g, p) / (width / 8) < 8 && Row(g, p) / (height / 8) < 8
      && (InPlace(PlaceAt(width, height, channels, x, y), p) <==>
          x == Col(g, p) / (width / 8) && y == Row(g, p) / (height / 8))
  {
    PlaceIsValid(width, height, channels, x, y);
    PlaceIsValid(width, height, channels, 0, 0);
    var g := PlaceAt(width, height, channels, 0, 0);
    PartsIndex(g, p);
    RowInTarget(g, height, p);
    Slot(Col(g, p), width / 8, x);
    Slot(Row(g, p), height / 8, y);
  }

  lemma RowInTarget(g: Place, height: nat, p: nat)
    requires g.Valid() && p < height * (g.width * g.channels)
    ensures Row(g, p) < height
  {
    Associate(height, g.width, g.channels);
    InBuffer(p, height * g.width, g.channels);
    InBuffer(p / g.channels, height, g.width);
  }

  lemma Slot(a: nat, d: nat, x: nat)
    requires d > 0 && a < 8 * d
    ensures a / d < 8
    ensures x * d <= a < x * d + d <==> x == a / d
  {
    InBuffer(a, 8, d);
    if x * d <= a < x * d + d { DivModUnique(a, d, x, a - x * d); }
    assert a == a / d * d + a % d;
  }
}
