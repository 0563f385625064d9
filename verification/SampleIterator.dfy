/**
 * Iterating over the samples packed into larger elements, the first sample of
 * an element in its highest bits.
 */
module SampleIterators {

  import opened Arith
  import opened Bits

  /** Bits per element and bits per sample. */
  datatype Format = Format(bitsPerBase: nat, bps: nat) {
    predicate Valid() { 0 < bps <= bitsPerBase }

    function SamplesPerBase(): (n: nat)
      requires Valid()
      ensures 0 < n && n * bps <= bitsPerBase
    {
      QuotientBounds(bitsPerBase, bps);
      bitsPerBase / bps
    }
  }

  lemma QuotientBounds(a: nat, b: nat)
    requires 0 < b <= a
    ensures 0 < a / b && a / b * b <= a
  {}

  // ------------------------------------------------------------------
  // Fields of `b` bits above bit `k`

  function Field(x: nat, k: nat, b: nat): nat
    requires b > 0
  {
    And(Shr(x, k), Mask(b))
  }

  function Put(x: nat, k: nat, b: nat, v: nat, w: nat): nat
    requires b > 0 && w > 0
  {
    And(Or(AndNot(x, Shl(Mask(b), k)), Shl(v, k)), Mask(w))
  }

  lemma FieldBit(x: nat, k: nat, b: nat, i: nat)
    requires b > 0
    ensures Bit(Field(x, k, b), i) == (i < b && Bit(x, i + k))
  {
    BitAnd(Shr(x, k), Mask(b), i);
    BitShr(x, k, i);
    MaskBits(b, i);
  }

  lemma PutBit(x: nat, k: nat, b: nat, v: nat, w: nat, j: nat)
    requires b > 0 && w > 0
    ensures Bit(Put(x, k, b, v, w), j) == (j < w && ((Bit(x, j) && !(k <= j < k + b)) || (j >= k && Bit(v, j - k))))
  {
    BitAnd(Or(AndNot(x, Shl(Mask(b), k)), Shl(v, k)), Mask(w), j);
    MaskBits(w, j);
    ClearedBit(x, k, b, v, j);
  }

  lemma ClearedBit(x: nat, k: nat, b: nat, v: nat, j: nat)
    requires b > 0
    ensures Bit(Or(AndNot(x, Shl(Mask(b), k)), Shl(v, k)), j) ==
            ((Bit(x, j) && !(k <= j < k + b)) || (j >= k && Bit(v, j - k)))
  {
    BitOr(AndNot(x, Shl(Mask(b), k)), Shl(v, k), j);
    BitAndNot(x, Shl(Mask(b), k), j);
    BitShl(Mask(b), k, j);
    BitShl(v, k, j);
    if j >= k { MaskBits(b, j - k); }
  }

  /** `y` is `x` with `v` put into the field, cut to `w` bits. */
  ghost predicate IsPut(y: nat, x: nat, k: nat, b: nat, v: nat, w: nat) {
    forall j: nat :: Bit(y, j) == (j < w && ((Bit(x, j) && !(k <= j < k + b)) || (j >= k && Bit(v, j - k))))
  }

  lemma PutIsPut(x: nat, k: nat, b: nat, v: nat, w: nat)
    requires b > 0 && w > 0
    ensures IsPut(Put(x, k, b, v, w), x, k, b, v, w)
  {
    forall j: nat
      ensures Bit(Put(x, k, b, v, w), j) == (j < w && ((Bit(x, j) && !(k <= j < k + b)) || (j >= k && Bit(v, j - k))))
    {
      PutBit(x, k, b, v, w, j);
    }
  }

  lemma PutSame(y: nat, x: nat, k: nat, b: nat, v: nat, w: nat)
    requires b > 0 && k + b <= w && IsPut(y, x, k, b, v, w)
    ensures Field(y, k, b) == And(v, Mask(b))
  {
    forall i: nat ensures Bit(Field(y, k, b), i) == Bit(And(v, Mask(b)), i) {
      FieldBit(y, k, b, i);
      BitAnd(v, Mask(b), i);
      MaskBits(b, i);
      assert Bit(y, i + k) == (i + k < w && ((Bit(x, i + k) && !(i < b)) || Bit(v, i)));
    }
    SameBits(Field(y, k, b), And(v, Mask(b)));
  }

  lemma PutBelow(y: nat, x: nat, k: nat, b: nat, v: nat, w: nat, l: nat)
    requires b > 0 && k + b <= w && l + b <= k && IsPut(y, x, k, b, v, w)
    ensures Field(y, l, b) == Field(x, l, b)
  {
    forall i: nat ensures Bit(Field(y, l, b), i) == Bit(Field(x, l, b), i) {
      FieldBit(y, l, b, i);
      FieldBit(x, l, b, i);
    }
    SameBits(Field(y, l, b), Field(x, l, b));
  }

  lemma PutAbove(y: nat, x: nat, k: nat, b: nat, v: nat, w: nat, l: nat)
    requires b > 0 && k + b <= l && l + b <= w && IsPut(y, x, k, b, v, w)
    ensures Field(y, l, b) == Or(Field(x, l, b), Field(v, l - k, b))
  {
    forall i: nat ensures Bit(Field(y, l, b), i) == Bit(Or(Field(x, l, b), Field(v, l - k, b)), i) {
      FieldBit(y, l, b, i);
      FieldBit(x, l, b, i);
      FieldBit(v, l - k, b, i);
      BitOr(Field(x, l, b), Field(v, l - k, b), i);
      assert Bit(y, i + l) == (i + l < w && (Bit(x, i + l) || Bit(v, i + l - k)));
    }
    SameBits(Field(y, l, b), Or(Field(x, l, b), Field(v, l - k, b)));
  }

  lemma PutField(x: nat, k: nat, b: nat, v: nat, w: nat, l: nat)
    requires b > 0 && k + b <= w && l + b <= w && (l == k || l + b <= k || k + b <= l)
    ensures Field(Put(x, k, b, v, w), l, b) ==
      if l == k then And(v, Mask(b)) else if l < k then Field(x, l, b) else Or(Field(x, l, b), Field(v, l - k, b))
  {
    var y := Put(x, k, b, v, w);
    PutIsPut(x, k, b, v, w);
    if l == k {
      PutSame(y, x, k, b, v, w);
    } else if l < k {
      PutBelow(y, x, k, b, v, w, l);
    } else {
      PutAbove(y, x, k, b, v, w, l);
    }
  }

  lemma WithinMask(b: nat, v: nat, i: nat)
    requires b > 0 && v <= Mask(b)
    ensures And(v, Mask(b)) == v
    ensures i >= b ==> !Bit(v, i)
  {
    MaskBits(b, i);
    AndMask(v, b);
    SmallMod(v, Pow(2, b));
    BitAnd(v, Mask(b), i);
  }

  lemma SmallMod(a: nat, b: nat)
    requires a < b
    ensures a % b == a
  {}

  /** The highest field needs no mask. */
  lemma TopField(v: nat, k: nat, b: nat)
    requires b > 0 && v <= Mask(k + b)
    ensures Shr(v, k) == Field(v, k, b)
  {
    forall i: nat ensures Bit(Shr(v, k), i) == Bit(Field(v, k, b), i) {
      BitShr(v, k, i);
      FieldBit(v, k, b, i);
      WithinMask(k + b, v, i + k);
    }
    SameBits(Shr(v, k), Field(v, k, b));
  }

  lemma FieldInRange(x: nat, k: nat, b: nat)
    requires b > 0
    ensures Field(x, k, b) <= Mask(b)
  {
    AndMask(Shr(x, k), b);
    MaskBits(b, 0);
  }

  /** A value within the mask has nothing above its own field. */
  lemma NothingAbove(v: nat, k: nat, b: nat)
    requires b > 0 && b <= k && v <= Mask(b)
    ensures Field(v, k, b) == 0
  {
    forall i: nat ensures Bit(Field(v, k, b), i) == Bit(0, i) {
      FieldBit(v, k, b, i);
      WithinMask(b, v, i + k);
      BitOfZero(i);
    }
    SameBits(Field(v, k, b), 0);
  }

  // ------------------------------------------------------------------
  // Samples of one element

  /** The sample number `offset` counted from the lowest bits. */
  function SampleOf(f: Format, x: nat, offset: nat): nat
    requires f.Valid()
  {
    Field(x, offset * f.bps, f.bps)
  }

  /** The element after `set(value)`, cut to the width of its type. */
  function Stored(f: Format, x: nat, offset: nat, value: nat): nat
    requires f.Valid()
  {
    Put(x, offset * f.bps, f.bps, value, f.bitsPerBase)
  }

  /** `(o + 1) * b <= w`, and fields of different samples do not overlap. */
  lemma FieldPlace(f: Format, o: nat, p: nat)
    requires f.Valid() && o < f.SamplesPerBase() && p < f.SamplesPerBase()
    ensures p * f.bps + f.bps <= f.bitsPerBase
    ensures p < o ==> p * f.bps + f.bps <= o * f.bps
    ensures p > o ==> o * f.bps + f.bps <= p * f.bps && (p - o) * f.bps == p * f.bps - o * f.bps
  {
    MulMonotone(p + 1, f.SamplesPerBase(), f.bps);
    assert (p + 1) * f.bps == p * f.bps + f.bps;
    assert (o + 1) * f.bps == o * f.bps + f.bps;
    assert (p - o) * f.bps == p * f.bps - o * f.bps;
    if p < o { MulMonotone(p + 1, o, f.bps); }
    if p > o { MulMonotone(o + 1, p, f.bps); }
  }

  /**
   * What `set` does to each sample of the element, for any value: bits outside the
   * mask end up in the samples before it.
   */
  lemma SetAny(f: Format, x: nat, o: nat, value: nat, p: nat)
    requires f.Valid() && o < f.SamplesPerBase() && p < f.SamplesPerBase()
    ensures SampleOf(f, Stored(f, x, o, value), p) ==
      if p == o then And(value, Mask(f.bps))
      else if p < o then SampleOf(f, x, p)
      else Or(SampleOf(f, x, p), SampleOf(f, value, p - o))
  {
    FieldPlace(f, o, p);
    FieldPlace(f, p, o);
    if p == o {
      SampleItself(f, x, o, value, o * f.bps);
    } else if p < o {
      SampleBelow(f, x, o, value, p, o * f.bps, p * f.bps);
    } else {
      SampleAbove(f, x, o, value, p, o * f.bps, p * f.bps);
    }
  }

  lemma SampleItself(f: Format, x: nat, o: nat, value: nat, k: nat)
    requires f.Valid() && k == o * f.bps && k + f.bps <= f.bitsPerBase
    ensures SampleOf(f, Stored(f, x, o, value), o) == And(value, Mask(f.bps))
  {
    StoredIs(f, x, o, value, k);
    SampleIs(f, Stored(f, x, o, value), o, k);
    PutField(x, k, f.bps, value, f.bitsPerBase, k);
  }

  lemma SampleBelow(f: Format, x: nat, o: nat, value: nat, p: nat, k: nat, l: nat)
    requires f.Valid() && k == o * f.bps && l == p * f.bps && k + f.bps <= f.bitsPerBase && l + f.bps <= k
    ensures SampleOf(f, Stored(f, x, o, value), p) == SampleOf(f, x, p)
  {
    StoredIs(f, x, o, value, k);
    SampleIs(f, Stored(f, x, o, value), p, l);
    SampleIs(f, x, p, l);
    PutField(x, k, f.bps, value, f.bitsPerBase, l);
  }

  lemma SampleAbove(f: Format, x: nat, o: nat, value: nat, p: nat, k: nat, l: nat)
    requires f.Valid() && k == o * f.bps && l == p * f.bps && l + f.bps <= f.bitsPerBase && k + f.bps <= l
    requires p > o && (p - o) * f.bps == l - k
    ensures SampleOf(f, Stored(f, x, o, value), p) == Or(SampleOf(f, x, p), SampleOf(f, value, p - o))
  {
    StoredIs(f, x, o, value, k);
    SampleIs(f, Stored(f, x, o, value), p, l);
    SampleIs(f, x, p, l);
    SampleIs(f, value, p - o, l - k);
    PutField(x, k, f.bps, value, f.bitsPerBase, l);
  }

  lemma SampleIs(f: Format, x: nat, o: nat, k: nat)
    requires f.Valid() && k == o * f.bps
    ensures SampleOf(f, x, o) == Field(x, k, f.bps)
  {}

  lemma StoredIs(f: Format, x: nat, o: nat, value: nat, k: nat)
    requires f.Valid() && k == o * f.bps
    ensures Stored(f, x, o, value) == Put(x, k, f.bps, value, f.bitsPerBase)
  {}

  /** A value within the mask changes its own sample only. */
  lemma SetWithinMask(f: Format, x: nat, o: nat, value: nat, p: nat)
    requires f.Valid() && o < f.SamplesPerBase() && p < f.SamplesPerBase() && value <= Mask(f.bps)
    ensures SampleOf(f, Stored(f, x, o, value), p) == if p == o then value else SampleOf(f, x, p)
  {
    SetAny(f, x, o, value, p);
    WithinMask(f.bps, value, 0);
    if p > o {
      NoSampleAbove(f, value, p - o);
      OrZero(SampleOf(f, x, p));
    }
  }

  lemma NoSampleAbove(f: Format, value: nat, q: nat)
    requires f.Valid() && value <= Mask(f.bps) && q > 0
    ensures SampleOf(f, value, q) == 0
  {
    MulMonotone(1, q, f.bps);
    NothingAbove(value, q * f.bps, f.bps);
  }

  /** Setting `value` at `o` never changes another sample. */
  ghost predicate LeavesOthers(f: Format, o: nat, value: nat)
    requires f.Valid() && o < f.SamplesPerBase()
  {
    forall x: nat, p: nat | p < f.SamplesPerBase() && p != o ::
      SampleOf(f, Stored(f, x, o, value), p) == SampleOf(f, x, p)
  }

  /** The other samples are safe exactly when the bits outside the mask do not reach a sample before this one. */
  lemma SafeIff(f: Format, o: nat, value: nat)
    requires f.Valid() && o < f.SamplesPerBase()
    ensures LeavesOthers(f, o, value) <==>
            forall q: nat | 0 < q && o + q < f.SamplesPerBase() :: SampleOf(f, value, q) == 0
  {
    if LeavesOthers(f, o, value) {
      forall q: nat | 0 < q && o + q < f.SamplesPerBase() ensures SampleOf(f, value, q) == 0 {
        NoneReached(f, o, value, q);
      }
    }
    if forall q: nat | 0 < q && o + q < f.SamplesPerBase() :: SampleOf(f, value, q) == 0 {
      forall x: nat, p: nat | p < f.SamplesPerBase() && p != o
        ensures SampleOf(f, Stored(f, x, o, value), p) == SampleOf(f, x, p)
      {
        OtherLeft(f, x, o, value, p);
      }
    }
  }

  lemma NoneReached(f: Format, o: nat, value: nat, q: nat)
    requires f.Valid() && 0 < q && o + q < f.SamplesPerBase() && LeavesOthers(f, o, value)
    ensures SampleOf(f, value, q) == 0
  {
    var p, y := o + q, SampleOf(f, value, q);
    SetAny(f, 0, o, value, p);
    EmptyElement(f, p);
    ZeroOr(y);
    assert SampleOf(f, Stored(f, 0, o, value), p) == SampleOf(f, 0, p);
  }

  lemma ZeroOr(y: nat)
    ensures Or(0, y) == y
  {}

  lemma OtherLeft(f: Format, x: nat, o: nat, value: nat, p: nat)
    requires f.Valid() && o < f.SamplesPerBase() && p < f.SamplesPerBase() && p != o
    requires p > o ==> SampleOf(f, value, p - o) == 0
    ensures SampleOf(f, Stored(f, x, o, value), p) == SampleOf(f, x, p)
  {
    SetAny(f, x, o, value, p);
    OrZero(SampleOf(f, x, p));
  }

  lemma EmptyElement(f: Format, p: nat)
    requires f.Valid()
    ensures SampleOf(f, 0, p) == 0
  {
    forall i: nat ensures Bit(SampleOf(f, 0, p), i) == Bit(0, i) {
      FieldBit(0, p * f.bps, f.bps, i);
      BitOfZero(i);
      BitOfZero(i + p * f.bps);
    }
    SameBits(SampleOf(f, 0, p), 0);
  }

  // ------------------------------------------------------------------
  // The samples of a buffer as one sequence

  /** Sample `r` of element `q`, counted from the highest bits; 0 outside the buffer. */
  function Part(f: Format, spb: nat, buf: seq<nat>, q: nat, r: nat): nat
    requires f.Valid()
  {
    if q < |buf| && r < spb then SampleOf(f, buf[q], spb - 1 - r) else 0
  }

  function SampleAt(f: Format, buf: seq<nat>, n: nat): nat
    requires f.Valid()
  {
    Part(f, f.SamplesPerBase(), buf, n / f.SamplesPerBase(), n % f.SamplesPerBase())
  }

  lemma InBuffer(n: nat, len: nat, s: nat)
    requires s > 0
    ensures n < len * s <==> n / s < len
  {
    assert n == n / s * s + n % s;
    if n / s < len { MulMonotone(n / s + 1, len, s); assert (n / s + 1) * s == n / s * s + s; }
    if n / s >= len { MulMonotone(len, n / s, s); }
  }

  function Samples(f: Format, buf: seq<nat>): (s: seq<nat>)
    requires f.Valid()
    ensures |s| == |buf| * f.SamplesPerBase()
  {
    seq(|buf| * f.SamplesPerBase(), n requires n >= 0 => SampleAt(f, buf, n))
  }

  /** Element `e` is `x` with `value` as its sample `o`. */
  predicate Sets(f: Format, x: nat, e: nat, o: nat, value: nat)
    requires f.Valid()
  {
    forall p: nat | p < f.SamplesPerBase() :: SampleOf(f, e, p) == if p == o then value else SampleOf(f, x, p)
  }

  lemma StoredSets(f: Format, x: nat, o: nat, value: nat)
    requires f.Valid() && o < f.SamplesPerBase() && value <= Mask(f.bps)
    ensures Sets(f, x, Stored(f, x, o, value), o, value)
  {
    forall p: nat | p < f.SamplesPerBase()
      ensures SampleOf(f, Stored(f, x, o, value), p) == if p == o then value else SampleOf(f, x, p)
    {
      SetWithinMask(f, x, o, value, p);
    }
  }

  /** On the flat sequence, `set` is an update at the position of the iterator. */
  lemma SetUpdatesOne(f: Format, buf: seq<nat>, n: nat, q: nat, o: nat, value: nat)
    requires f.Valid() && q < |buf| && o < f.SamplesPerBase() && value <= Mask(f.bps)
    requires n / f.SamplesPerBase() == q && n % f.SamplesPerBase() == f.SamplesPerBase() - 1 - o
    ensures n < |buf| * f.SamplesPerBase()
    ensures Samples(f, buf[q := Stored(f, buf[q], o, value)]) == Samples(f, buf)[n := value]
  {
    InBuffer(n, |buf|, f.SamplesPerBase());
    StoredSets(f, buf[q], o, value);
    SamplesUpdated(f, f.SamplesPerBase(), buf, n, q, o, Stored(f, buf[q], o, value), value);
  }

  lemma SamplesUpdated(f: Format, spb: nat, buf: seq<nat>, n: nat, q: nat, o: nat, e: nat, value: nat)
    requires f.Valid() && spb == f.SamplesPerBase() && q < |buf| && o < spb && n < |buf| * spb
    requires n / spb == q && n % spb == spb - 1 - o && Sets(f, buf[q], e, o, value)
    ensures Samples(f, buf[q := e]) == Samples(f, buf)[n := value]
  {
    var a, b := Samples(f, buf[q := e]), Samples(f, buf)[n := value];
    forall m | 0 <= m < |a| ensures a[m] == b[m] {
      SampleUpdated(f, spb, buf, n, q, o, e, value, m);
    }
  }

  lemma SampleUpdated(f: Format, spb: nat, buf: seq<nat>, n: nat, q: nat, o: nat, e: nat, value: nat, m: nat)
    requires f.Valid() && spb == f.SamplesPerBase() && q < |buf| && o < spb
    requires n / spb == q && n % spb == spb - 1 - o && Sets(f, buf[q], e, o, value)
    ensures SampleAt(f, buf[q := e], m) == if m == n then value else SampleAt(f, buf, m)
  {
    var q', r := QuotRem(m, n, spb);
    PartUpdates(f, spb, buf, q, o, e, value, q', r);
  }

  lemma PartUpdates(f: Format, spb: nat, buf: seq<nat>, q: nat, o: nat, e: nat, value: nat, q': nat, r: nat)
    requires f.Valid() && spb == f.SamplesPerBase() && q < |buf| && o < spb && r < spb && Sets(f, buf[q], e, o, value)
    ensures Part(f, spb, buf[q := e], q', r) == if q' == q && spb - 1 - r == o then value else Part(f, spb, buf, q', r)
  {
  }

  lemma DivModApart(m: nat, n: nat, s: nat)
    requires s > 0
    ensures m == n <==> m / s == n / s && m % s == n % s
    ensures 0 <= m % s < s && 0 <= n % s < s
  {
    assert m == m / s * s + m % s && n == n / s * s + n % s;
  }

  lemma SampleOfFits(f: Format, x: nat, o: nat)
    requires f.Valid()
    ensures SampleOf(f, x, o) <= Mask(f.bps)
  {
    FieldInRange(x, o * f.bps, f.bps);
  }

  lemma PartFits(f: Format, spb: nat, elements: seq<nat>, q: nat, r: nat)
    requires f.Valid()
    ensures Part(f, spb, elements, q, r) <= Mask(f.bps)
  {
    if q < |elements| && r < spb { SampleOfFits(f, elements[q], spb - 1 - r); }
  }

  lemma SampleFits(f: Format, elements: seq<nat>, n: nat)
    requires f.Valid() && n < |Samples(f, elements)|
    ensures Samples(f, elements)[n] <= Mask(f.bps)
  {
    PartFits(f, f.SamplesPerBase(), elements, n / f.SamplesPerBase(), n % f.SamplesPerBase());
  }

  /** The parts of `m`, and whether they are those of `n`. */
  lemma QuotRem(m: nat, n: nat, s: nat) returns (q: nat, r: nat)
    requires s > 0
    ensures q == m / s && r == m % s && r < s
    ensures m == n <==> q == n / s && r == n % s
  {
    DivModApart(m, n, s);
    q, r := m / s, m % s;
  }

  lemma SplitIndex(n: nat, len: nat, s: nat) returns (q: nat, r: nat)
    requires n < len * s
    ensures q < len && r < s && n == q * s + r
  {
    MulZero(len, s);
    InBuffer(n, len, s);
    q, r := n / s, n % s;
  }

  lemma MulZero(a: nat, b: nat)
    requires a * b > 0
    ensures a > 0 && b > 0
  {}

  /** When the samples fill the elements, the buffer is determined by its samples. */
  lemma SamplesDetermineElement(f: Format, x: nat, y: nat)
    requires f.Valid() && f.SamplesPerBase() * f.bps == f.bitsPerBase && x <= Mask(f.bitsPerBase)
    requires y <= Mask(f.bitsPerBase)
    requires forall o: nat | o < f.SamplesPerBase() :: SampleOf(f, x, o) == SampleOf(f, y, o)
    ensures x == y
  {
    forall j: nat ensures Bit(x, j) == Bit(y, j) {
      if j < f.bitsPerBase {
        var o, i := SplitIndex(j, f.SamplesPerBase(), f.bps);
        SampleDeterminesBit(f, x, y, o, i, j);
      } else {
        WithinMask(f.bitsPerBase, x, j);
        WithinMask(f.bitsPerBase, y, j);
      }
    }
    SameBits(x, y);
  }

  lemma SampleDeterminesBit(f: Format, x: nat, y: nat, o: nat, i: nat, j: nat)
    requires f.Valid() && i < f.bps && SampleOf(f, x, o) == SampleOf(f, y, o) && j == o * f.bps + i
    ensures Bit(x, j) == Bit(y, j)
  {
    FieldsDetermine(x, y, o * f.bps, f.bps, i);
  }

  lemma FieldsDetermine(x: nat, y: nat, k: nat, b: nat, i: nat)
    requires b > 0 && i < b && Field(x, k, b) == Field(y, k, b)
    ensures Bit(x, k + i) == Bit(y, k + i)
  {
    FieldBit(x, k, b, i);
    FieldBit(y, k, b, i);
  }

  lemma SamplesDetermineBuffer(f: Format, a: seq<nat>, b: seq<nat>)
    requires f.Valid() && f.SamplesPerBase() * f.bps == f.bitsPerBase
    requires forall x | x in a + b :: x <= Mask(f.bitsPerBase)
    requires Samples(f, a) == Samples(f, b) && |a| == |b|
    ensures a == b
  {
    var spb := f.SamplesPerBase();
    forall e | 0 <= e < |a| ensures a[e] == b[e] {
      assert a[e] in a + b && b[e] in a + b;
      forall o: nat | o < spb ensures SampleOf(f, a[e], o) == SampleOf(f, b[e], o) {
        var n := e * spb + (spb - 1 - o);
        MulMonotone(0, e, spb);
        DivModUnique(n, spb, e, spb - 1 - o);
        InBuffer(n, |a|, spb);
        assert Samples(f, a)[n] == SampleAt(f, a, n) && Samples(f, b)[n] == SampleAt(f, b, n);
      }
      SamplesDetermineElement(f, a[e], b[e]);
    }
  }

  // ------------------------------------------------------------------
  // Moving

  /** Element index, and sample within the element counted from its lowest bits. */
  datatype Cursor = Cursor(base: nat, offset: nat)

  predicate InElement(spb: nat, c: Cursor) { c.offset < spb }

  function Position(spb: nat, c: Cursor): (n: nat)
    requires InElement(spb, c)
  {
    c.base * spb + (spb - 1 - c.offset)
  }

  /** The cursor at position `n`: what the constructor makes of element `base` and sample `offset`. */
  function CursorAt(spb: nat, base: nat, offset: nat): Cursor
    requires spb > 0
  {
    Cursor(base + offset / spb, spb - 1 - offset % spb)
  }

  function Step(spb: nat, c: Cursor): Cursor
    requires InElement(spb, c)
  {
    if c.offset == 0 then Cursor(c.base + 1, spb - 1) else Cursor(c.base, c.offset - 1)
  }

  function Advance(spb: nat, c: Cursor, x: nat): Cursor
    requires InElement(spb, c)
  {
    CursorAt(spb, c.base, spb - 1 - c.offset + x)
  }

  lemma CursorAtPosition(spb: nat, base: nat, offset: nat)
    requires spb > 0
    ensures InElement(spb, CursorAt(spb, base, offset))
    ensures Position(spb, CursorAt(spb, base, offset)) == base * spb + offset
  {
    assert (base + offset / spb) * spb == base * spb + offset / spb * spb;
  }

  /** The element and the sample at a position. */
  lemma PositionParts(spb: nat, c: Cursor)
    requires InElement(spb, c)
    ensures Position(spb, c) / spb == c.base && Position(spb, c) % spb == spb - 1 - c.offset
  {
    DivModUnique(Position(spb, c), spb, c.base, spb - 1 - c.offset);
  }

  lemma ElementOf(spb: nat, c: Cursor, len: nat)
    requires InElement(spb, c) && Position(spb, c) < len * spb
    ensures c.base < len
  {
    PositionParts(spb, c);
    InBuffer(Position(spb, c), len, spb);
  }

  lemma StepPosition(spb: nat, c: Cursor)
    requires InElement(spb, c)
    ensures InElement(spb, Step(spb, c)) && Position(spb, Step(spb, c)) == Position(spb, c) + 1
  {
    assert (c.base + 1) * spb == c.base * spb + spb;
  }

  lemma AdvancePosition(spb: nat, c: Cursor, x: nat)
    requires InElement(spb, c)
    ensures InElement(spb, Advance(spb, c, x)) && Position(spb, Advance(spb, c, x)) == Position(spb, c) + x
  {
    CursorAtPosition(spb, c.base, spb - 1 - c.offset + x);
  }

  function Steps(spb: nat, c: Cursor, n: nat): (d: Cursor)
    requires InElement(spb, c)
    ensures InElement(spb, d)
  {
    if n == 0 then c else Step(spb, Steps(spb, c, n - 1))
  }

  /** `+= n` is `n` times `++`, across any number of elements. */
  lemma {:induction false} AdvanceIsSteps(spb: nat, c: Cursor, n: nat)
    requires InElement(spb, c)
    ensures Advance(spb, c, n) == Steps(spb, c, n)
  {
    AdvancePosition(spb, c, n);
    PositionParts(spb, Advance(spb, c, n));
    if n == 0 {
      PositionParts(spb, c);
    } else {
      AdvanceIsSteps(spb, c, n - 1);
      AdvancePosition(spb, c, n - 1);
      StepPosition(spb, Advance(spb, c, n - 1));
      PositionParts(spb, Steps(spb, c, n));
    }
  }

  // ------------------------------------------------------------------
  // The class

  class SampleIterator {
    const f: Format
    const samplesPerBase: nat
    const data: array<nat>
    var currentBase: nat
    var currentOffset: nat

    ghost predicate Valid()
      reads this
    {
      f.Valid() && samplesPerBase == f.SamplesPerBase() && InElement(samplesPerBase, At())
    }

    function At(): Cursor
      reads this
    {
      Cursor(currentBase, currentOffset)
    }

    ghost function Index(): nat
      requires Valid()
      reads this
    {
      Position(samplesPerBase, At())
    }

    constructor (data: array<nat>, base: nat, offset: nat, f: Format)
      requires f.Valid()
      ensures Valid() && this.f == f && this.data == data
      ensures Index() == base * f.SamplesPerBase() + offset
    {
      this.f := f;
      this.data := data;
      samplesPerBase := f.SamplesPerBase();
      currentBase := base + offset / f.SamplesPerBase();
      currentOffset := f.SamplesPerBase() - 1 - offset % f.SamplesPerBase();
      new;
      CursorAtPosition(samplesPerBase, base, offset);
    }

    method Get() returns (v: nat)
      requires Valid() && currentBase < data.Length
      ensures Index() < data.Length * samplesPerBase && v == Samples(f, data[..])[Index()]
    {
      PositionParts(samplesPerBase, At());
      InBuffer(Index(), data.Length, samplesPerBase);
      v := And(Shr(data[currentBase], currentOffset * f.bps), Mask(f.bps));
    }

    method Set(value: nat)
      requires Valid() && currentBase < data.Length
      modifies data
      ensures data[..] == old(data[..])[currentBase := Stored(f, old(data[currentBase]), currentOffset, value)]
      ensures value <= Mask(f.bps) ==>
        Index() < data.Length * samplesPerBase && Samples(f, data[..]) == old(Samples(f, data[..]))[Index() := value]
    {
      PositionParts(samplesPerBase, At());
      InBuffer(Index(), data.Length, samplesPerBase);
      if value <= Mask(f.bps) { SetUpdatesOne(f, data[..], Index(), currentBase, currentOffset, value); }
      var shift := currentOffset * f.bps;
      data[currentBase] := And(Or(AndNot(data[currentBase], Shl(Mask(f.bps), shift)), Shl(value, shift)),
                               Mask(f.bitsPerBase));
    }

    method Next()
      requires Valid()
      modifies this
      ensures Valid() && At() == Step(samplesPerBase, old(At())) && Index() == old(Index()) + 1
    {
      StepPosition(samplesPerBase, At());
      if currentOffset == 0 {
        currentOffset := samplesPerBase - 1;
        currentBase := currentBase + 1;
      } else {
        currentOffset := currentOffset - 1;
      }
    }

    method Add(x: nat)
      requires Valid()
      modifies this
      ensures Valid() && At() == Advance(samplesPerBase, old(At()), x) && Index() == old(Index()) + x
    {
      AdvancePosition(samplesPerBase, At(), x);
      var offset := samplesPerBase - 1 - currentOffset + x;
      currentBase := currentBase + offset / samplesPerBase;
      currentOffset := samplesPerBase - 1 - offset % samplesPerBase;
    }
  }
}
