/**
 * Compressing in-memory storage.  Any number of blobs share one page provider.
 * Every step is one locked section of the program; that the last handle is
 * dropped, that its deleter runs, and that a scheduled compress job runs are
 * separate steps that may be far apart.
 */
module Blobs {
  import opened Counting
  import opened Pages
  import opened Wrappers

  // ------------------------------------------------------------------
  // Compression into pages

  /** `decode(bytes, size)` inflates the stream at the start of `bytes` to `size` bytes. */
  datatype Codec = Codec(encode: seq<byte> -> seq<byte>, decode: (seq<byte>, int) -> seq<byte>)

  ghost predicate DecodesBack(c: Codec, x: seq<byte>, padding: seq<byte>) {
    c.decode(c.encode(x) + padding, |x|) == x
  }

  /** What is assumed of zlib: decoding undoes encoding, whatever follows the stream. */
  ghost predicate RoundTrips(c: Codec) {
    forall x, padding {:trigger DecodesBack(c, x, padding)} :: DecodesBack(c, x, padding)
  }

  predicate Good(p: Provider) {
    Shaped(p) && forall g :: g in p.free ==> Exists(p, g)
  }

  lemma FreePageExists(p: Provider)
    requires Good(p)
    ensures Good(WithoutFreePage(p)) && Exists(WithoutFreePage(p), FreePage(p))
  {
    RefilledFacts(p);
    var r := Refilled(p);
    forall g | g in r.free ensures Exists(r, g) {
      if p.free != [] { assert Exists(p, g); }
    }
    assert FreePage(p) in r.free;
    assert forall g :: g in r.free[1..] ==> g in r.free;
  }

  lemma WriteKeepsGood(p: Provider, g: Page, bytes: seq<byte>)
    requires Good(p) && Exists(p, g) && |bytes| <= p.blockSize
    ensures Good(Write(p, g, bytes)) && Write(p, g, bytes).blockSize == p.blockSize
  {
    WriteIsLocal(p, g, bytes, g);
  }

  /** The loop of `compressBlob`: a fresh page for each page-sized piece of the stream, at least one. */
  function StorePieces(p: Provider, e: seq<byte>): (r: (Provider, seq<Page>))
    requires Good(p)
    ensures Good(r.0)
    decreases |e|
  {
    FreePageExists(p);
    var g, q := FreePage(p), WithoutFreePage(p);
    if |e| <= q.blockSize then
      WriteKeepsGood(q, g, e);
      (Write(q, g, e), [g])
    else
      WriteKeepsGood(q, g, e[..q.blockSize]);
      var (s, rest) := StorePieces(Write(q, g, e[..q.blockSize]), e[q.blockSize..]);
      (s, [g] + rest)
  }

  /** All bytes behind a list of pages, in order; what `decompressBlob` feeds to inflate. */
  function Contents(p: Provider, gs: seq<Page>): seq<byte>
    requires Shaped(p)
  {
    if gs == [] then []
    else (if Exists(p, gs[0]) then Read(p, gs[0]) else []) + Contents(p, gs[1..])
  }

  lemma ContentsStep(p: Provider, gs: seq<Page>, before: seq<byte>)
    requires Shaped(p) && gs != []
    ensures before + Contents(p, gs) ==
            before + (if Exists(p, gs[0]) then Read(p, gs[0]) else []) + Contents(p, gs[1..])
  {}

  lemma {:induction false} ContentsSame(p: Provider, q: Provider, gs: seq<Page>)
    requires Shaped(p) && Shaped(q)
    requires forall g :: g in gs ==> Exists(p, g) && Exists(q, g) && Read(p, g) == Read(q, g)
    ensures Contents(p, gs) == Contents(q, gs)
  {
    if gs != [] {
      assert gs[0] in gs;
      ContentsSame(p, q, gs[1..]);
    }
  }

  /** Pages in use keep their bytes. */
  ghost predicate Keeps(p: Provider, q: Provider, used: multiset<Page>) {
    Shaped(p) && Shaped(q) && forall h :: h in used ==> Exists(p, h) && Exists(q, h) && Read(q, h) == Read(p, h)
  }

  lemma HandOutKeeps(p: Provider, used: multiset<Page>)
    requires Shaped(p) && Conserved(p, used)
    ensures Keeps(p, WithoutFreePage(p), used)
  {
    RefilledFacts(p);
    forall h | h in used
      ensures Exists(p, h) && Exists(WithoutFreePage(p), h) && Read(WithoutFreePage(p), h) == Read(p, h)
    {
      assert used[h] > 0;
    }
  }

  lemma WriteKeeps(p: Provider, g: Page, bytes: seq<byte>, used: multiset<Page>)
    requires Good(p) && Exists(p, g) && |bytes| <= p.blockSize
    requires g !in used && forall h :: h in used ==> Exists(p, h)
    ensures Keeps(p, Write(p, g, bytes), used)
  {
    WriteIsLocal(p, g, bytes, g);
    forall h | h in used ensures Exists(Write(p, g, bytes), h) && Read(Write(p, g, bytes), h) == Read(p, h) {
      WriteIsLocal(p, g, bytes, h);
    }
  }

  lemma WriteConserves(p: Provider, g: Page, bytes: seq<byte>, used: multiset<Page>)
    requires Good(p) && Exists(p, g) && |bytes| <= p.blockSize && Conserved(p, used)
    ensures Conserved(Write(p, g, bytes), used)
  {
    forall h ensures multiset(p.free)[h] + used[h] == if Exists(Write(p, g, bytes), h) then 1 else 0 {
      assert multiset(p.free)[h] + used[h] == if Exists(p, h) then 1 else 0;
    }
  }

  /** One round of the loop: a fresh page holds the piece, and nothing in use changed. */
  lemma PieceStored(p: Provider, e: seq<byte>, used: multiset<Page>)
    requires Good(p) && Conserved(p, used) && |e| <= p.blockSize
    ensures var g, q := FreePage(p), WithoutFreePage(p);
      && Good(q) && Exists(q, g) && |e| <= q.blockSize && q.blockSize == p.blockSize
      && Good(Write(q, g, e)) && Conserved(Write(q, g, e), used + multiset{g})
      && Keeps(p, Write(q, g, e), used)
      && Exists(Write(q, g, e), g) && e <= Read(Write(q, g, e), g)
  {
    var g, q := FreePage(p), WithoutFreePage(p);
    FreePageExists(p);
    HandOutConserves(p, used);
    HandOutKeeps(p, used);
    WriteKeepsGood(q, g, e);
    WriteConserves(q, g, e, used + multiset{g});
    WriteKeeps(q, g, e, used);
    WriteIsLocal(q, g, e, g);
  }

  /** The first page and the pages of the rest, put together. */
  lemma PiecesJoin(p: Provider, w: Provider, s: Provider, g: Page, head: seq<byte>, rest: seq<Page>,
                   used: multiset<Page>)
    requires Keeps(p, w, used) && Keeps(w, s, used + multiset{g}) && Exists(w, g) && head == Read(w, g)
    requires Conserved(s, (used + multiset{g}) + multiset(rest))
    ensures Keeps(p, s, used) && Conserved(s, used + multiset([g] + rest))
    ensures Contents(s, [g] + rest) == head + Contents(s, rest)
  {
    assert multiset([g] + rest) == multiset{g} + multiset(rest);
    assert (used + multiset{g}) + multiset(rest) == used + (multiset{g} + multiset(rest));
    assert g in used + multiset{g};
    assert ([g] + rest)[1..] == rest;
    forall h | h in used ensures Exists(s, h) && Read(s, h) == Read(p, h) {
      assert h in used + multiset{g};
    }
  }

  /** The pages of a stored stream are accounted for and begin with it; no page in use has changed. */
  ghost predicate StoredAs(p: Provider, q: Provider, gs: seq<Page>, e: seq<byte>, used: multiset<Page>) {
    Keeps(p, q, used) && Conserved(q, used + multiset(gs)) && e <= Contents(q, gs)
  }

  lemma LastPiece(p: Provider, e: seq<byte>, used: multiset<Page>)
    requires Good(p) && Conserved(p, used) && |e| <= p.blockSize
    ensures StoredAs(p, StorePieces(p, e).0, StorePieces(p, e).1, e, used)
  {
    PieceStored(p, e, used);
    var (q, gs) := StorePieces(p, e);
    assert Contents(q, gs) == Read(q, gs[0]) + Contents(q, gs[1..]);
    assert multiset(gs) == multiset{gs[0]};
  }

  lemma FirstPiece(p: Provider, e: seq<byte>, used: multiset<Page>, w: Provider, g: Page, s: Provider, rest: seq<Page>)
    requires Shaped(p) && |e| > p.blockSize
    requires Keeps(p, w, used) && Exists(w, g) && Read(w, g) == e[..p.blockSize]
    requires StoredAs(w, s, rest, e[p.blockSize..], used + multiset{g})
    ensures StoredAs(p, s, [g] + rest, e, used)
  {
    PiecesJoin(p, w, s, g, e[..p.blockSize], rest, used);
    assert e == e[..p.blockSize] + e[p.blockSize..];
  }

  /** Storing a stream of any length takes pages that were free and leaves those in use alone. */
  lemma {:induction false} StreamStored(p: Provider, e: seq<byte>, used: multiset<Page>)
    requires Good(p) && Conserved(p, used)
    ensures StoredAs(p, StorePieces(p, e).0, StorePieces(p, e).1, e, used)
    decreases |e|
  {
    if |e| <= p.blockSize {
      LastPiece(p, e, used);
    } else {
      PieceStored(p, e[..p.blockSize], used);
      var g, w := FreePage(p), Write(WithoutFreePage(p), FreePage(p), e[..p.blockSize]);
      StreamStored(w, e[p.blockSize..], used + multiset{g});
      var (s, rest) := StorePieces(w, e[p.blockSize..]);
      FirstPiece(p, e, used, w, g, s, rest);
    }
  }

  /** A stream takes no more pages than it needs, and at least one. */
  lemma {:induction false} PagesNeeded(p: Provider, e: seq<byte>)
    requires Good(p)
    ensures var n := |StorePieces(p, e).1|;
      n > 0 && (n > 1 ==> (n - 1) * p.blockSize < |e|) && |e| <= n * p.blockSize
    decreases |e|
  {
    if |e| > p.blockSize {
      FreePageExists(p);
      WriteKeepsGood(WithoutFreePage(p), FreePage(p), e[..p.blockSize]);
      var w, rest := Write(WithoutFreePage(p), FreePage(p), e[..p.blockSize]), e[p.blockSize..];
      PagesNeeded(w, rest);
      var n := |StorePieces(w, rest).1|;
      assert n * p.blockSize == (n - 1) * p.blockSize + p.blockSize;
      assert (n + 1) * p.blockSize == n * p.blockSize + p.blockSize;
    }
  }

  /** The old pages go back to the free list one by one. */
  function Released(p: Provider, gs: seq<Page>): Provider
    decreases |gs|
  {
    if gs == [] then p else Released(MarkedFree(p, gs[0]), gs[1..])
  }

  lemma {:induction false} ReleaseConserves(p: Provider, gs: seq<Page>, used: multiset<Page>)
    requires Good(p) && Conserved(p, used + multiset(gs))
    ensures Good(Released(p, gs)) && Conserved(Released(p, gs), used) && Released(p, gs).blocks == p.blocks
    ensures Released(p, gs).blockCount == p.blockCount && Released(p, gs).blockSize == p.blockSize
    decreases |gs|
  {
    if gs == [] {
      assert used + multiset(gs) == used;
    } else {
      var g := gs[0];
      assert gs == [g] + gs[1..];
      assert used + multiset(gs) == (used + multiset(gs[1..])) + multiset{g};
      assert (used + multiset(gs))[g] > 0;
      ReturnConserves(p, used + multiset(gs[1..]), g);
      assert Exists(p, g);
      ReleaseConserves(MarkedFree(p, g), gs[1..], used);
    }
  }

  // ------------------------------------------------------------------
  // Blob

  datatype BState = UNINITIALIZED | CLEAN | DIRTY | COMPRESSING

  /** A generation of handles: all shared pointers made from one deleter. */
  datatype Handle = Handle(buffer: Option<nat>, readers: nat, writers: nat)

  /**
   * `heap` holds the buffers that were allocated and not freed.  `live` is what
   * `weakData.lock()` finds; `dying` counts deleters that still have to run and
   * `jobs` scheduled compress jobs.  `content` is history: what a plain byte
   * array would hold, `None` before the first `get` or `initialize`.  `fault`
   * records a free or an access of memory that is not allocated, or a failed
   * requirement.
   */
  datatype Blob = Blob(
    size: nat, state: BState, data: Option<nat>, heap: map<nat, seq<byte>>, next: nat, pages: seq<Page>,
    refcount: int, live: Option<Handle>, dying: nat, jobs: nat, content: Option<seq<byte>>, fault: bool)

  function Created(size: nat): Blob {
    Blob(size, UNINITIALIZED, None, map[], 0, [], 0, None, 0, 0, None, false)
  }

  function Malloc(b: Blob, init: seq<byte>): (r: Blob)
    ensures r.pages == b.pages && r.size == b.size
  {
    b.(data := Some(b.next), heap := b.heap[b.next := init], next := b.next + 1)
  }

  function FreeData(b: Blob): (r: Blob)
    ensures r.pages == b.pages && r.size == b.size
  {
    if b.data.None? then b
    else b.(data := None, heap := b.heap - {b.data.value}, fault := b.fault || b.data.value !in b.heap)
  }

  /** What a buffer holds; nothing if it is not allocated. */
  function BufferOf(b: Blob, d: Option<nat>): Option<seq<byte>> {
    if d.Some? && d.value in b.heap then Some(b.heap[d.value]) else None
  }

  /** `load`: `inflated` is what the pages decompress to, `garbage` what fresh memory holds. */
  function Load(b: Blob, inflated: seq<byte>, garbage: seq<byte>): (r: Blob)
    ensures r.pages == b.pages && r.size == b.size
  {
    if b.live.Some? then b else
      var c := match b.state
        case UNINITIALIZED => Malloc(b, garbage)
        case CLEAN => Malloc(b, inflated)
        case DIRTY => b
        case COMPRESSING => b.(state := DIRTY);
      c.(live := Some(Handle(c.data, 0, 0)), refcount := c.refcount + 1)
  }

  function Unload(b: Blob): (r: Blob)
    ensures r.pages == b.pages && r.size == b.size
  {
    var c := b.(refcount := b.refcount - 1);
    if c.refcount != 0 then c
    else if c.state.DIRTY? then c.(state := COMPRESSING, jobs := c.jobs + 1)
    else FreeData(c)
  }

  /** `compress` once the stream is in pages. */
  function Compressed(b: Blob, pages: seq<Page>): Blob {
    FreeData(b).(pages := pages, state := CLEAN, fault := FreeData(b).fault || b.refcount != 0)
  }

  datatype Event =
    | Get(garbage: seq<byte>) | GetConst(garbage: seq<byte>) | Initialize(value: byte, garbage: seq<byte>)
    | CopyReader | CopyWriter | DropReader | DropWriter
    | Store(offset: nat, value: byte)
    | Deleter | CompressJob

  predicate Possible(b: Blob, e: Event) {
    match e
    case Get(g) => |g| == b.size
    case GetConst(g) => |g| == b.size
    case Initialize(_, g) => |g| == b.size
    case CopyReader => b.live.Some? && b.live.value.readers > 0
    case CopyWriter => b.live.Some? && b.live.value.writers > 0
    case DropReader => b.live.Some? && b.live.value.readers > 0
    case DropWriter => b.live.Some? && b.live.value.writers > 0
    case Store(o, _) => b.live.Some? && b.live.value.writers > 0 && o < b.size
    case Deleter => b.dying > 0
    case CompressJob => b.jobs > 0
  }

  function AddHandles(b: Blob, readers: int, writers: int): (r: Blob)
    ensures r.pages == b.pages && r.size == b.size
  {
    if b.live.None? then b.(fault := true) else
      var x, w := b.live.value.readers + readers, b.live.value.writers + writers;
      if x < 0 || w < 0 then b.(fault := true)
      else if x + w == 0 then b.(live := None, dying := b.dying + 1)
      else b.(live := Some(Handle(b.live.value.buffer, x, w)))
  }

  /** A client stores a byte through a writable handle. */
  function StoreByte(b: Blob, o: nat, v: byte): (r: Blob)
    ensures r.pages == b.pages && r.size == b.size
  {
    var d := if b.live.Some? then b.live.value.buffer else None;
    var bytes := BufferOf(b, d);
    if bytes.Some? && o < |bytes.value| then b.(heap := b.heap[d.value := bytes.value[o := v]]) else b.(fault := true)
  }

  /** `memset(result.get(), value, size)` */
  function Memset(b: Blob, v: byte): (r: Blob)
    ensures r.pages == b.pages && r.size == b.size
  {
    var d := if b.live.Some? then b.live.value.buffer else None;
    if BufferOf(b, d).Some? then b.(heap := b.heap[d.value := seq(b.size, _ => v)]) else b.(fault := true)
  }

  /** Every event but the compress job that finds work; those also change the page provider. */
  function Own(b: Blob, inflated: seq<byte>, e: Event): (r: Blob)
    ensures r.pages == b.pages && r.size == b.size
  {
    match e
    case Get(g) => AddHandles(Load(b, inflated, g).(state := DIRTY), 0, 1)
    case GetConst(g) => AddHandles(Load(b, inflated, g), 1, 0)
    case Initialize(v, g) => AddHandles(Memset(Load(b, inflated, g).(state := DIRTY), v), 0, 1)
    case CopyReader => AddHandles(b, 1, 0)
    case CopyWriter => AddHandles(b, 0, 1)
    case DropReader => AddHandles(b, -1, 0)
    case DropWriter => AddHandles(b, 0, -1)
    case Store(o, v) => StoreByte(b, o, v)
    case Deleter => Unload(b.(dying := if b.dying > 0 then b.dying - 1 else 0))
    case CompressJob => b.(jobs := if b.jobs > 0 then b.jobs - 1 else 0)
  }

  /** The plain byte array: what the events mean, with no cache, handles or pages. */
  function Meaning(b: Blob, e: Event): Option<seq<byte>> {
    match e
    case Get(g) =>
      if b.content.Some? then b.content
      else if b.live.Some? && BufferOf(b, b.live.value.buffer).Some? then BufferOf(b, b.live.value.buffer) else Some(g)
    case Initialize(v, _) => Some(seq(b.size, _ => v))
    case Store(o, v) => if b.content.Some? && o < |b.content.value| then Some(b.content.value[o := v]) else b.content
    case _ => b.content
  }

  // ------------------------------------------------------------------
  // Invariant of one blob; `inflated` is what its pages decompress to

  ghost predicate HandlesOk(b: Blob) {
    && b.refcount == (if b.live.Some? then 1 else 0) + b.dying
    && (b.live.Some? ==> b.live.value.buffer == b.data && b.live.value.readers + b.live.value.writers > 0)
    && (b.live.Some? && b.live.value.writers > 0 ==> b.state.DIRTY?)
    && (b.state.DIRTY? ==> b.refcount > 0)
    && (b.state.COMPRESSING? ==> b.refcount == 0 && b.jobs > 0)
    && !b.fault
  }

  ghost predicate MemoryOk(b: Blob) {
    && (b.data.Some? <==> b.refcount > 0 || b.state.COMPRESSING?)
    && (b.data.Some? ==> b.data.value in b.heap)
    && (forall d :: d in b.heap ==> d < b.next && |b.heap[d]| == b.size)
  }

  ghost predicate ContentOk(b: Blob, inflated: seq<byte>) {
    && (b.state.UNINITIALIZED? <==> b.content.None?)
    && (b.content.Some? ==> |b.content.value| == b.size)
    && (b.state.DIRTY? || b.state.COMPRESSING? ==> BufferOf(b, b.data) == b.content)
    && (b.state.CLEAN? ==> b.content == Some(inflated))
    && (b.state.CLEAN? && b.live.Some? ==> BufferOf(b, b.data) == b.content)
  }

  ghost predicate BlobOk(b: Blob, inflated: seq<byte>) {
    HandlesOk(b) && MemoryOk(b) && ContentOk(b, inflated)
  }

  ghost function After(b: Blob, inflated: seq<byte>, e: Event): Blob {
    Own(b, inflated, e).(content := Meaning(b, e))
  }

  /** A blob whose handle generation is live but may still lack its first handle. */
  ghost predicate Loaded(b: Blob, inflated: seq<byte>) {
    && b.live.Some? && b.live.value.buffer == b.data && BufferOf(b, b.data).Some?
    && b.refcount == 1 + b.dying && !b.fault && MemoryOk(b) && ContentOk(b, inflated)
    && !b.state.COMPRESSING? && (b.live.value.writers > 0 ==> b.state.DIRTY?)
  }

  /** Loading finds or makes a buffer that shows the content. */
  lemma LoadShows(b: Blob, inflated: seq<byte>, garbage: seq<byte>)
    requires BlobOk(b, inflated) && |garbage| == b.size
    ensures Loaded(Load(b, inflated, garbage), inflated)
    ensures b.content.Some? ==> BufferOf(Load(b, inflated, garbage), Load(b, inflated, garbage).data) == b.content
    ensures Load(b, inflated, garbage).content == b.content && Load(b, inflated, garbage).size == b.size
    ensures b.content.None? ==> BufferOf(Load(b, inflated, garbage), Load(b, inflated, garbage).data)
                                == if b.live.Some? then BufferOf(b, b.data) else Some(garbage)
  {
  }

  lemma HandleAdded(b: Blob, inflated: seq<byte>, readers: nat, writers: nat)
    requires Loaded(b, inflated) && readers + writers > 0 && (writers > 0 ==> b.state.DIRTY?)
    ensures BlobOk(AddHandles(b, readers, writers), inflated)
  {
  }

  lemma GetStep(b: Blob, inflated: seq<byte>, g: seq<byte>)
    requires BlobOk(b, inflated) && |g| == b.size
    ensures BlobOk(After(b, inflated, Get(g)), inflated) && BlobOk(After(b, inflated, GetConst(g)), inflated)
  {
    LoadShows(b, inflated, g);
    var c := Load(b, inflated, g);
    HandleAdded(c, inflated, 1, 0);
    HandleAdded(c.(state := DIRTY, content := Meaning(b, Get(g))), inflated, 0, 1);
  }

  lemma InitializeStep(b: Blob, inflated: seq<byte>, v: byte, g: seq<byte>)
    requires BlobOk(b, inflated) && |g| == b.size
    ensures BlobOk(After(b, inflated, Initialize(v, g)), inflated)
  {
    LoadShows(b, inflated, g);
    var c := Memset(Load(b, inflated, g).(state := DIRTY), v);
    HandleAdded(c.(content := Meaning(b, Initialize(v, g))), inflated, 0, 1);
  }

  lemma HandleStep(b: Blob, inflated: seq<byte>, e: Event)
    requires BlobOk(b, inflated) && Possible(b, e) && (e.CopyReader? || e.CopyWriter? || e.DropReader? || e.DropWriter?)
    ensures BlobOk(After(b, inflated, e), inflated)
  {
  }

  lemma StoreStep(b: Blob, inflated: seq<byte>, e: Event)
    requires BlobOk(b, inflated) && Possible(b, e) && e.Store?
    ensures BlobOk(After(b, inflated, e), inflated)
  {
  }

  lemma DeleterStep(b: Blob, inflated: seq<byte>)
    requires BlobOk(b, inflated) && b.dying > 0
    ensures BlobOk(After(b, inflated, Deleter), inflated)
  {
  }

  /** Every event keeps the blob in order. */
  lemma OwnStep(b: Blob, inflated: seq<byte>, e: Event)
    requires BlobOk(b, inflated) && Possible(b, e) && (e.CompressJob? ==> !b.state.COMPRESSING?)
    ensures BlobOk(After(b, inflated, e), inflated)
  {
    match e
    case Get(g) => GetStep(b, inflated, g);
    case GetConst(g) => GetStep(b, inflated, g);
    case Initialize(v, g) => InitializeStep(b, inflated, v, g);
    case Store(_, _) => StoreStep(b, inflated, e);
    case Deleter => DeleterStep(b, inflated);
    case CompressJob =>
    case _ => HandleStep(b, inflated, e);
  }

  lemma CompressStep(b: Blob, inflated: seq<byte>, pages: seq<Page>, inflated': seq<byte>)
    requires BlobOk(b, inflated) && b.state.COMPRESSING? && Some(inflated') == BufferOf(b, b.data)
    ensures BlobOk(Compressed(b.(jobs := b.jobs - 1), pages), inflated')
  {
  }

  // ------------------------------------------------------------------
  // All blobs of one provider

  datatype Storage = Storage(provider: Provider, blobs: seq<Blob>)

  datatype Step = Create(size: nat) | On(i: nat, e: Event)

  function PagesOf(b: Blob): multiset<Page> { multiset(b.pages) }

  /** Pages that some blob holds. */
  function Used(s: Storage): multiset<Page> { Gather(PagesOf, s.blobs) }

  function Inflated(c: Codec, p: Provider, b: Blob): seq<byte>
    requires Shaped(p)
  {
    c.decode(Contents(p, b.pages), b.size)
  }

  predicate Enabled(s: Storage, e: Step) {
    e.On? ==> e.i < |s.blobs| && Possible(s.blobs[e.i], e.e)
  }

  /** `compress` on a waiting blob: fresh pages first, then the old ones are released. */
  function CompressOne(c: Codec, p: Provider, b: Blob): (Provider, Blob)
    requires Good(p)
  {
    var bytes := BufferOf(b, b.data);
    var (q, gs) := StorePieces(p, c.encode(if bytes.Some? then bytes.value else []));
    (Released(q, b.pages), Compressed(b.(fault := b.fault || bytes.None?), gs))
  }

  function CompressInto(c: Codec, s: Storage, i: nat): Storage
    requires Good(s.provider) && i < |s.blobs|
  {
    var b := s.blobs[i];
    var (q, d) := CompressOne(c, s.provider, b.(jobs := if b.jobs > 0 then b.jobs - 1 else 0));
    Storage(q, s.blobs[i := d])
  }

  ghost function Apply(c: Codec, s: Storage, e: Step): Storage
    requires Good(s.provider) && Enabled(s, e)
  {
    match e
    case Create(size) => s.(blobs := s.blobs + [Created(size)])
    case On(i, ev) =>
      var b := s.blobs[i];
      if ev.CompressJob? && b.state.COMPRESSING? then CompressInto(c, s, i)
      else s.(blobs := s.blobs[i := After(b, Inflated(c, s.provider, b), ev)])
  }

  ghost predicate Init(s: Storage) {
    Shaped(s.provider) && s.provider.blocks == [] && s.provider.free == [] && s.blobs == []
  }

  /** `Good` holds throughout (InvAlways), so it never keeps a run from going on. */
  ghost predicate StepAt(c: Codec, r: seq<Storage>, es: seq<Step>, k: nat)
    requires |r| == |es| + 1 && k < |es|
  {
    Good(r[k].provider) && Enabled(r[k], es[k]) && r[k + 1] == Apply(c, r[k], es[k])
  }

  /** A run: the states and the steps between them. */
  ghost predicate IsRun(c: Codec, r: seq<Storage>, es: seq<Step>) {
    && |r| == |es| + 1 && Init(r[0])
    && forall k {:trigger StepAt(c, r, es, k)} :: 0 <= k < |es| ==> StepAt(c, r, es, k)
  }

  ghost predicate AllOk(c: Codec, p: Provider, bs: seq<Blob>)
    requires Shaped(p)
  {
    forall i :: 0 <= i < |bs| ==> BlobOk(bs[i], Inflated(c, p, bs[i]))
  }

  ghost predicate Inv(c: Codec, s: Storage) {
    Good(s.provider) && Conserved(s.provider, Used(s)) && AllOk(c, s.provider, s.blobs)
  }

  lemma InUse(s: Storage, i: nat)
    requires i < |s.blobs|
    ensures forall g :: g in s.blobs[i].pages ==> g in Used(s)
  {
    GatherToMember(PagesOf, s.blobs, i, |s.blobs|);
    forall g | g in s.blobs[i].pages ensures g in Used(s) {
      assert g in PagesOf(s.blobs[i]);
    }
  }

  lemma CreateStep(c: Codec, s: Storage, size: nat)
    requires Inv(c, s)
    ensures Inv(c, Apply(c, s, Create(size)))
  {
    var n := Apply(c, s, Create(size));
    GatherAppend(PagesOf, s.blobs, Created(size));
    assert Used(n) == Used(s);
    forall i | 0 <= i < |n.blobs| ensures BlobOk(n.blobs[i], Inflated(c, n.provider, n.blobs[i])) {
      if i < |s.blobs| { assert n.blobs[i] == s.blobs[i]; }
    }
  }

  lemma PagesUntouched(b: Blob, inflated: seq<byte>, e: Event)
    ensures After(b, inflated, e).pages == b.pages && After(b, inflated, e).size == b.size
  {
  }

  lemma EventStep(c: Codec, s: Storage, i: nat, e: Event)
    requires Inv(c, s) && Enabled(s, On(i, e)) && (e.CompressJob? ==> !s.blobs[i].state.COMPRESSING?)
    ensures Inv(c, Apply(c, s, On(i, e)))
  {
    var b := s.blobs[i];
    var inflated := Inflated(c, s.provider, b);
    OwnStep(b, inflated, e);
    PagesUntouched(b, inflated, e);
    GatherKeep(PagesOf, s.blobs, i, After(b, inflated, e));
  }

  lemma {:induction false} SameBlocks(p: Provider, q: Provider, gs: seq<Page>)
    requires Shaped(p) && Shaped(q) && p.blocks == q.blocks && p.blockCount == q.blockCount
    requires p.blockSize == q.blockSize
    ensures Contents(p, gs) == Contents(q, gs)
  {
    if gs != [] { SameBlocks(p, q, gs[1..]); }
  }

  /**
   * Replacing the pages `was` by fresh pages for stream `e`: accounts, new
   * contents, and contents of everything in use.
   */
  lemma PagesReplaced(p: Provider, e: seq<byte>, others: multiset<Page>, was: seq<Page>)
    requires Good(p) && Conserved(p, others + multiset(was))
    ensures var (q, gs) := StorePieces(p, e);
      var n := Released(q, was);
      Good(n) && Conserved(n, others + multiset(gs)) && e <= Contents(n, gs)
  {
    var used := others + multiset(was);
    StreamStored(p, e, used);
    var (q, gs) := StorePieces(p, e);
    assert used + multiset(gs) == (others + multiset(gs)) + multiset(was);
    ReleaseConserves(q, was, others + multiset(gs));
    SameBlocks(q, Released(q, was), gs);
  }

  lemma OthersKept(p: Provider, e: seq<byte>, used: multiset<Page>, was: seq<Page>, gs: seq<Page>)
    requires Good(p) && Conserved(p, used) && Good(Released(StorePieces(p, e).0, was))
    requires multiset(was) <= used && forall g :: g in gs ==> g in used
    ensures Contents(Released(StorePieces(p, e).0, was), gs) == Contents(p, gs)
  {
    StreamStored(p, e, used);
    var q := StorePieces(p, e).0;
    ContentsSame(p, q, gs);
    ReleaseBlocks(q, was);
    SameBlocks(q, Released(q, was), gs);
  }

  lemma {:induction false} ReleaseBlocks(p: Provider, gs: seq<Page>)
    ensures Released(p, gs).blocks == p.blocks
    ensures Released(p, gs).blockCount == p.blockCount && Released(p, gs).blockSize == p.blockSize
    decreases |gs|
  {
    if gs != [] { ReleaseBlocks(MarkedFree(p, gs[0]), gs[1..]); }
  }

  lemma {:induction false} ReleasedAreFree(p: Provider, gs: seq<Page>)
    ensures forall g :: g in gs || g in p.free ==> g in Released(p, gs).free
    decreases |gs|
  {
    if gs != [] {
      ReleasedAreFree(MarkedFree(p, gs[0]), gs[1..]);
      forall g | g in gs || g in p.free ensures g in Released(p, gs).free {
        assert g in gs ==> g == gs[0] || g in gs[1..];
        assert g in p.free ==> g in MarkedFree(p, gs[0]).free;
        assert gs[0] in MarkedFree(p, gs[0]).free;
      }
    }
  }

  /** Decoding the new pages gives back the bytes that were compressed. */
  lemma InflatesBack(c: Codec, bytes: seq<byte>, stored: seq<byte>)
    requires RoundTrips(c) && c.encode(bytes) <= stored
    ensures c.decode(stored, |bytes|) == bytes
  {
    var e := c.encode(bytes);
    assert stored == e + stored[|e|..];
    assert DecodesBack(c, bytes, stored[|e|..]);
  }

  lemma UsedSwap(bs: seq<Blob>, i: nat, b: Blob, others: multiset<Page>)
    requires i < |bs| && Gather(PagesOf, bs) == others + PagesOf(bs[i])
    ensures Gather(PagesOf, bs[i := b]) == others + PagesOf(b)
  {
    GatherSwap(PagesOf, bs, i, b);
    var n, o := Gather(PagesOf, bs[i := b]), PagesOf(bs[i]);
    assert n + o == (others + o) + PagesOf(b);
    forall g ensures n[g] == (others + PagesOf(b))[g] {
      assert (n + o)[g] == ((others + o) + PagesOf(b))[g];
    }
    assert n == others + PagesOf(b);
  }

  lemma CompressStorage(c: Codec, s: Storage, i: nat)
    requires RoundTrips(c) && Inv(c, s) && i < |s.blobs| && s.blobs[i].state.COMPRESSING?
    ensures Inv(c, CompressInto(c, s, i))
    ensures BufferOf(s.blobs[i], s.blobs[i].data).Some?
    ensures c.encode(BufferOf(s.blobs[i], s.blobs[i].data).value)
      <= Contents(CompressInto(c, s, i).provider, CompressInto(c, s, i).blobs[i].pages)
  {
    var b := s.blobs[i];
    assert BlobOk(b, Inflated(c, s.provider, b));
    var bytes := BufferOf(b, b.data).value;
    var e := c.encode(bytes);
    var (q, gs) := StorePieces(s.provider, e);
    var n := CompressInto(c, s, i);
    GatherToMember(PagesOf, s.blobs, i, |s.blobs|);
    var others := Used(s) - multiset(b.pages);
    assert Used(s) == others + PagesOf(b);
    PagesReplaced(s.provider, e, others, b.pages);
    UsedSwap(s.blobs, i, n.blobs[i], others);
    forall j | 0 <= j < |n.blobs| ensures BlobOk(n.blobs[j], Inflated(c, n.provider, n.blobs[j])) {
      if j == i {
        InflatesBack(c, bytes, Contents(n.provider, gs));
        CompressStep(b, Inflated(c, s.provider, b), gs, bytes);
      } else {
        assert BlobOk(s.blobs[j], Inflated(c, s.provider, s.blobs[j]));
        InUse(s, j);
        OthersKept(s.provider, e, Used(s), b.pages, s.blobs[j].pages);
      }
    }
  }

  lemma InvStep(c: Codec, s: Storage, e: Step)
    requires RoundTrips(c) && Inv(c, s) && Enabled(s, e)
    ensures Inv(c, Apply(c, s, e))
  {
    match e
    case Create(size) => CreateStep(c, s, size);
    case On(i, ev) =>
      if ev.CompressJob? && s.blobs[i].state.COMPRESSING? { CompressStorage(c, s, i); } else { EventStep(c, s, i, ev); }
  }

  lemma InvInit(c: Codec, s: Storage)
    requires Init(s)
    ensures Inv(c, s)
  {
  }

  /** The invariant holds in every state of every run, for any number of blobs. */
  lemma {:induction false} InvAlways(c: Codec, r: seq<Storage>, es: seq<Step>, k: nat)
    requires RoundTrips(c) && IsRun(c, r, es) && k < |r|
    ensures Inv(c, r[k])
  {
    if k == 0 {
      InvInit(c, r[0]);
    } else {
      InvAlways(c, r, es, k - 1);
      assert StepAt(c, r, es, k - 1);
      InvStep(c, r[k - 1], es[k - 1]);
    }
  }

  // ------------------------------------------------------------------
  // Results about every run

  /** The bytes that a load of blob `i` would show now. */
  ghost function Yields(c: Codec, s: Storage, i: nat, garbage: seq<byte>): Option<seq<byte>>
    requires i < |s.blobs| && Shaped(s.provider)
  {
    var b := Load(s.blobs[i], Inflated(c, s.provider, s.blobs[i]), garbage);
    BufferOf(b, b.live.value.buffer)
  }

  /**
   * Coherence: at any moment the next load of a blob yields the bytes a plain
   * byte array would hold, from the buffer, from a buffer being compressed or
   * from the pages, whatever deleters and compress jobs are still outstanding.
   */
  lemma NextLoadIsLastWritten(c: Codec, r: seq<Storage>, es: seq<Step>, k: nat, i: nat, garbage: seq<byte>)
    requires RoundTrips(c) && IsRun(c, r, es) && k < |r| && i < |r[k].blobs|
    requires r[k].blobs[i].content.Some? && |garbage| == r[k].blobs[i].size
    ensures Shaped(r[k].provider) && Yields(c, r[k], i, garbage) == r[k].blobs[i].content
  {
    InvAlways(c, r, es, k);
    LoadShows(r[k].blobs[i], Inflated(c, r[k].provider, r[k].blobs[i]), garbage);
  }

  /**
   * Handles: the reference count is the live generation plus the deleters to
   * come, a live handle points at the allocated current buffer and shows the
   * content, a writable one implies DIRTY, compression never meets a handle and
   * never lacks its job, and nothing is freed twice or used after being freed.
   */
  lemma HandlesAreValid(c: Codec, r: seq<Storage>, es: seq<Step>, k: nat, i: nat)
    requires RoundTrips(c) && IsRun(c, r, es) && k < |r| && i < |r[k].blobs|
    ensures var b := r[k].blobs[i];
      && !b.fault
      && b.refcount == (if b.live.Some? then 1 else 0) + b.dying
      && (b.state.COMPRESSING? ==> b.refcount == 0 && b.live.None? && b.jobs > 0)
      && (b.live.Some? ==>
            && b.live.value.buffer == b.data && b.data.Some? && b.data.value in b.heap
            && |b.heap[b.data.value]| == b.size
            && (b.content.Some? ==> b.heap[b.data.value] == b.content.value)
            && (b.live.value.writers > 0 ==> b.state.DIRTY?))
  {
    InvAlways(c, r, es, k);
    var b := r[k].blobs[i];
    assert BlobOk(b, Inflated(c, r[k].provider, b));
  }

  /** Pages: every page that exists is free or held by one blob, once; a page handed out next is held by none. */
  lemma PagesAreConserved(c: Codec, r: seq<Storage>, es: seq<Step>, k: nat, g: Page)
    requires RoundTrips(c) && IsRun(c, r, es) && k < |r|
    ensures multiset(r[k].provider.free)[g] + Used(r[k])[g] == if Exists(r[k].provider, g) then 1 else 0
    ensures Shaped(r[k].provider)
    ensures forall i :: 0 <= i < |r[k].blobs| ==> FreePage(r[k].provider) !in r[k].blobs[i].pages
  {
    InvAlways(c, r, es, k);
    HandOutConserves(r[k].provider, Used(r[k]));
    assert Used(r[k])[g] >= 0;
    forall i | 0 <= i < |r[k].blobs| ensures FreePage(r[k].provider) !in r[k].blobs[i].pages {
      InUse(r[k], i);
    }
  }

  /** A page that is free is held by no blob. */
  lemma FreeIsUnheld(c: Codec, s: Storage, g: Page, i: nat)
    requires Inv(c, s) && g in s.provider.free && i < |s.blobs|
    ensures g !in s.blobs[i].pages
  {
    assert multiset(s.provider.free)[g] > 0;
    assert multiset(s.provider.free)[g] + Used(s)[g] == if Exists(s.provider, g) then 1 else 0;
    InUse(s, i);
  }

  /**
   * Compressing compresses: the compress job of a COMPRESSING blob leaves it
   * CLEAN and without its buffer, which is freed; its new pages begin with the
   * encoded content, and its old pages are free.  No other blob changes.
   */
  lemma CompressJobCompresses(c: Codec, r: seq<Storage>, es: seq<Step>, k: nat, i: nat)
    requires RoundTrips(c) && IsRun(c, r, es) && k < |es| && es[k] == On(i, CompressJob)
    requires i < |r[k].blobs| && r[k].blobs[i].state.COMPRESSING?
    ensures |r[k + 1].blobs| == |r[k].blobs| && Shaped(r[k + 1].provider)
    ensures forall j :: 0 <= j < |r[k].blobs| && j != i ==> r[k + 1].blobs[j] == r[k].blobs[j]
    ensures var b, n := r[k].blobs[i], r[k + 1].blobs[i];
      && n.state.CLEAN? && n.data.None? && n.jobs == b.jobs - 1
      && b.data.Some? && n.heap == b.heap - {b.data.value} && b.data.value in b.heap
      && b.content.Some? && c.encode(b.content.value) <= Contents(r[k + 1].provider, n.pages)
      && forall g :: g in b.pages ==> g in r[k + 1].provider.free && g !in n.pages
  {
    InvAlways(c, r, es, k);
    InvAlways(c, r, es, k + 1);
    assert StepAt(c, r, es, k);
    var b := r[k].blobs[i];
    assert BlobOk(b, Inflated(c, r[k].provider, b));
    CompressStorage(c, r[k], i);
    ReleasedAreFree(StorePieces(r[k].provider, c.encode(BufferOf(b, b.data).value)).0, b.pages);
    forall g | g in b.pages ensures g in r[k + 1].provider.free && g !in r[k + 1].blobs[i].pages {
      FreeIsUnheld(c, r[k + 1], g, i);
    }
  }

  /** A compress job that comes too late, because the blob was loaded again, changes nothing. */
  lemma LateJobDoesNothing(c: Codec, r: seq<Storage>, es: seq<Step>, k: nat, i: nat)
    requires RoundTrips(c) && IsRun(c, r, es) && k < |es| && es[k] == On(i, CompressJob)
    requires i < |r[k].blobs| && !r[k].blobs[i].state.COMPRESSING?
    ensures r[k].blobs[i].jobs > 0
    ensures r[k + 1] == r[k].(blobs := r[k].blobs[i := r[k].blobs[i].(jobs := r[k].blobs[i].jobs - 1)])
  {
    assert StepAt(c, r, es, k);
  }

  /**
   * The last handle: when its deleter runs, a dirty blob is sent to be
   * compressed and keeps its buffer, any other one loses it.
   */
  lemma LastHandleGone(c: Codec, r: seq<Storage>, es: seq<Step>, k: nat, i: nat)
    requires RoundTrips(c) && IsRun(c, r, es) && k < |es| && es[k] == On(i, Deleter)
    requires i < |r[k].blobs| && r[k].blobs[i].refcount == 1
    ensures i < |r[k + 1].blobs| && r[k + 1].blobs[i].refcount == 0
    ensures var b, n := r[k].blobs[i], r[k + 1].blobs[i];
      b.data.Some? && b.data.value in b.heap && n.pages == b.pages &&
      if b.state.DIRTY? then n.state.COMPRESSING? && n.jobs == b.jobs + 1 && n.data == b.data && n.heap == b.heap
      else n.state == b.state && n.jobs == b.jobs && n.data.None? && n.heap == b.heap - {b.data.value}
  {
    InvAlways(c, r, es, k);
    assert StepAt(c, r, es, k);
    assert BlobOk(r[k].blobs[i], Inflated(c, r[k].provider, r[k].blobs[i]));
  }

  /** The state that an event leads to. */
  function StateAfter(b: Blob, e: Event): BState {
    match e
    case Get(_) => DIRTY
    case Initialize(_, _) => DIRTY
    case GetConst(_) => if b.state.COMPRESSING? then DIRTY else b.state
    case Deleter => if b.state.DIRTY? && b.refcount == 1 then COMPRESSING else b.state
    case CompressJob => if b.state.COMPRESSING? then CLEAN else b.state
    case _ => b.state
  }

  function Readers(b: Blob): int { if b.live.Some? then b.live.value.readers else 0 }

  function Writers(b: Blob): int { if b.live.Some? then b.live.value.writers else 0 }

  /** Change of the number of writable and of reading handles. */
  function WritersGained(e: Event): int {
    match e
    case Get(_) => 1
    case Initialize(_, _) => 1
    case CopyWriter => 1
    case DropWriter => -1
    case _ => 0
  }

  function ReadersGained(e: Event): int {
    match e
    case GetConst(_) => 1
    case CopyReader => 1
    case DropReader => -1
    case _ => 0
  }

  /** What the table says of a blob before and after an event. */
  ghost predicate InTable(b: Blob, n: Blob, e: Event) {
    && n.state == StateAfter(b, e)
    && Writers(n) == Writers(b) + WritersGained(e) && Readers(n) == Readers(b) + ReadersGained(e)
    && (n.live.Some? <==> Writers(n) + Readers(n) > 0)
    && n.dying == b.dying + (if b.live.Some? && n.live.None? then 1 else 0) - (if e.Deleter? then 1 else 0)
  }

  lemma OpenTable(b: Blob, inflated: seq<byte>, e: Event)
    requires BlobOk(b, inflated) && Possible(b, e) && (e.Get? || e.GetConst? || e.Initialize?)
    ensures InTable(b, After(b, inflated, e), e)
  {
    LoadShows(b, inflated, e.garbage);
    var c := Load(b, inflated, e.garbage);
    assert c.live.Some? && Writers(c) == Writers(b) && Readers(c) == Readers(b) && c.dying == b.dying;
  }

  lemma DropTable(b: Blob, inflated: seq<byte>, e: Event)
    requires BlobOk(b, inflated) && Possible(b, e)
    requires e.DropReader? || e.DropWriter? || e.CopyReader? || e.CopyWriter?
    ensures InTable(b, After(b, inflated, e), e)
  {
  }

  lemma EventTable(b: Blob, inflated: seq<byte>, e: Event)
    requires BlobOk(b, inflated) && Possible(b, e) && (e.CompressJob? ==> !b.state.COMPRESSING?)
    ensures InTable(b, After(b, inflated, e), e)
  {
    match e
    case Get(_) => OpenTable(b, inflated, e);
    case GetConst(_) => OpenTable(b, inflated, e);
    case Initialize(_, _) => OpenTable(b, inflated, e);
    case Store(_, _) =>
    case Deleter =>
    case CompressJob =>
    case _ => DropTable(b, inflated, e);
  }

  /**
   * The state machine as a table: states, handles, and the deleter that is due
   * exactly when the last handle of a generation is dropped.  Only compressing
   * gives a blob other pages.
   */
  lemma StateTable(c: Codec, r: seq<Storage>, es: seq<Step>, k: nat, i: nat)
    requires RoundTrips(c) && IsRun(c, r, es) && k < |es| && es[k].On? && es[k].i == i
    ensures i < |r[k].blobs| && i < |r[k + 1].blobs|
    ensures InTable(r[k].blobs[i], r[k + 1].blobs[i], es[k].e)
    ensures r[k + 1].blobs[i].pages == r[k].blobs[i].pages || (es[k].e.CompressJob? && r[k].blobs[i].state.COMPRESSING?)
  {
    InvAlways(c, r, es, k);
    assert StepAt(c, r, es, k);
    var b, e := r[k].blobs[i], es[k].e;
    var inflated := Inflated(c, r[k].provider, b);
    assert BlobOk(b, inflated);
    if !(e.CompressJob? && b.state.COMPRESSING?) {
      EventTable(b, inflated, e);
      PagesUntouched(b, inflated, e);
    }
  }

  predicate Writes(e: Step, i: nat) {
    e.On? && e.i == i && (e.e.Initialize? || e.e.Store?)
  }

  lemma {:induction false} ContentStays(c: Codec, r: seq<Storage>, es: seq<Step>, j: nat, k: nat, i: nat)
    requires RoundTrips(c) && IsRun(c, r, es) && j <= k < |r| && i < |r[j].blobs| && r[j].blobs[i].content.Some?
    requires forall m :: j <= m < k ==> !Writes(es[m], i)
    ensures i < |r[k].blobs| && r[k].blobs[i].content == r[j].blobs[i].content
    ensures r[k].blobs[i].size == r[j].blobs[i].size
  {
    if j < k {
      ContentStays(c, r, es, j, k - 1, i);
      assert StepAt(c, r, es, k - 1);
      assert !Writes(es[k - 1], i);
    }
  }

  /** A blob has content unless it is uninitialised. */
  lemma HasContent(c: Codec, r: seq<Storage>, es: seq<Step>, k: nat, i: nat)
    requires RoundTrips(c) && IsRun(c, r, es) && k < |r| && i < |r[k].blobs|
    ensures r[k].blobs[i].state.UNINITIALIZED? <==> r[k].blobs[i].content.None?
    ensures r[k].blobs[i].content.Some? ==> |r[k].blobs[i].content.value| == r[k].blobs[i].size
    ensures r[k].blobs[i].live.Some? && r[k].blobs[i].live.value.writers > 0 ==> r[k].blobs[i].content.Some?
  {
    InvAlways(c, r, es, k);
    assert BlobOk(r[k].blobs[i], Inflated(c, r[k].provider, r[k].blobs[i]));
  }

  /**
   * What was written stays: as long as nothing is initialised or stored through
   * blob `i`, a load yields the same bytes, however often this and all other
   * blobs are loaded, unloaded, compressed and written in between.
   */
  lemma WrittenBytesStay(c: Codec, r: seq<Storage>, es: seq<Step>, j: nat, k: nat, i: nat, g: seq<byte>, g': seq<byte>)
    requires RoundTrips(c) && IsRun(c, r, es) && j <= k < |r| && i < |r[j].blobs| && !r[j].blobs[i].state.UNINITIALIZED?
    requires |g| == |g'| == r[j].blobs[i].size && forall m :: j <= m < k ==> !Writes(es[m], i)
    ensures i < |r[k].blobs| && Shaped(r[j].provider) && Shaped(r[k].provider)
    ensures Yields(c, r[j], i, g).Some? && Yields(c, r[k], i, g') == Yields(c, r[j], i, g)
  {
    HasContent(c, r, es, j, i);
    ContentStays(c, r, es, j, k, i);
    NextLoadIsLastWritten(c, r, es, j, i, g);
    NextLoadIsLastWritten(c, r, es, k, i, g');
  }

  /** After `initialize` every byte that is loaded has its value, until the next write. */
  lemma InitializeThenLoad(c: Codec, r: seq<Storage>, es: seq<Step>, j: nat, k: nat, i: nat, v: byte, init: seq<byte>,
                           g: seq<byte>)
    requires RoundTrips(c) && IsRun(c, r, es) && j < k < |r| && i < |r[j].blobs| && |g| == r[j].blobs[i].size
    requires es[j] == On(i, Initialize(v, init)) && forall m :: j < m < k ==> !Writes(es[m], i)
    ensures i < |r[k].blobs| && Shaped(r[k].provider) && Yields(c, r[k], i, g) == Some(seq(|g|, _ => v))
  {
    assert StepAt(c, r, es, j);
    ContentStays(c, r, es, j + 1, k, i);
    NextLoadIsLastWritten(c, r, es, k, i, g);
  }

  /** A byte stored through a writable handle is loaded, and so are the other bytes as they were. */
  lemma StoreThenLoad(c: Codec, r: seq<Storage>, es: seq<Step>, j: nat, k: nat, i: nat, o: nat, v: byte, g: seq<byte>,
                      g': seq<byte>)
    requires RoundTrips(c) && IsRun(c, r, es) && j < k < |r| && i < |r[j].blobs| && |g| == |g'| == r[j].blobs[i].size
    requires es[j] == On(i, Store(o, v)) && forall m :: j < m < k ==> !Writes(es[m], i)
    ensures i < |r[k].blobs| && Shaped(r[j].provider) && Shaped(r[k].provider)
    ensures Yields(c, r[j], i, g).Some? && o < |Yields(c, r[j], i, g).value|
    ensures Yields(c, r[k], i, g') == Some(Yields(c, r[j], i, g).value[o := v])
  {
    assert StepAt(c, r, es, j);
    HasContent(c, r, es, j, i);
    NextLoadIsLastWritten(c, r, es, j, i, g);
    ContentStays(c, r, es, j + 1, k, i);
    NextLoadIsLastWritten(c, r, es, k, i, g');
  }

  // ------------------------------------------------------------------
  // The class, method by method

  /** `compressBlob` after deflate: fills fresh pages with the stream, page by page. */
  method CompressBlob(stream: seq<byte>, provider: PageProvider) returns (result: seq<Page>)
    requires Good(provider.State())
    modifies provider
    ensures (provider.State(), result) == StorePieces(old(provider.State()), stream)
  {
    result := [];
    var rest := stream;
    var more := true;
    ghost var (q, gs) := StorePieces(provider.State(), stream);
    while more
      invariant Good(provider.State())
      invariant more ==> StorePieces(provider.State(), rest).0 == q
      invariant more ==> result + StorePieces(provider.State(), rest).1 == gs
      invariant !more ==> provider.State() == q && result == gs
      decreases more, |rest|
    {
      ghost var tail := StorePieces(provider.State(), rest).1;
      FreePageExists(provider.State());
      var currentPage := provider.GetFreePage();
      var n := if |rest| <= provider.blockSize then |rest| else provider.blockSize;
      WriteKeepsGood(provider.State(), currentPage, rest[..n]);
      provider.WritePage(currentPage, rest[..n]);
      more := n < |rest|;
      assert result + tail == (result + [currentPage]) + tail[1..];
      assert !more ==> rest[..n] == rest;
      result := result + [currentPage];
      rest := rest[n..];
    }
  }

  /** The bytes that `decompressBlob` feeds to inflate, page by page. */
  method StreamOf(list: seq<Page>, provider: PageProvider) returns (stream: seq<byte>)
    requires Shaped(provider.State())
    ensures stream == Contents(provider.State(), list)
  {
    stream := [];
    var rest := list;
    while rest != []
      invariant Shaped(provider.State())
      invariant stream + Contents(provider.State(), rest) == Contents(provider.State(), list)
    {
      ContentsStep(provider.State(), rest, stream);
      var bytes := provider.ReadPage(rest[0]);
      // no blob holds a page that cannot be read, see PagesAreConserved
      stream := if bytes.Success? then stream + bytes.value else stream;
      rest := rest[1..];
    }
  }

  /** Dropping a page list gives its pages back, front to back. */
  method DropPages(list: seq<Page>, provider: PageProvider)
    modifies provider
    ensures provider.State() == Released(old(provider.State()), list)
  {
    var rest := list;
    while rest != []
      invariant Released(provider.State(), rest) == Released(old(provider.State()), list)
    {
      provider.MarkPageFree(rest[0]);
      rest := rest[1..];
    }
  }

  class BlobObject {
    const size: nat
    const provider: PageProvider
    var state: BState
    var data: Option<nat>
    var heap: map<nat, seq<byte>>
    var next: nat
    var pages: seq<Page>
    var refcount: int
    var live: Option<Handle>
    var dying: nat
    var jobs: nat
    ghost var content: Option<seq<byte>>
    ghost var fault: bool

    ghost function State(): Blob
      reads this
    {
      Blob(size, state, data, heap, next, pages, refcount, live, dying, jobs, content, fault)
    }

    constructor (provider: PageProvider, size: nat)
      ensures State() == Created(size) && this.provider == provider
    {
      this.size, this.provider := size, provider;
      state, data, heap, next, pages := UNINITIALIZED, None, map[], 0, [];
      refcount, live, dying, jobs, content, fault := 0, None, 0, 0, None, false;
    }

    method AllocateData(init: seq<byte>)
      modifies this`data, this`heap, this`next
      ensures State() == Malloc(old(State()), init)
    {
      data, heap, next := Some(next), heap[next := init], next + 1;
    }

    method ReleaseData()
      modifies this`data, this`heap, this`fault
      ensures State() == FreeData(old(State()))
    {
      if data.Some? {
        fault := fault || data.value !in heap;
        heap := heap - {data.value};
        data := None;
      }
    }

    /** Handing out or dropping shared pointers of the live generation. */
    method CountHandles(readers: int, writers: int)
      modifies this`live, this`dying, this`fault
      ensures State() == AddHandles(old(State()), readers, writers)
    {
      if live.None? {
        fault := true;
        return;
      }
      var r, w := live.value.readers + readers, live.value.writers + writers;
      if r < 0 || w < 0 {
        fault := true;
      } else if r + w == 0 {
        live, dying := None, dying + 1;
      } else {
        live := Some(Handle(live.value.buffer, r, w));
      }
    }

    /** `load` */
    method LoadData(c: Codec, garbage: seq<byte>)
      requires Shaped(provider.State())
      modifies this
      ensures State() == Load(old(State()), Inflated(c, provider.State(), old(State())), garbage)
    {
      if live.None? {
        match state {
          case UNINITIALIZED => AllocateData(garbage);
          case CLEAN =>
            var stream := StreamOf(pages, provider);
            AllocateData(c.decode(stream, size));
          case DIRTY =>
          case COMPRESSING => state := DIRTY;
        }
        live := Some(Handle(data, 0, 0));
        refcount := refcount + 1;
      }
    }

    /** `unload` */
    method UnloadData()
      modifies this
      ensures State() == Unload(old(State()))
    {
      refcount := refcount - 1;
      if refcount == 0 {
        if state == DIRTY {
          state := COMPRESSING;
          jobs := jobs + 1;
        } else {
          ReleaseData();
        }
      }
    }

    /** `compress` */
    method CompressData(c: Codec)
      requires Good(provider.State())
      modifies this, provider
      ensures old(state).COMPRESSING? ==>
        (provider.State(), State()) == CompressOne(c, old(provider.State()), old(State()))
      ensures !old(state).COMPRESSING? ==> provider.State() == old(provider.State()) && State() == old(State())
    {
      if state == COMPRESSING {
        fault := fault || BufferOf(State(), data).None? || refcount != 0;
        var bytes := if data.Some? && data.value in heap then heap[data.value] else [];
        var newPages := CompressBlob(c.encode(bytes), provider);
        DropPages(pages, provider);
        pages := newPages;
        ReleaseData();
        state := CLEAN;
      }
    }

    /** `get` */
    method GetData(c: Codec, garbage: seq<byte>)
      requires Shaped(provider.State())
      modifies this
      ensures State() == After(old(State()), Inflated(c, provider.State(), old(State())), Get(garbage))
    {
      ghost var meaning := Meaning(State(), Get(garbage));
      LoadData(c, garbage);
      state := DIRTY;
      CountHandles(0, 1);
      content := meaning;
    }

    /** `getConst` */
    method GetConstData(c: Codec, garbage: seq<byte>)
      requires Shaped(provider.State())
      modifies this
      ensures State() == After(old(State()), Inflated(c, provider.State(), old(State())), GetConst(garbage))
    {
      LoadData(c, garbage);
      CountHandles(1, 0);
    }

    /** `memset` on the current buffer */
    method FillData(value: byte)
      requires live.Some?
      modifies this`heap, this`fault
      ensures State() == Memset(old(State()), value)
    {
      var buffer := live.value.buffer;
      if buffer.Some? && buffer.value in heap {
        heap := heap[buffer.value := seq(size, _ => value)];
      } else {
        fault := true;
      }
    }

    /** `initialize` */
    method InitializeData(c: Codec, value: byte, garbage: seq<byte>)
      requires Shaped(provider.State())
      modifies this
      ensures State() == After(old(State()), Inflated(c, provider.State(), old(State())), Initialize(value, garbage))
    {
      ghost var meaning := Meaning(State(), Initialize(value, garbage));
      LoadData(c, garbage);
      state := DIRTY;
      FillData(value);
      CountHandles(0, 1);
      content := meaning;
    }
  }
}
