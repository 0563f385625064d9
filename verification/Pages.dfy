/**
 * Memory pages: blocks of `blockCount` pages of `blockSize` bytes each, a list
 * of free pages, and the bytes behind every page.
 */
module Pages {
  import opened Arith
  import opened Wrappers

  type byte = bv8

  /** A page is number `id` of block number `block`. */
  datatype Page = Page(block: nat, id: nat)

  // ------------------------------------------------------------------
  // SwapBasedBlockAllocator

  /** `get`: offset of page `id` in the block's memory. */
  function Offset(id: nat, count: nat, size: nat): Result<nat> {
    if id >= count then Failure(OutOfRange) else Success(id * size)
  }

  /** Offsets are given out exactly for the pages that exist; pages lie inside the block and do not overlap. */
  lemma PagesAreDisjoint(a: nat, b: nat, count: nat, size: nat)
    ensures Offset(a, count, size).Success? <==> a < count
    ensures a < count ==> Offset(a, count, size).value + size <= count * size
    ensures a < b < count ==> Offset(a, count, size).value + size <= Offset(b, count, size).value
  {
    assert (a + 1) * size == a * size + size;
    if a < count { MulMonotone(a + 1, count, size); }
    if a < b { MulMonotone(a + 1, b, size); }
  }

  /** `getPages` */
  function BlockPages(block: nat, n: nat): (r: seq<Page>)
    ensures |r| == n && forall i :: 0 <= i < n ==> r[i] == Page(block, i)
  {
    seq(n, (i: nat) => Page(block, i))
  }

  method GetPages(block: nat, count: nat) returns (result: seq<Page>)
    ensures result == BlockPages(block, count)
  {
    result := [];
    for i := 0 to count
      invariant result == BlockPages(block, i)
    {
      result := result + [Page(block, i)];
    }
  }

  // ------------------------------------------------------------------
  // PageProvider

  datatype Provider = Provider(blockCount: nat, blockSize: nat, blocks: seq<seq<byte>>, free: seq<Page>)

  predicate Exists(p: Provider, g: Page) {
    g.block < |p.blocks| && g.id < p.blockCount
  }

  predicate Shaped(p: Provider) {
    && p.blockCount > 0 && p.blockSize > 0
    && forall k :: 0 <= k < |p.blocks| ==> |p.blocks[k]| == p.blockCount * p.blockSize
  }

  /** The provider after a new block was allocated, if there was no free page. */
  function Refilled(p: Provider): Provider {
    if p.free != [] then p
    else p.(blocks := p.blocks + [seq(p.blockCount * p.blockSize, _ => 0 as byte)],
            free := BlockPages(|p.blocks|, p.blockCount))
  }

  lemma RefilledFacts(p: Provider)
    requires Shaped(p)
    ensures Shaped(Refilled(p)) && Refilled(p).free != []
    ensures |p.blocks| <= |Refilled(p).blocks|
    ensures forall k :: 0 <= k < |p.blocks| ==> Refilled(p).blocks[k] == p.blocks[k]
  {
    MulPositive(p.blockCount, p.blockSize);
  }

  /** `getFreePage`: the page, and the provider without it. */
  function FreePage(p: Provider): Page
    requires Shaped(p)
  {
    RefilledFacts(p);
    Refilled(p).free[0]
  }

  function WithoutFreePage(p: Provider): Provider
    requires Shaped(p)
  {
    RefilledFacts(p);
    Refilled(p).(free := Refilled(p).free[1..])
  }

  /**
   * A block is allocated only when no page is free, and then one; its pages are
   * numbered from 0 and the first of them is handed out.
   */
  lemma AllocatesOnlyWhenEmpty(p: Provider)
    requires Shaped(p)
    ensures p.free != [] ==> WithoutFreePage(p).blocks == p.blocks && [FreePage(p)] + WithoutFreePage(p).free == p.free
    ensures p.free == [] ==> |WithoutFreePage(p).blocks| == |p.blocks| + 1
    ensures p.free == [] ==> WithoutFreePage(p).blocks[..|p.blocks|] == p.blocks
    ensures p.free == [] ==> FreePage(p) == Page(|p.blocks|, 0) && |WithoutFreePage(p).free| == p.blockCount - 1
  {
    RefilledFacts(p);
    if p.free == [] { BlockPagesListed(|p.blocks|, p.blockCount); }
  }

  lemma {:induction false} BlockPagesListed(block: nat, n: nat)
    ensures |BlockPages(block, n)| == n
    ensures n > 0 ==> BlockPages(block, n)[0] == Page(block, 0)
  {
    if n > 0 { BlockPagesListed(block, n - 1); }
  }

  /** `markPageFree` */
  function MarkedFree(p: Provider, g: Page): Provider {
    p.(free := [g] + p.free)
  }

  /** The page freed last is handed out first, and handing it out undoes freeing it. */
  lemma FreedIsNext(p: Provider, g: Page)
    requires Shaped(p)
    ensures Shaped(MarkedFree(p, g)) && FreePage(MarkedFree(p, g)) == g && WithoutFreePage(MarkedFree(p, g)) == p
  {
    assert MarkedFree(p, g).free[1..] == p.free;
  }

  // ------------------------------------------------------------------
  // Conservation: every page is free or handed out, once

  /** How often page `g` is accounted for must be once if it exists and never otherwise. */
  ghost predicate Conserved(p: Provider, used: multiset<Page>) {
    forall g {:trigger used[g]} :: multiset(p.free)[g] + used[g] == if Exists(p, g) then 1 else 0
  }

  lemma {:induction false} BlockPagesOnce(block: nat, n: nat, g: Page)
    ensures multiset(BlockPages(block, n))[g] == if g.block == block && g.id < n then 1 else 0
  {
    if n > 0 {
      BlockPagesOnce(block, n - 1, g);
      assert BlockPages(block, n) == BlockPages(block, n - 1) + [Page(block, n - 1)];
    }
  }

  lemma RefillConserves(p: Provider, used: multiset<Page>)
    requires Shaped(p) && Conserved(p, used)
    ensures Conserved(Refilled(p), used)
  {
    if p.free == [] {
      forall g ensures multiset(Refilled(p).free)[g] + used[g] == if Exists(Refilled(p), g) then 1 else 0 {
        BlockPagesOnce(|p.blocks|, p.blockCount, g);
        assert multiset(p.free)[g] + used[g] == if Exists(p, g) then 1 else 0;
      }
    }
  }

  /** A page handed out was not in use, and all pages stay accounted for. */
  lemma HandOutConserves(p: Provider, used: multiset<Page>)
    requires Shaped(p) && Conserved(p, used)
    ensures used[FreePage(p)] == 0 && Exists(WithoutFreePage(p), FreePage(p))
    ensures Shaped(WithoutFreePage(p)) && Conserved(WithoutFreePage(p), used + multiset{FreePage(p)})
  {
    RefilledFacts(p);
    RefillConserves(p, used);
    var r, g := Refilled(p), FreePage(p);
    assert r.free == [g] + r.free[1..];
    assert multiset(r.free) == multiset{g} + multiset(r.free[1..]);
    assert multiset(r.free)[g] + used[g] == if Exists(r, g) then 1 else 0;
    forall h ensures multiset(r.free[1..])[h] + (used + multiset{g})[h] == if Exists(r, h) then 1 else 0 {
      assert multiset(r.free)[h] + used[h] == if Exists(r, h) then 1 else 0;
    }
  }

  lemma ReturnConserves(p: Provider, used: multiset<Page>, g: Page)
    requires Shaped(p) && Conserved(p, used + multiset{g})
    ensures Shaped(MarkedFree(p, g)) && Conserved(MarkedFree(p, g), used)
  {
    forall h ensures multiset([g] + p.free)[h] + used[h] == if Exists(p, h) then 1 else 0 {
      assert multiset(p.free)[h] + (used + multiset{g})[h] == if Exists(p, h) then 1 else 0;
      assert multiset([g] + p.free) == multiset{g} + multiset(p.free);
    }
  }

  // ------------------------------------------------------------------
  // The bytes behind the pages

  /** The bytes of page `g`. */
  function Read(p: Provider, g: Page): (r: seq<byte>)
    requires Shaped(p) && Exists(p, g)
    ensures |r| == p.blockSize
  {
    PagesAreDisjoint(g.id, g.id, p.blockCount, p.blockSize);
    p.blocks[g.block][g.id * p.blockSize..g.id * p.blockSize + p.blockSize]
  }

  /** Overwrites the beginning of page `g`; the rest of the page keeps its old bytes. */
  function Write(p: Provider, g: Page, bytes: seq<byte>): Provider
    requires Shaped(p) && Exists(p, g) && |bytes| <= p.blockSize
  {
    PagesAreDisjoint(g.id, g.id, p.blockCount, p.blockSize);
    var o := g.id * p.blockSize;
    var b := p.blocks[g.block];
    p.(blocks := p.blocks[g.block := b[..o] + bytes + b[o + |bytes|..]])
  }

  lemma Splice(b: seq<byte>, o: nat, bytes: seq<byte>, q: nat, size: nat)
    requires o + size <= |b| && q + size <= |b| && |bytes| <= size
    ensures var n := b[..o] + bytes + b[o + |bytes|..];
      && |n| == |b|
      && n[o..o + size] == bytes + b[o..o + size][|bytes|..]
      && (q + size <= o || o + size <= q ==> n[q..q + size] == b[q..q + size])
  {
    var n := b[..o] + bytes + b[o + |bytes|..];
    var piece, want := n[o..o + size], bytes + b[o..o + size][|bytes|..];
    forall i | 0 <= i < size ensures piece[i] == want[i] {
      assert piece[i] == n[o + i];
    }
    assert piece == want;
    if q + size <= o || o + size <= q {
      var now, before := n[q..q + size], b[q..q + size];
      forall i | 0 <= i < size ensures now[i] == before[i] {
        assert now[i] == n[q + i];
      }
      assert now == before;
    }
  }

  /** A write changes the beginning of its own page and no other page. */
  lemma WriteIsLocal(p: Provider, g: Page, bytes: seq<byte>, h: Page)
    requires Shaped(p) && Exists(p, g) && |bytes| <= p.blockSize
    requires Exists(p, h)
    ensures Shaped(Write(p, g, bytes)) && Exists(Write(p, g, bytes), h)
    ensures h != g ==> Read(Write(p, g, bytes), h) == Read(p, h)
    ensures Read(Write(p, g, bytes), g) == bytes + Read(p, g)[|bytes|..]
  {
    PagesAreDisjoint(g.id, h.id, p.blockCount, p.blockSize);
    PagesAreDisjoint(h.id, g.id, p.blockCount, p.blockSize);
    Splice(p.blocks[g.block], g.id * p.blockSize, bytes, h.id * p.blockSize, p.blockSize);
  }

  // ------------------------------------------------------------------
  // The class

  class PageProvider {
    const blockCount: nat
    const blockSize: nat
    var blocks: seq<seq<byte>>
    var freePages: seq<Page>

    ghost function State(): Provider
      reads this
    {
      Provider(blockCount, blockSize, blocks, freePages)
    }

    constructor (blockCount: nat, blockSize: nat)
      ensures State() == Provider(blockCount, blockSize, [], [])
    {
      this.blockCount, this.blockSize := blockCount, blockSize;
      blocks, freePages := [], [];
    }

    method GetFreePage() returns (result: Page)
      requires Shaped(State())
      modifies this
      ensures result == FreePage(old(State())) && State() == WithoutFreePage(old(State()))
    {
      RefilledFacts(State());
      if |freePages| == 0 {
        var pages := GetPages(|blocks|, blockCount);
        blocks := blocks + [seq(blockCount * blockSize, _ => 0 as byte)];
        for i := 0 to |pages|
          invariant freePages == pages[..i] && blocks == Refilled(old(State())).blocks
        {
          freePages := freePages + [pages[i]];
        }
      }
      result := freePages[0];
      freePages := freePages[1..];
    }

    method MarkPageFree(g: Page)
      modifies this
      ensures State() == MarkedFree(old(State()), g)
    {
      freePages := [g] + freePages;
    }

    /** The bytes of a page; throws for a page that does not exist. */
    method ReadPage(g: Page) returns (bytes: Result<seq<byte>>)
      requires Shaped(State())
      ensures bytes == if Exists(State(), g) then Success(Read(State(), g)) else Failure(OutOfRange)
    {
      if g.block < |blocks| && g.id < blockCount {
        PagesAreDisjoint(g.id, g.id, blockCount, blockSize);
        return Success(blocks[g.block][g.id * blockSize..g.id * blockSize + blockSize]);
      }
      return Failure(OutOfRange);
    }

    /** A client fills the beginning of a page it holds. */
    method WritePage(g: Page, bytes: seq<byte>)
      requires Shaped(State()) && Exists(State(), g) && |bytes| <= blockSize
      modifies this
      ensures State() == Write(old(State()), g, bytes)
    {
      PagesAreDisjoint(g.id, g.id, blockCount, blockSize);
      var o, b := g.id * blockSize, blocks[g.block];
      blocks := blocks[g.block := b[..o] + bytes + b[o + |bytes|..]];
    }
  }
}
