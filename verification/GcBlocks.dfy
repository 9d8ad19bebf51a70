// Allocation and freeing of blocks in lib/linden/gc/gc.c, for one block size: the global
// lists, the lists of one thread, and the operations that move blocks between them.

module GcBlocks {
  import opened GcParams
  import opened Sequences
  import opened ChunkRings

  // ---------- the global lists ----------

  class Gc {
    var freeHead: Chunk     // gc_global.free_chunks
    var allocHead: Chunk    // gc_global.alloc
    var allocSize: nat      // gc_global.alloc_size
    var nextBlock: nat      // blocks below this number have been obtained from the heap
    ghost var freeL: seq<Chunk>
    ghost var allocL: seq<Chunk>

    ghost predicate FreeOk()
      reads this, freeL
    {
      RingOk(freeL, FreeList) && freeHead == freeL[0]
    }

    // Every chunk of the allocation list is full.
    ghost predicate AllocOk()
      reads this, allocL
    {
      && RingOk(allocL, AllocList) && allocHead == allocL[0] && allocSize > 0
      && forall c :: c in allocL ==> c.i == BLKS_PER_CHUNK
    }

    ghost predicate Valid()
      reads this, freeL, allocL
    {
      FreeOk() && AllocOk()
    }

    ghost function Blocks(): multiset<nat>
      reads this, allocL
    {
      BlocksOf(allocL)
    }

    // The loop of get_empty_chunks that looks whether n chunks are there.
    method Reach(n: nat) returns (rt: Chunk, i: nat)
      requires FreeOk()
      ensures i <= n && i < |freeL| && rt == freeL[i] && (i < n ==> i == |freeL| - 1)
    {
      rt, i := freeHead, 0;
      while i < n
        invariant i <= n && i < |freeL| && rt == freeL[i]
      {
        assert RingLink(freeL, i);
        if rt.next == freeHead {
          NotFirst(freeL);
          break;
        }
        rt := rt.next;
        i := i + 1;
      }
    }

    // get_empty_chunks: a ring of n chunks whose contents are arbitrary.
    method GetEmptyChunks(n: nat, ghost h: Home) returns (rh: Chunk, ghost r: seq<Chunk>)
      requires FreeOk() && n > 0 && h != FreeList
      modifies this`freeL, freeL
      ensures FreeOk() && RingOk(r, h) && |r| == n && rh == r[0]
      ensures forall c :: c in r ==> c in old(freeL) || fresh(c)
      ensures forall c :: c in freeL ==> c in old(freeL) || fresh(c)
      ensures |old(freeL)| > n ==> r == old(freeL)[1..n + 1] && freeL == [old(freeL)[0]] + old(freeL)[n + 1..]
    {
      hide BlocksOf, Sum, Contents;
      while true
        invariant FreeOk() && freeHead == old(freeHead)
        invariant |old(freeL)| > n ==> freeL == old(freeL)
        invariant forall c :: c in freeL ==> c in old(freeL) || fresh(c)
        decreases n - |freeL|
      {
        var head := freeHead;
        assert RingLink(freeL, 0);
        assert forall k :: 0 <= k < |freeL| ==> freeL[k] in old(freeL) || fresh(freeL[k]);
        rh := head.next;
        var rt, i := Reach(n);
        if i == n {
          r, freeL := TakeChunks(n, head, rh, rt, freeL, FreeList, h);
          return;
        }
        MoreChunks();
      }
    }

    // add_chunks_to_list(alloc_more_chunks(), head)
    method MoreChunks()
      requires FreeOk()
      modifies this`freeL, freeL
      ensures FreeOk() && |freeL| == |old(freeL)| + CHUNKS_PER_ALLOC
      ensures forall c :: c in freeL ==> c in old(freeL) || fresh(c)
    {
      hide BlocksOf, Sum, Contents, RingLink;
      ghost var more;
      var ch;
      ch, more := AllocMoreChunks(CHUNKS_PER_ALLOC, Loose);
      assert forall j :: 0 <= j < |more| ==> more[j] in more;
      freeL := AddChunks(ch, freeHead, more, Loose, freeL, FreeList);
    }

    // _init_gc_subsystem and gc_add_allocator.
    constructor ()
      ensures Valid()
      ensures forall c :: c in freeL || c in allocL ==> fresh(c)
      ensures Blocks() == multiset(Span(0, nextBlock))
    {
      hide BlocksOf, Sum, Contents, Distinct, RingLink, RingOk, Span;
      ghost var more;
      var ch, ac;
      ch, more := AllocMoreChunks(CHUNKS_PER_ALLOC, FreeList);
      freeHead, freeL, allocHead, allocL, allocSize, nextBlock := ch, more, ch, more, 10, 0;
      new;
      ghost var r;
      ac, r := GetFilledChunks(10, AllocList);
      allocHead, allocL := ac, r;
    }

    // get_filled_chunks: a ring of n full chunks of new blocks.
    method GetFilledChunks(n: nat, ghost h: Home) returns (first: Chunk, ghost r: seq<Chunk>)
      requires FreeOk() && n > 0 && h != FreeList
      modifies this`freeL, this`nextBlock, freeL
      ensures FreeOk() && RingOk(r, h) && |r| == n && first == r[0]
      ensures forall c :: c in r ==> c.i == BLKS_PER_CHUNK && (c in old(freeL) || fresh(c))
      ensures forall c :: c in freeL ==> c in old(freeL) || fresh(c)
      ensures nextBlock == old(nextBlock) + n * BLKS_PER_CHUNK
      ensures BlocksOf(r) == multiset(Span(old(nextBlock), n * BLKS_PER_CHUNK))
    {
      hide BlocksOf, Sum, Contents, Distinct, RingLink, RingOk, Span;
      first, r := GetEmptyChunks(n, h);
      Disjoint(r, h, freeL, FreeList);
      assert forall j :: 0 <= j < |r| ==> r[j] in r;
      forall j | 0 <= j < |freeL| ensures freeL[j] !in r {
        assert freeL[j] in freeL;
      }
      FillRing(first, nextBlock, r, h);
      nextBlock := nextBlock + n * BLKS_PER_CHUNK;
    }

    // The same while the allocation list is in place.
    method TakeEmptyChunks(n: nat, ghost h: Home) returns (rh: Chunk, ghost r: seq<Chunk>)
      requires Valid() && n > 0 && h != FreeList && h != AllocList
      modifies this`freeL, freeL
      ensures Valid() && Blocks() == old(Blocks())
      ensures RingOk(r, h) && |r| == n && rh == r[0]
      ensures forall c :: c in r ==> c in old(freeL) || fresh(c)
      ensures forall c :: c in freeL ==> c in old(freeL) || fresh(c)
    {
      hide BlocksOf, Sum, Contents, Distinct, RingLink, RingOk;
      Disjoint(allocL, AllocList, freeL, FreeList);
      rh, r := GetEmptyChunks(n, h);
    }

    method NewRing(n: nat) returns (nh: Chunk, ghost r: seq<Chunk>)
      requires Valid() && n > 0
      modifies this`freeL, this`nextBlock, freeL
      ensures Valid() && RingOk(r, Loose) && nh == r[0] && Blocks() == old(Blocks())
      ensures forall c :: c in r ==> c.i == BLKS_PER_CHUNK && (c in old(freeL) || fresh(c))
      ensures forall c :: c in freeL ==> c in old(freeL) || fresh(c)
      ensures nextBlock == old(nextBlock) + n * BLKS_PER_CHUNK
      ensures BlocksOf(r) == multiset(Span(old(nextBlock), n * BLKS_PER_CHUNK))
    {
      hide BlocksOf, Sum, Contents, Distinct, Span, RingLink, RingOk;
      Disjoint(allocL, AllocList, freeL, FreeList);
      assert forall j :: 0 <= j < |allocL| ==> allocL[j] in allocL && allocL[j] !in freeL;
      nh, r := GetFilledChunks(n, Loose);
    }

    // The part of get_alloc_chunk that refills an empty list.
    method GrowAllocList()
      requires Valid()
      modifies this`freeL, this`allocL, this`nextBlock, this`allocSize, freeL, allocL
      ensures Valid() && |allocL| > 1 && allocHead == old(allocHead)
      ensures forall c :: c in freeL || c in allocL ==> c in old(allocL) || c in old(freeL) || fresh(c)
      ensures nextBlock == old(nextBlock) + old(allocSize) * BLKS_PER_CHUNK && allocSize == old(allocSize) + old(allocSize) / 8
      ensures Blocks() == old(Blocks()) + multiset(Span(old(nextBlock), nextBlock - old(nextBlock)))
    {
      hide BlocksOf, Sum, Contents, Distinct, Span, RingLink, RingOk;
      ghost var r;
      var nh;
      nh, r := NewRing(allocSize);
      allocSize := allocSize + allocSize / 8;
      assert forall j :: 0 <= j < |r| ==> r[j] in r;
      AddToAllocList(nh, r, Loose);
    }

    // add_chunks_to_list on the allocation list; only full chunks may go there.
    method AddToAllocList(ch: Chunk, ghost r: seq<Chunk>, ghost g: Home)
      requires Valid() && RingOk(r, g) && ch == r[0] && g != FreeList && g != AllocList
      requires forall c :: c in r ==> c.i == BLKS_PER_CHUNK
      modifies this`allocL, r, allocL
      ensures Valid() && |allocL| > 1
      ensures forall c :: c in allocL <==> c in old(allocL) || c in r
      ensures Blocks() == old(Blocks()) + old(BlocksOf(r))
    {
      hide BlocksOf, Sum, Contents, Distinct, RingLink, RingOk;
      Disjoint(freeL, FreeList, allocL, AllocList);
      Disjoint(freeL, FreeList, r, g);
      assert forall j :: 0 <= j < |freeL| ==> freeL[j] in freeL;
      allocL := AddChunks(ch, allocHead, r, g, allocL, AllocList);
    }

    // add_chunks_to_list on the list of empty chunks.
    method AddToFreeList(ch: Chunk, ghost r: seq<Chunk>, ghost g: Home)
      requires Valid() && RingOk(r, g) && ch == r[0] && g != FreeList && g != AllocList
      modifies this`freeL, r, freeL
      ensures Valid() && Blocks() == old(Blocks())
      ensures forall c :: c in freeL <==> c in old(freeL) || c in r
    {
      hide BlocksOf, Sum, Contents, Distinct, RingLink, RingOk;
      Disjoint(allocL, AllocList, freeL, FreeList);
      Disjoint(allocL, AllocList, r, g);
      assert forall j :: 0 <= j < |allocL| ==> allocL[j] in allocL;
      freeL := AddChunks(ch, freeHead, r, g, freeL, FreeList);
    }

    // The compare-and-swap of get_alloc_chunk.
    method TakeFromAllocList(p: Chunk, ghost h: Home)
      requires Valid() && |allocL| > 1 && p == allocL[1]
      requires h != FreeList && h != AllocList && h != Loose
      modifies this`allocL, allocL
      ensures Valid() && RingOk([p], h) && p.i == BLKS_PER_CHUNK && p.blk == old(p.blk)
      ensures allocL == [old(allocL)[0]] + old(allocL)[2..]
      ensures p in old(allocL) && forall c :: c in allocL ==> c in old(allocL)
      ensures Blocks() + multiset(p.Blocks()) == old(Blocks())
    {
      hide BlocksOf, Sum, Contents, Distinct, Span, RingLink, RingOk;
      Disjoint(allocL, AllocList, freeL, FreeList);
      ghost var r;
      assert forall j :: 0 <= j < |allocL| ==> allocL[j] in allocL;
      r, allocL := TakeChunks(1, allocHead, p, p, allocL, AllocList, h);
      assert r == [p];
      BlocksOne(p);
    }

    // get_alloc_chunk.  The chunk that leaves the list is full; it was there, unless the list was empty.
    method GetAllocChunk(ghost h: Home) returns (p: Chunk)
      requires Valid() && h != FreeList && h != AllocList && h != Loose
      modifies this`freeL, this`allocL, this`nextBlock, this`allocSize, freeL, allocL
      ensures Valid() && RingOk([p], h) && p.i == BLKS_PER_CHUNK
      ensures p in old(allocL) || p in old(freeL) || fresh(p)
      ensures forall c :: c in freeL || c in allocL ==> c in old(allocL) || c in old(freeL) || fresh(c)
      ensures nextBlock >= old(nextBlock)
      ensures if |old(allocL)| > 1
              then p == old(allocL)[1] && p.blk == old(allocL[1].blk) && allocL == [old(allocL)[0]] + old(allocL)[2..]
                   && nextBlock == old(nextBlock) && allocSize == old(allocSize)
              else nextBlock == old(nextBlock) + old(allocSize) * BLKS_PER_CHUNK && allocSize == old(allocSize) + old(allocSize) / 8
      ensures Blocks() + multiset(p.Blocks()) == old(Blocks()) + multiset(Span(old(nextBlock), nextBlock - old(nextBlock)))
    {
      hide BlocksOf, Sum, Contents, Distinct, Span;
      assert RingLink(allocL, 0);
      NotFirst(allocL);
      p := allocHead.next;
      if p == allocHead {
        GrowAllocList();
        assert RingLink(allocL, 0);
        assert forall j :: 0 <= j < |allocL| ==> allocL[j] in allocL;
        p := allocHead.next;
      } else {
        NoSpan(nextBlock);
      }
      TakeFromAllocList(p, h);
    }
  }

  // get_filled_chunks' loop around the ring.
  method FillRing(first: Chunk, base: nat, ghost r: seq<Chunk>, ghost h: Home)
    requires RingOk(r, h) && first == r[0]
    modifies r
    ensures RingOk(r, h) && forall c :: c in r ==> c.i == BLKS_PER_CHUNK
    ensures BlocksOf(r) == multiset(Span(base, |r| * BLKS_PER_CHUNK))
  {
    hide BlocksOf, Sum, Contents, Distinct, Span;
    var node, p := base, first;
    ghost var k := 0;
    NoBlocks(r[..0]);
    NoSpan(base);
    while true
      invariant k < |r| && p == r[k] && RingOk(r, h)
      invariant forall j :: 0 <= j < k ==> r[j].i == BLKS_PER_CHUNK
      invariant node == base + k * BLKS_PER_CHUNK
      invariant BlocksOf(r[..k]) == multiset(Span(base, k * BLKS_PER_CHUNK))
      decreases |r| - k
    {
      ghost var before := r[..k];
      NotBefore(r, k);
      FillOne(p, node, r, h);
      GrowBlocks(r, k, base, node);
      node := node + BLKS_PER_CHUNK;
      k := k + 1;
      assert RingLink(r, k - 1);
      p := p.next;
      if p == first {
        NotFirst(r);
        break;
      }
    }
    assert r[..|r|] == r;
  }

  lemma NoSpan(base: nat)
    ensures multiset(Span(base, 0)) == multiset{}
  {
  }

  lemma NoBlocks(s: seq<Chunk>)
    requires s == []
    ensures BlocksOf(s) == multiset{}
  {
  }

  lemma NotBefore(r: seq<Chunk>, k: nat)
    requires Distinct(r) && k < |r|
    ensures r[k] !in r[..k] && forall j :: 0 <= j < k ==> r[..k][j] != r[k]
  {
  }


  // The body of get_filled_chunks' loop.
  method FillOne(p: Chunk, node: nat, ghost r: seq<Chunk>, ghost h: Home)
    requires RingOk(r, h) && p in r
    modifies p
    ensures RingOk(r, h) && p.next == old(p.next)
    ensures p.i == BLKS_PER_CHUNK && p.Blocks() == Span(node, BLKS_PER_CHUNK)
  {
    p.i := BLKS_PER_CHUNK;
    p.blk := seq(BLKS_PER_CHUNK, j => node + j);
    forall j | 0 <= j < |r| ensures RingLink(r, j) { assert old(RingLink(r, j)); }
    forall c | c in r ensures ChunkOk(c, h) { assert old(ChunkOk(c, h)); }
  }

  lemma GrowBlocks(r: seq<Chunk>, k: nat, base: nat, node: nat)
    requires k < |r| && node == base + k * BLKS_PER_CHUNK
    requires BlocksOf(r[..k]) == multiset(Span(base, k * BLKS_PER_CHUNK))
    requires r[k].Blocks() == Span(node, BLKS_PER_CHUNK)
    ensures BlocksOf(r[..k + 1]) == multiset(Span(base, (k + 1) * BLKS_PER_CHUNK))
  {
    hide Sum, Contents;
    assert r[..k + 1] == r[..k] + [r[k]];
    BlocksJoin(r[..k], [r[k]]);
    BlocksOne(r[k]);
    SpanJoin(base, k * BLKS_PER_CHUNK, BLKS_PER_CHUNK);
  }

  lemma SpanJoin(base: nat, a: nat, b: nat)
    ensures Span(base, a + b) == Span(base, a) + Span(base + a, b)
  {
  }
}
