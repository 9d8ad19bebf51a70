// The lists of one thread and the operations that lib/linden/gc/gc.c offers to it: each list is
// a record of the pointers gc_st keeps for it, with its ring as ghost state.

module GcThreads {
  import opened Sequences
  import opened GcParams
  import opened ChunkRings
  import opened GcBlocks

  const CACHE_CHUNKS := 100
  const MAX_ALLOC_CHUNKS := 100

  // ---------- gc->chunk_cache ----------

  class ChunkCache {
    const t: nat
    var head: Chunk
    ghost var ring: seq<Chunk>

    ghost predicate Ok()
      reads this, ring
    {
      RingOk(ring, Cache(t)) && head == ring[0]
    }

    constructor (g: Gc, id: nat)
      requires g.Valid()
      modifies g`freeL, g.freeL
      ensures Ok() && t == id && g.Valid() && g.Blocks() == old(g.Blocks())
      ensures forall c :: c in g.freeL ==> c in old(g.freeL) || fresh(c)
      ensures forall c :: c in ring ==> c in old(g.freeL) || fresh(c)
    {
      hide BlocksOf, Distinct, RingOk;
      ghost var r;
      var first;
      t := id;
      first, r := g.TakeEmptyChunks(CACHE_CHUNKS, Cache(id));
      head, ring := first, r;
    }

    // chunk_from_cache
    method Take(g: Gc) returns (p: Chunk)
      requires Ok() && g.Valid()
      modifies this, ring, g`freeL, g.freeL
      ensures Ok() && g.Valid() && g.Blocks() == old(g.Blocks())
      ensures RingOk([p], Loose) && p.i == 0 && p in old(ring)
    {
      hide BlocksOf, Distinct, RingOk;
      NextInRing(ring, Cache(t));
      p := head.next;
      if head == p { TakeLast(g); } else { TakeNext(g, p); }
      Disjoint([p], Loose, g.freeL, FreeList);
      Disjoint([p], Loose, g.allocL, AllocList);
      Disjoint([p], Loose, ring, Cache(t));
      ResetChunk(p);
    }

    // The last chunk goes and a new ring comes.
    method TakeLast(g: Gc)
      requires Ok() && g.Valid() && |ring| == 1
      modifies this, ring, g`freeL, g.freeL
      ensures Ok() && g.Valid() && g.Blocks() == old(g.Blocks())
      ensures RingOk([old(head)], Loose)
    {
      hide BlocksOf, Distinct, RingOk;
      Disjoint(ring, Cache(t), g.freeL, FreeList);
      Disjoint(ring, Cache(t), g.allocL, AllocList);
      MakeLoose(head, ring, Cache(t));
      Disjoint([head], Loose, g.freeL, FreeList);
      ghost var r;
      head, r := g.TakeEmptyChunks(CACHE_CHUNKS, Cache(t));
      ring := r;
    }

    method TakeNext(g: Gc, p: Chunk)
      requires Ok() && g.Valid() && |ring| > 1 && p == ring[1]
      modifies this, ring
      ensures Ok() && g.Valid() && g.Blocks() == old(g.Blocks())
      ensures RingOk([p], Loose)
    {
      hide BlocksOf, Distinct, RingOk;
      Disjoint(ring, Cache(t), g.freeL, FreeList);
      Disjoint(ring, Cache(t), g.allocL, AllocList);
      ghost var r, l := TakeChunks(1, head, p, p, ring, Cache(t), Loose);
      assert r == [p];
      ring := l;
    }
  }

  lemma NextInRing(s: seq<Chunk>, h: Home)
    requires RingOk(s, h)
    ensures s[0].next == (if |s| > 1 then s[1] else s[0])
    ensures s[0].next == s[0] <==> |s| == 1
  {
    assert RingLink(s, 0);
    NotFirst(s);
  }

  ghost method MakeLoose(p: Chunk, s: seq<Chunk>, h: Home)
    requires RingOk(s, h) && |s| == 1 && p == s[0]
    modifies p
    ensures RingOk([p], Loose)
    ensures p.next == old(p.next) && p.i == old(p.i) && p.blk == old(p.blk)
  {
    assert RingLink(s, 0) && p in s && ChunkOk(p, h);
    p.home := Loose;
  }

  method ResetChunk(p: Chunk)
    requires RingOk([p], Loose)
    modifies p`i
    ensures RingOk([p], Loose) && p.i == 0
  {
    assert RingLink([p], 0);
    p.i := 0;
  }

  ghost method Claim(ch: Chunk, h: Home)
    requires RingOk([ch], Loose)
    modifies ch`home
    ensures RingOk([ch], h)
  {
    assert ch in [ch] && ChunkOk(ch, Loose) && RingLink([ch], 0);
    ch.home := h;
  }

  lemma HeadOnly(s: seq<Chunk>, h: Home)
    requires RingOk(s, h)
    ensures forall k :: 0 < k < |s| ==> s[k] != s[0]
  {
    NotFirst(s);
  }

  // ---------- gc->garbage[e] and gc->garbage_tail[e] ----------

  class GarbageList {
    const t: nat
    const e: nat
    var head: Chunk?
    var tail: Chunk?
    ghost var ring: seq<Chunk>

    constructor (id: nat, epoch: nat)
      ensures Ok() && t == id && e == epoch && Blocks() == multiset{}
    {
      hide BlocksOf;
      t, e, head, tail, ring := id, epoch, null, null, [];
      new;
      NoBlocks(ring);
    }

    // The ring starts at the newest chunk and ends at the tail; every chunk but the newest is
    // full.
    ghost predicate Ok()
      reads this, ring
    {
      if ring == [] then head == null
      else
        && RingOk(ring, Garbage(t, e)) && head == ring[0] && tail == ring[|ring| - 1]
        && forall k :: 0 < k < |ring| ==> ring[k].i == BLKS_PER_CHUNK
    }

    ghost function Blocks(): multiset<nat>
      reads this, ring
    {
      BlocksOf(ring)
    }

    method First(ch: Chunk)
      requires Ok() && head == null && RingOk([ch], Loose)
      modifies this, ch`home
      ensures Ok() && ring == [ch] && Blocks() == multiset(ch.Blocks())
    {
      hide BlocksOf, RingOk;
      head, tail, ring := ch, ch, [ch];
      Claim(ch, Garbage(t, e));
      BlocksOne(ch);
    }

    method More(new_: Chunk)
      requires Ok() && head != null && head.i == BLKS_PER_CHUNK && RingOk([new_], Loose)
      modifies this, ring, new_
      ensures Ok() && ring == [new_] + old(ring) && new_.i == old(new_.i)
      ensures Blocks() == old(multiset(new_.Blocks())) + old(Blocks())
    {
      hide BlocksOf, RingOk;
      assert forall k :: 0 <= k < |ring| ==> ring[k] in ring;
      Prepend(new_, head, tail, ring, Garbage(t, e));
      head, ring := new_, [new_] + ring;
    }

    method Put(p: nat)
      requires Ok() && head != null && head.i < BLKS_PER_CHUNK
      modifies head`i, head`blk
      ensures Ok() && Blocks() == old(Blocks()) + multiset{p}
    {
      hide BlocksOf, RingOk;
      HeadOnly(ring, Garbage(t, e));
      PutBlock(head, p, ring, Garbage(t, e));
    }

    // The global lists share no chunk with this one.
    lemma OthersApart(g: Gc)
      requires Ok() && g.Valid()
      ensures forall k :: 0 <= k < |g.freeL| ==> g.freeL[k] !in ring
      ensures forall k :: 0 <= k < |g.allocL| ==> g.allocL[k] !in ring
    {
      hide RingOk;
      DisjointOrEmpty(ring, Garbage(t, e), g.freeL, FreeList);
      DisjointOrEmpty(ring, Garbage(t, e), g.allocL, AllocList);
    }

    method AddChunk(g: Gc, cache: ChunkCache, ch: Chunk)
      requires Ok() && g.Valid() && cache.Ok() && RingOk([ch], Loose) && ch.i == 0
      requires head == null || head.i == BLKS_PER_CHUNK
      modifies this, ring, ch
      ensures Ok() && g.Valid() && cache.Ok() && g.Blocks() == old(g.Blocks())
      ensures Blocks() == old(Blocks()) && head == ch && ch.i == 0
      ensures ring == [ch] + old(ring)
    {
      hide BlocksOf, RingOk;
      OthersApart(g);
      DisjointOrEmpty(ring, Garbage(t, e), cache.ring, Cache(cache.t));
      Disjoint(cache.ring, Cache(cache.t), [ch], Loose);
      Disjoint(g.freeL, FreeList, [ch], Loose);
      Disjoint(g.allocL, AllocList, [ch], Loose);
      assert ch.Blocks() == [];
      NoBlocks([]);
      if head == null { First(ch); } else { More(ch); }
    }

    method PutIn(g: Gc, cache: ChunkCache, p: nat)
      requires Ok() && g.Valid() && cache.Ok() && head != null && head.i < BLKS_PER_CHUNK
      modifies head`i, head`blk
      ensures Ok() && g.Valid() && cache.Ok() && g.Blocks() == old(g.Blocks())
      ensures Blocks() == old(Blocks()) + multiset{p}
    {
      hide BlocksOf, RingOk;
      OthersApart(g);
      DisjointOrEmpty(ring, Garbage(t, e), cache.ring, Cache(cache.t));
      assert head in ring;
      Put(p);
    }

    lemma HeadBound()
      requires Ok() && head != null
      ensures head.i <= BLKS_PER_CHUNK && head in ring
    {
      assert head in ring;
      assert ChunkOk(head, Garbage(t, e));
    }

    // gc_free on the list of the thread's epoch.
    method Free(g: Gc, cache: ChunkCache, p: nat)
      requires Ok() && g.Valid() && cache.Ok() && cache.t == t
      modifies this, ring, cache, cache.ring, g`freeL, g.freeL
      ensures Ok() && g.Valid() && cache.Ok() && g.Blocks() == old(g.Blocks())
      ensures Blocks() == old(Blocks()) + multiset{p}
      ensures forall c :: c in ring ==> c in old(ring) || c in old(cache.ring)
    {
      hide BlocksOf, RingOk, Ok, Gc.Valid, ChunkCache.Ok;
      if head == null || head.i == BLKS_PER_CHUNK {
        var c := FreshChunk(g, cache);
        AddChunk(g, cache, c);
      } else {
        HeadBound();
      }
      PutIn(g, cache, p);
    }

    // chunk_from_cache leaves this list alone.
    method FreshChunk(g: Gc, cache: ChunkCache) returns (p: Chunk)
      requires Ok() && g.Valid() && cache.Ok() && cache.t == t
      modifies cache, cache.ring, g`freeL, g.freeL
      ensures Ok() && g.Valid() && cache.Ok() && g.Blocks() == old(g.Blocks()) && Blocks() == old(Blocks())
      ensures RingOk([p], Loose) && p.i == 0 && p in old(cache.ring)
      ensures head != null ==> head.i == old(head.i)
    {
      hide BlocksOf, RingOk;
      DisjointOrEmpty(ring, Garbage(t, e), cache.ring, Cache(t));
      DisjointOrEmpty(ring, Garbage(t, e), g.freeL, FreeList);
      p := cache.Take(g);
    }

    // gc_reclaim's work on one list: all chunks but the newest, which may not be full yet, go to
    // the allocation list.
    method MoveOld(g: Gc)
      requires Ok() && g.Valid()
      modifies this, ring, g`allocL, g.allocL
      ensures Ok() && g.Valid()
      ensures ring == if |old(ring)| > 1 then [old(ring)[0]] else old(ring)
      ensures Blocks() + g.Blocks() == old(Blocks()) + old(g.Blocks())
      ensures Blocks() == if old(ring) == [] then multiset{} else old(multiset(head.Blocks()))
      ensures forall c :: c in g.allocL ==> c in old(g.allocL) || c in old(ring)
    {
      hide BlocksOf, RingOk;
      if head == null {
        NoBlocks(ring);
      } else {
        NextInRing(ring, Garbage(t, e));
        var ch := head.next;
        if ch == head {
          assert ring == [head];
          BlocksOne(head);
        } else {
          MoveBehind(g, ch);
        }
      }
    }

    method MoveBehind(g: Gc, ch: Chunk)
      requires Ok() && g.Valid() && |ring| > 1 && ch == ring[1]
      modifies this, ring, g`allocL, g.allocL
      ensures Ok() && g.Valid() && ring == [old(ring)[0]]
      ensures Blocks() + g.Blocks() == old(Blocks()) + old(g.Blocks())
      ensures Blocks() == old(multiset(head.Blocks()))
      ensures forall c :: c in g.allocL ==> c in old(g.allocL) || c in old(ring)
    {
      hide BlocksOf, RingOk;
      ghost var r := ring[1..];
      assert forall k :: 0 <= k < |r| ==> r[k] == ring[k + 1] && r[k] in ring;
      OthersApart(g);
      Detach();
      SendOff(g, ch, r);
    }

    method Detach()
      requires Ok() && |ring| > 1
      modifies this, ring
      ensures Ok() && ring == [old(ring)[0]] && RingOk(old(ring)[1..], Loose)
      ensures Blocks() + BlocksOf(old(ring)[1..]) == old(Blocks())
      ensures Blocks() == old(multiset(head.Blocks()))
      ensures forall c :: c in old(ring) ==> c.i == old(c.i)
    {
      hide BlocksOf, RingOk;
      ghost var s := ring;
      assert forall k :: 0 <= k < |s| ==> s[k] in s;
      SplitNewest(head, tail, s, Garbage(t, e));
      ring, tail := [head], head;
      BlocksOne(head);
    }

    method SendOff(g: Gc, ch: Chunk, ghost r: seq<Chunk>)
      requires Ok() && g.Valid() && RingOk(r, Loose) && ch == r[0] && forall c :: c in r ==> c.i == BLKS_PER_CHUNK
      modifies r, g`allocL, g.allocL
      ensures Ok() && g.Valid() && Blocks() == old(Blocks())
      ensures g.Blocks() == old(g.Blocks()) + old(BlocksOf(r))
      ensures forall c :: c in g.allocL <==> c in old(g.allocL) || c in r
    {
      hide BlocksOf, RingOk;
      DisjointOrEmpty(ring, Garbage(t, e), r, Loose);
      DisjointOrEmpty(ring, Garbage(t, e), g.allocL, AllocList);
      g.AddToAllocList(ch, r, Loose);
    }
  }

  // ---------- gc->alloc and gc->alloc_chunks ----------

  // Where a chunk for a thread comes from: the allocation list as long as more than its head is on
  // it, and otherwise the heap.
  twostate predicate FromList(g: Gc, new ch: Chunk)
    reads g, ch
  {
    if |old(g.allocL)| > 1
    then ch == old(g.allocL)[1] && ch.blk == old(g.allocL[1].blk) && g.allocL == [old(g.allocL)[0]] + old(g.allocL)[2..]
         && g.nextBlock == old(g.nextBlock) && g.allocSize == old(g.allocSize)
    else g.nextBlock == old(g.nextBlock) + old(g.allocSize) * BLKS_PER_CHUNK && g.allocSize == old(g.allocSize) + old(g.allocSize) / 8
  }

  class AllocRing {
    const t: nat
    var head: Chunk
    var chunks: nat
    ghost var ring: seq<Chunk>

    // Only the current chunk holds blocks; alloc_chunks counts the others, at most 100.
    ghost predicate Ok()
      reads this, ring
    {
      && RingOk(ring, LocalAlloc(t)) && head == ring[0]
      && |ring| == chunks + 1 && chunks <= MAX_ALLOC_CHUNKS
      && forall k :: 0 < k < |ring| ==> ring[k].i == 0
    }

    ghost function Blocks(): multiset<nat>
      reads this, ring
    {
      BlocksOf(ring)
    }

    constructor (g: Gc, id: nat)
      requires g.Valid()
      modifies g`freeL, g`allocL, g`nextBlock, g`allocSize, g.freeL, g.allocL
      ensures Ok() && t == id && g.Valid()
      ensures g.nextBlock >= old(g.nextBlock)
      ensures Blocks() + g.Blocks() == old(g.Blocks()) + multiset(Span(old(g.nextBlock), g.nextBlock - old(g.nextBlock)))
    {
      hide BlocksOf, RingOk, Span;
      t := id;
      var a := g.GetAllocChunk(LocalAlloc(id));
      head, chunks, ring := a, 0, [a];
      new;
      BlocksOne(head);
    }

    lemma Apart(g: Gc)
      requires Ok() && g.Valid()
      ensures forall k :: 0 <= k < |ring| ==> ring[k] in ring && ring[k] !in g.freeL && ring[k] !in g.allocL
      ensures forall k :: 0 <= k < |g.freeL| ==> g.freeL[k] !in ring
      ensures forall k :: 0 <= k < |g.allocL| ==> g.allocL[k] !in ring
    {
      hide RingOk;
      Disjoint(ring, LocalAlloc(t), g.freeL, FreeList);
      Disjoint(ring, LocalAlloc(t), g.allocL, AllocList);
    }

    lemma AllEmpty()
      requires Ok() && head.i == 0
      ensures Blocks() == multiset{}
    {
      assert forall c :: c in ring ==> exists k :: 0 <= k < |ring| && ring[k] == c;
      EmptyBlocks(ring);
    }

    // A chunk from the main chain becomes current.
    method Refill(g: Gc)
      requires Ok() && g.Valid() && head.i == 0
      modifies this, ring, g`freeL, g`allocL, g`nextBlock, g`allocSize, g.freeL, g.allocL
      ensures Ok() && g.Valid() && head.i == BLKS_PER_CHUNK
      ensures head in old(g.allocL) || head in old(g.freeL) || head in old(ring) || fresh(head)
      ensures FromList(g, head) && chunks == if old(chunks) == MAX_ALLOC_CHUNKS then 0 else old(chunks) + 1
      ensures g.nextBlock >= old(g.nextBlock)
      ensures Blocks() + g.Blocks() == old(g.Blocks()) + multiset(Span(old(g.nextBlock), g.nextBlock - old(g.nextBlock)))
    {
      hide BlocksOf, RingOk, Span;
      if chunks == MAX_ALLOC_CHUNKS {
        chunks := 0;
        StartOver(g);
      } else {
        chunks := chunks + 1;
        AddOne(g);
      }
    }

    method StartOver(g: Gc)
      requires RingOk(ring, LocalAlloc(t)) && head == ring[0] && chunks == 0 && g.Valid()
      modifies this, ring, g`freeL, g`allocL, g`nextBlock, g`allocSize, g.freeL, g.allocL
      ensures Ok() && g.Valid() && head.i == BLKS_PER_CHUNK
      ensures head in old(g.allocL) || head in old(g.freeL) || head in old(ring) || fresh(head)
      ensures FromList(g, head) && chunks == old(chunks)
      ensures g.nextBlock >= old(g.nextBlock)
      ensures Blocks() + g.Blocks() == old(g.Blocks()) + multiset(Span(old(g.nextBlock), g.nextBlock - old(g.nextBlock)))
    {
      hide BlocksOf, RingOk, Span;
      SecondFull(g);
      GiveBack(g, g.allocL[if |g.allocL| > 1 then 1 else 0]);
      assert forall k :: 0 <= k < |g.freeL| ==> g.freeL[k] in g.freeL;
      head := g.GetAllocChunk(LocalAlloc(t));
      ring := [head];
      BlocksOne(head);
    }

    // The emptied chunks go back; those of the allocation list, p among them, stay as they are.
    method GiveBack(g: Gc, ghost p: Chunk)
      requires RingOk(ring, LocalAlloc(t)) && head == ring[0] && g.Valid() && p in g.allocL
      modifies ring, g`freeL, g.freeL
      ensures g.Valid() && g.Blocks() == old(g.Blocks())
      ensures forall c :: c in g.freeL <==> c in old(g.freeL) || c in ring
      ensures p.blk == old(p.blk)
    {
      hide BlocksOf, RingOk;
      Disjoint(ring, LocalAlloc(t), g.allocL, AllocList);
      Disjoint(g.freeL, FreeList, g.allocL, AllocList);
      g.AddToFreeList(head, ring, LocalAlloc(t));
    }

    method AddOne(g: Gc)
      requires |ring| > 0 && RingOk(ring, LocalAlloc(t)) && head == ring[0] && |ring| == chunks <= MAX_ALLOC_CHUNKS && g.Valid()
      requires forall k :: 0 <= k < |ring| ==> ring[k].i == 0
      modifies this, ring, g`freeL, g`allocL, g`nextBlock, g`allocSize, g.freeL, g.allocL
      ensures Ok() && g.Valid() && head.i == BLKS_PER_CHUNK
      ensures head in old(g.allocL) || head in old(g.freeL) || head in old(ring) || fresh(head)
      ensures FromList(g, head) && chunks == old(chunks)
      ensures g.nextBlock >= old(g.nextBlock)
      ensures Blocks() + g.Blocks() == old(g.Blocks()) + multiset(Span(old(g.nextBlock), g.nextBlock - old(g.nextBlock)))
    {
      hide BlocksOf, RingOk, Span;
      Disjoint(ring, LocalAlloc(t), g.freeL, FreeList);
      Disjoint(ring, LocalAlloc(t), g.allocL, AllocList);
      var och := head;
      var ch := g.GetAllocChunk(LocalAlloc(t));
      Hook(g, ch, och);
    }

    method Hook(g: Gc, ch: Chunk, och: Chunk)
      requires |ring| > 0 && RingOk(ring, LocalAlloc(t)) && och == ring[0] && |ring| == chunks <= MAX_ALLOC_CHUNKS && g.Valid()
      requires forall k :: 0 <= k < |ring| ==> ring[k].i == 0
      requires RingOk([ch], LocalAlloc(t)) && ch !in ring && ch.i == BLKS_PER_CHUNK
      modifies this, ring, ch
      ensures Ok() && g.Valid() && g.Blocks() == old(g.Blocks()) && head == ch && ch.i == BLKS_PER_CHUNK && chunks == old(chunks)
      ensures Blocks() == old(multiset(ch.Blocks())) && ch.blk == old(ch.blk)
    {
      hide BlocksOf, RingOk;
      Disjoint(ring, LocalAlloc(t), g.freeL, FreeList);
      Disjoint(ring, LocalAlloc(t), g.allocL, AllocList);
      Disjoint([ch], LocalAlloc(t), g.freeL, FreeList);
      Disjoint([ch], LocalAlloc(t), g.allocL, AllocList);
      Idle();
      ghost var s := ring;
      InsertBehind(ch, och, ring, LocalAlloc(t));
      head, ring := ch, [ch] + s[1..] + [och];
      NowFirst(s, ch, och);
    }

    lemma Idle()
      requires forall k :: 0 <= k < |ring| ==> ring[k].i == 0
      ensures BlocksOf(ring) == multiset{}
    {
      assert forall c :: c in ring ==> exists k :: 0 <= k < |ring| && ring[k] == c;
      EmptyBlocks(ring);
    }

    lemma NowFirst(s: seq<Chunk>, ch: Chunk, och: Chunk)
      requires |s| > 0 && och == s[0] && forall k :: 0 <= k < |s| ==> s[k].i == 0
      ensures |[ch] + s[1..] + [och]| == |s| + 1
      ensures forall k :: 0 < k < |s| + 1 ==> ([ch] + s[1..] + [och])[k].i == 0
    {
      assert forall k :: 0 < k < |s| ==> ([ch] + s[1..] + [och])[k] == s[k];
    }

    // gc_alloc: the last block of the current chunk, or of the next one from the allocation list;
    // the heap is asked only when the chunk and the list are both empty.
    method Alloc(g: Gc) returns (b: nat)
      requires Ok() && g.Valid()
      modifies this, ring, g`freeL, g`allocL, g`nextBlock, g`allocSize, g.freeL, g.allocL
      ensures Ok() && g.Valid()
      ensures g.nextBlock >= old(g.nextBlock)
      ensures old(head.i) > 0 ==>
        && old(head.i) <= |old(head.blk)| && b == old(head.blk)[old(head.i) - 1]
        && head == old(head) && chunks == old(chunks) && g.allocL == old(g.allocL) && g.nextBlock == old(g.nextBlock)
      ensures old(head.i) == 0 ==> chunks == if old(chunks) == MAX_ALLOC_CHUNKS then 0 else old(chunks) + 1
      ensures old(head.i) == 0 && |old(g.allocL)| > 1 ==>
        && |old(g.allocL[1].blk)| == BLKS_PER_CHUNK && b == old(g.allocL[1].blk)[BLKS_PER_CHUNK - 1]
        && g.allocL == [old(g.allocL)[0]] + old(g.allocL)[2..] && g.nextBlock == old(g.nextBlock)
      ensures old(head.i) == 0 && |old(g.allocL)| == 1 ==> g.nextBlock == old(g.nextBlock) + old(g.allocSize) * BLKS_PER_CHUNK
      ensures Blocks() + g.Blocks() + multiset{b}
           == old(Blocks()) + old(g.Blocks()) + multiset(Span(old(g.nextBlock), g.nextBlock - old(g.nextBlock)))
    {
      hide BlocksOf, RingOk, Span, Ok, Gc.Valid, Blocks;
      SecondFull(g);
      if head.i == 0 {
        AllEmpty();
        Refill(g);
        assert multiset{} + old(g.Blocks()) == old(g.Blocks());
      } else {
        NoSpan(g.nextBlock);
        HeadIn();
      }
      b := Pop(g);
      assert Blocks() + g.Blocks() + multiset{b} == (Blocks() + multiset{b}) + g.Blocks();
    }

    lemma SecondFull(g: Gc)
      requires g.Valid()
      ensures |g.allocL| > 0 && (|g.allocL| > 1 ==> |g.allocL[1].blk| == BLKS_PER_CHUNK && g.allocL[1].i == BLKS_PER_CHUNK)
    {
      assert |g.allocL| > 1 ==> g.allocL[1] in g.allocL && ChunkOk(g.allocL[1], AllocList);
    }

    lemma HeadIn()
      requires Ok()
      ensures head in ring
    {
    }

    method Pop(g: Gc) returns (b: nat)
      requires Ok() && g.Valid() && head.i > 0
      modifies head`i
      ensures Ok() && g.Valid() && g.Blocks() == old(g.Blocks()) && Blocks() + multiset{b} == old(Blocks())
      ensures old(head.i) <= |head.blk| && b == head.blk[old(head.i) - 1]
    {
      hide BlocksOf, RingOk;
      Apart(g);
      HeadOnly(ring, LocalAlloc(t));
      b := TakeBlock(head, ring, LocalAlloc(t));
    }

    // The first branch of gc_unsafe_free.
    method Put(g: Gc, p: nat)
      requires Ok() && g.Valid() && head.i < BLKS_PER_CHUNK
      modifies head`i, head`blk
      ensures Ok() && g.Valid() && g.Blocks() == old(g.Blocks()) && Blocks() == old(Blocks()) + multiset{p}
    {
      hide BlocksOf, RingOk;
      Apart(g);
      HeadOnly(ring, LocalAlloc(t));
      PutBlock(head, p, ring, LocalAlloc(t));
    }
  }
}
