// All threads and the global lists together: every block obtained from the heap is in exactly
// one place.

module GcSystem {
  import opened GcParams
  import opened ChunkRings
  import opened GcBlocks
  import opened GcThreads

  // What gc_reclaim leaves of a garbage ring.
  function Newest(s: seq<Chunk>): seq<Chunk> {
    if |s| > 1 then [s[0]] else s
  }

  class GcThread {
    const id: nat
    var epoch: nat
    const alloc: AllocRing
    const cache: ChunkCache
    const garbage0: GarbageList
    const garbage1: GarbageList
    const garbage2: GarbageList

    // gc_init
    constructor (g: Gc, t: nat)
      requires g.Valid()
      modifies g`freeL, g`allocL, g`nextBlock, g`allocSize, g.freeL, g.allocL
      ensures Valid() && id == t && g.Valid()
      ensures g.nextBlock >= old(g.nextBlock)
      ensures Blocks() + g.Blocks() == old(g.Blocks()) + multiset(Span(old(g.nextBlock), g.nextBlock - old(g.nextBlock)))
    {
      hide RingOk, BlocksOf, Span, AllocRing.Ok, GarbageList.Ok, ChunkCache.Ok, AllocRing.Blocks, GarbageList.Blocks, Gc.Valid, Gc.Blocks;
      var c, a := NewLists(g, t);
      var g0, g1, g2 := NewGarbage(t);
      id, epoch, cache, alloc, garbage0, garbage1, garbage2 := t, 0, c, a, g0, g1, g2;
      new;
    }

    function List(e: nat): GarbageList {
      if e == 0 then garbage0 else if e == 1 then garbage1 else garbage2
    }

    ghost predicate Valid()
      reads this, alloc, alloc.ring, cache, cache.ring
      reads garbage0, garbage0.ring, garbage1, garbage1.ring, garbage2, garbage2.ring
    {
      && epoch < NR_EPOCHS
      && alloc.t == id && cache.t == id && garbage0.t == id && garbage1.t == id && garbage2.t == id
      && garbage0.e == 0 && garbage1.e == 1 && garbage2.e == 2
      && alloc.Ok() && cache.Ok() && garbage0.Ok() && garbage1.Ok() && garbage2.Ok()
    }

    ghost function Blocks(): multiset<nat>
      reads this, alloc, alloc.ring
      reads garbage0, garbage0.ring, garbage1, garbage1.ring, garbage2, garbage2.ring
    {
      alloc.Blocks() + (garbage0.Blocks() + garbage1.Blocks() + garbage2.Blocks())
    }

    // None of this thread's chunks is on s.
    ghost predicate Off(s: seq<Chunk>)
      reads this, alloc, cache, garbage0, garbage1, garbage2
    {
      && (forall k :: 0 <= k < |alloc.ring| ==> alloc.ring[k] !in s)
      && (forall k :: 0 <= k < |cache.ring| ==> cache.ring[k] !in s)
      && (forall k :: 0 <= k < |garbage0.ring| ==> garbage0.ring[k] !in s)
      && (forall k :: 0 <= k < |garbage1.ring| ==> garbage1.ring[k] !in s)
      && (forall k :: 0 <= k < |garbage2.ring| ==> garbage2.ring[k] !in s)
    }

    // This thread shares no chunk and no list with thread o or the global lists.
    ghost predicate Clear(o: GcThread, g: Gc)
      reads this, alloc, cache, garbage0, garbage1, garbage2, g
      reads o, o.alloc, o.cache, o.garbage0, o.garbage1, o.garbage2
    {
      && Off(o.alloc.ring) && Off(o.cache.ring) && Off(o.garbage0.ring) && Off(o.garbage1.ring) && Off(o.garbage2.ring)
      && Off(g.freeL) && Off(g.allocL)
      && alloc != o.alloc && cache != o.cache
      && {garbage0, garbage1, garbage2} !! {o.garbage0, o.garbage1, o.garbage2}
    }

    lemma ClearOf(o: GcThread, g: Gc)
      requires Valid() && o.Valid() && id != o.id && g.Valid()
      ensures Clear(o, g)
    {
      hide RingOk, Off;
      OffForeign(o.alloc.ring, LocalAlloc(o.id));
      OffForeign(o.cache.ring, Cache(o.id));
      OffForeign(o.garbage0.ring, Garbage(o.id, 0));
      OffForeign(o.garbage1.ring, Garbage(o.id, 1));
      OffForeign(o.garbage2.ring, Garbage(o.id, 2));
      OffForeign(g.freeL, FreeList);
      OffForeign(g.allocL, AllocList);
    }

    lemma OffForeign(s: seq<Chunk>, h: Home)
      requires Valid() && (s == [] || RingOk(s, h))
      requires h != LocalAlloc(id) && h != Cache(id) && forall e :: h != Garbage(id, e)
      ensures Off(s)
    {
      hide RingOk;
      DisjointOrEmpty(alloc.ring, LocalAlloc(id), s, h);
      DisjointOrEmpty(cache.ring, Cache(id), s, h);
      DisjointOrEmpty(garbage0.ring, Garbage(id, 0), s, h);
      DisjointOrEmpty(garbage1.ring, Garbage(id, 1), s, h);
      DisjointOrEmpty(garbage2.ring, Garbage(id, 2), s, h);
    }

    // The allocation ring shares no chunk with the other lists.
    lemma AllocApart()
      requires Valid()
      ensures forall k :: 0 <= k < |cache.ring| ==> cache.ring[k] !in alloc.ring
      ensures forall k :: 0 <= k < |garbage0.ring| ==> garbage0.ring[k] !in alloc.ring
      ensures forall k :: 0 <= k < |garbage1.ring| ==> garbage1.ring[k] !in alloc.ring
      ensures forall k :: 0 <= k < |garbage2.ring| ==> garbage2.ring[k] !in alloc.ring
    {
      hide RingOk;
      DisjointOrEmpty(cache.ring, Cache(id), alloc.ring, LocalAlloc(id));
      DisjointOrEmpty(garbage0.ring, Garbage(id, 0), alloc.ring, LocalAlloc(id));
      DisjointOrEmpty(garbage1.ring, Garbage(id, 1), alloc.ring, LocalAlloc(id));
      DisjointOrEmpty(garbage2.ring, Garbage(id, 2), alloc.ring, LocalAlloc(id));
    }

    // Garbage ring e shares no chunk with the other lists.
    lemma GarbageApart(e: nat)
      requires Valid() && e < NR_EPOCHS
      ensures forall k :: 0 <= k < |alloc.ring| ==> alloc.ring[k] !in List(e).ring
      ensures forall k :: 0 <= k < |cache.ring| ==> cache.ring[k] !in List(e).ring
      ensures e != 0 ==> forall k :: 0 <= k < |garbage0.ring| ==> garbage0.ring[k] !in List(e).ring
      ensures e != 1 ==> forall k :: 0 <= k < |garbage1.ring| ==> garbage1.ring[k] !in List(e).ring
      ensures e != 2 ==> forall k :: 0 <= k < |garbage2.ring| ==> garbage2.ring[k] !in List(e).ring
    {
      hide RingOk;
      DisjointOrEmpty(alloc.ring, LocalAlloc(id), List(e).ring, Garbage(id, e));
      DisjointOrEmpty(cache.ring, Cache(id), List(e).ring, Garbage(id, e));
      if e != 0 { DisjointOrEmpty(garbage0.ring, Garbage(id, 0), List(e).ring, Garbage(id, e)); }
      if e != 1 { DisjointOrEmpty(garbage1.ring, Garbage(id, 1), List(e).ring, Garbage(id, e)); }
      if e != 2 { DisjointOrEmpty(garbage2.ring, Garbage(id, 2), List(e).ring, Garbage(id, e)); }
    }

    // The cache shares no chunk with the other lists.
    lemma CacheApart()
      requires Valid()
      ensures forall k :: 0 <= k < |alloc.ring| ==> alloc.ring[k] !in cache.ring
      ensures forall k :: 0 <= k < |garbage0.ring| ==> garbage0.ring[k] !in cache.ring
      ensures forall k :: 0 <= k < |garbage1.ring| ==> garbage1.ring[k] !in cache.ring
      ensures forall k :: 0 <= k < |garbage2.ring| ==> garbage2.ring[k] !in cache.ring
    {
      hide RingOk;
      DisjointOrEmpty(alloc.ring, LocalAlloc(id), cache.ring, Cache(id));
      DisjointOrEmpty(garbage0.ring, Garbage(id, 0), cache.ring, Cache(id));
      DisjointOrEmpty(garbage1.ring, Garbage(id, 1), cache.ring, Cache(id));
      DisjointOrEmpty(garbage2.ring, Garbage(id, 2), cache.ring, Cache(id));
    }

    // gc_free: the block becomes garbage of the epoch the thread has seen.
    method Free(g: Gc, p: nat)
      requires Valid() && g.Valid()
      modifies List(epoch), List(epoch).ring, cache, cache.ring, g`freeL, g.freeL
      ensures Valid() && g.Valid() && g.Blocks() == old(g.Blocks())
      ensures List(epoch).Blocks() == old(List(epoch).Blocks()) + multiset{p}
      ensures Blocks() == old(Blocks()) + multiset{p}
    {
      hide RingOk, BlocksOf, AllocRing.Blocks, GarbageList.Blocks, AllocRing.Ok, GarbageList.Ok, ChunkCache.Ok;
      CacheApart();
      GarbageApart(epoch);
      OffForeign(g.freeL, FreeList);
      List(epoch).Free(g, cache, p);
    }

    // The first branch of gc_unsafe_free.
    method PutBack(g: Gc, p: nat)
      requires Valid() && g.Valid() && alloc.head.i < BLKS_PER_CHUNK
      modifies alloc.head`i, alloc.head`blk
      ensures Valid() && g.Valid() && g.Blocks() == old(g.Blocks()) && alloc.head in alloc.ring
      ensures Blocks() == old(Blocks()) + multiset{p} && alloc.Blocks() == old(alloc.Blocks()) + multiset{p}
    {
      hide RingOk, BlocksOf, AllocRing.Blocks, GarbageList.Blocks, AllocRing.Ok, GarbageList.Ok, ChunkCache.Ok;
      AllocApart();
      alloc.HeadIn();
      alloc.Put(g, p);
    }

    // The store to gc->epoch in gc_enter.
    method See(e: nat)
      requires Valid() && e < NR_EPOCHS
      modifies this
      ensures Valid() && epoch == e && Blocks() == old(Blocks())
    {
      hide RingOk, BlocksOf, AllocRing.Blocks, GarbageList.Blocks, AllocRing.Ok, GarbageList.Ok, ChunkCache.Ok;
      epoch := e;
    }

    // gc_reclaim's work on garbage list e of this thread.
    method Move(g: Gc, e: nat)
      requires Valid() && g.Valid() && e < NR_EPOCHS
      modifies List(e), List(e).ring, g`allocL, g.allocL
      ensures Valid() && g.Valid()
      ensures Blocks() + g.Blocks() == old(Blocks()) + old(g.Blocks())
      ensures List(e).ring == Newest(old(List(e).ring))
      ensures forall c :: c in g.allocL ==> c in old(g.allocL) || c in old(List(e).ring)
    {
      hide RingOk, BlocksOf, AllocRing.Blocks, GarbageList.Blocks, AllocRing.Ok, GarbageList.Ok, ChunkCache.Ok;
      GarbageApart(e);
      OffForeign(g.allocL, AllocList);
      List(e).MoveOld(g);
      MoveSum(alloc.Blocks(), garbage0.Blocks(), garbage1.Blocks(), garbage2.Blocks(), old(garbage0.Blocks()),
              old(garbage1.Blocks()), old(garbage2.Blocks()), g.Blocks(), old(g.Blocks()), e);
    }

    method Alloc(g: Gc) returns (b: nat)
      requires Valid() && g.Valid()
      modifies g, g.freeL, g.allocL, alloc, alloc.ring
      ensures Valid() && g.Valid()
      ensures g.nextBlock >= old(g.nextBlock)
      ensures Blocks() + g.Blocks() + multiset{b}
           == old(Blocks()) + old(g.Blocks()) + multiset(Span(old(g.nextBlock), g.nextBlock - old(g.nextBlock)))
    {
      hide RingOk, BlocksOf, Span, AllocRing.Blocks, GarbageList.Blocks, AllocRing.Ok, GarbageList.Ok, ChunkCache.Ok;
      AllocApart();
      OffForeign(g.freeL, FreeList);
      OffForeign(g.allocL, AllocList);
      b := alloc.Alloc(g);
      Regroup(alloc.Blocks(), old(alloc.Blocks()), garbage0.Blocks() + garbage1.Blocks() + garbage2.Blocks(),
              g.Blocks(), old(g.Blocks()), multiset{b}, multiset(Span(old(g.nextBlock), g.nextBlock - old(g.nextBlock))));
    }
  }

  method NewLists(g: Gc, t: nat) returns (c: ChunkCache, a: AllocRing)
    requires g.Valid()
    modifies g`freeL, g`allocL, g`nextBlock, g`allocSize, g.freeL, g.allocL
    ensures fresh(c) && fresh(a) && c.Ok() && a.Ok() && c.t == t && a.t == t && g.Valid()
    ensures g.nextBlock >= old(g.nextBlock)
    ensures a.Blocks() + g.Blocks() == old(g.Blocks()) + multiset(Span(old(g.nextBlock), g.nextBlock - old(g.nextBlock)))
  {
    hide RingOk, BlocksOf, Span;
    c := new ChunkCache(g, t);
    Disjoint(c.ring, Cache(t), g.freeL, FreeList);
    Disjoint(c.ring, Cache(t), g.allocL, AllocList);
    a := new AllocRing(g, t);
  }

  method NewGarbage(t: nat) returns (g0: GarbageList, g1: GarbageList, g2: GarbageList)
    ensures g0.Ok() && g1.Ok() && g2.Ok() && g0.t == g1.t == g2.t == t && g0.e == 0 && g1.e == 1 && g2.e == 2
    ensures g0.Blocks() + g1.Blocks() + g2.Blocks() == multiset{}
    ensures fresh(g0) && fresh(g1) && fresh(g2)
  {
    hide RingOk, BlocksOf;
    g0 := new GarbageList(t, 0);
    g1 := new GarbageList(t, 1);
    g2 := new GarbageList(t, 2);
  }

  lemma Regroup(a: multiset<nat>, a0: multiset<nat>, rest: multiset<nat>, g: multiset<nat>, g0: multiset<nat>, b: multiset<nat>, m: multiset<nat>)
    requires a + g + b == a0 + g0 + m
    ensures (a + rest) + g + b == (a0 + rest) + g0 + m
  {
    forall x ensures ((a + rest) + g + b)[x] == ((a0 + rest) + g0 + m)[x] {
      assert (a + g + b)[x] == (a0 + g0 + m)[x];
    }
  }

  lemma MoveSum(a: multiset<nat>, x0: multiset<nat>, x1: multiset<nat>, x2: multiset<nat>, y0: multiset<nat>,
                y1: multiset<nat>, y2: multiset<nat>, g: multiset<nat>, h: multiset<nat>, e: nat)
    requires e != 0 ==> x0 == y0
    requires e != 1 ==> x1 == y1
    requires e == 0 || e == 1 ==> x2 == y2
    requires if e == 0 then x0 + g == y0 + h else if e == 1 then x1 + g == y1 + h else x2 + g == y2 + h
    ensures (a + (x0 + x1 + x2)) + g == (a + (y0 + y1 + y2)) + h
  {
    forall b ensures ((a + (x0 + x1 + x2)) + g)[b] == ((a + (y0 + y1 + y2)) + h)[b] {
      assert e == 0 ==> (x0 + g)[b] == (y0 + h)[b];
      assert e == 1 ==> (x1 + g)[b] == (y1 + h)[b];
      assert e != 0 && e != 1 ==> (x2 + g)[b] == (y2 + h)[b];
    }
  }

  // ---------- the whole heap ----------

  ghost function Total(held: seq<multiset<nat>>): multiset<nat> {
    if held == [] then multiset{} else Total(held[..|held| - 1]) + held[|held| - 1]
  }

  // held[j] are the blocks on the lists of thread j, `out` those in the hands of the program:
  // together with the global list they are the blocks obtained from the heap.
  ghost predicate Sound(gc: Gc, threads: seq<GcThread>, held: seq<multiset<nat>>, out: multiset<nat>)
    reads *
  {
    && gc.Valid() && |held| == |threads|
    && (forall j :: 0 <= j < |threads| ==> threads[j].Valid() && threads[j].id == j && threads[j].Blocks() == held[j])
    && Total(held) + gc.Blocks() + out == multiset(Span(0, gc.nextBlock))
  }

  lemma {:induction false} TotalAt(held: seq<multiset<nat>>, k: nat)
    requires k < |held|
    ensures held[k] <= Total(held)
  {
    var n := |held| - 1;
    if k < n {
      TotalAt(held[..n], k);
      assert held[..n][k] == held[k];
    }
  }

  // Each block is in one place: on the lists of one thread, on the global list, or handed out.
  lemma OnePlace(gc: Gc, threads: seq<GcThread>, held: seq<multiset<nat>>, out: multiset<nat>, b: nat)
    requires Sound(gc, threads, held, out)
    ensures Total(held)[b] + gc.Blocks()[b] + out[b] == if b < gc.nextBlock then 1 else 0
    ensures forall j, k :: 0 <= j < k < |threads| && b in threads[j].Blocks() ==> b !in threads[k].Blocks()
  {
    SpanOnce(0, gc.nextBlock, b);
    assert (Total(held) + gc.Blocks() + out)[b] == multiset(Span(0, gc.nextBlock))[b];
    forall j, k | 0 <= j < k < |threads| && b in threads[j].Blocks() ensures b !in threads[k].Blocks() {
      TwoHold(held, j, k, b);
      assert held[j] == threads[j].Blocks() && held[k] == threads[k].Blocks();
    }
  }

  lemma {:induction false} TwoHold(held: seq<multiset<nat>>, j: nat, k: nat, b: nat)
    requires j < k < |held|
    ensures held[j][b] + held[k][b] <= Total(held)[b]
  {
    var n := |held| - 1;
    if k < n {
      TwoHold(held[..n], j, k, b);
    } else {
      TotalAt(held[..n], j);
      assert held[..n][j] == held[j];
    }
  }

  lemma {:induction false} SpanOnce(base: nat, n: nat, b: nat)
    ensures multiset(Span(base, n))[b] == if base <= b < base + n then 1 else 0
  {
    if n > 0 {
      SpanOnce(base, n - 1, b);
      assert Span(base, n) == Span(base, n - 1) + [base + n - 1];
    }
  }

  lemma {:induction false} TotalUpdate(held: seq<multiset<nat>>, k: nat, h: multiset<nat>)
    requires k < |held|
    ensures Total(held[k := h]) + held[k] == Total(held) + h
  {
    var n := |held| - 1;
    if k < n {
      TotalUpdate(held[..n], k, h);
      assert held[k := h][..n] == held[..n][k := h];
      Swap(Total(held[..n]), Total(held[..n][k := h]), held[k], h, held[n]);
    } else {
      assert held[k := h][..n] == held[..n];
    }
  }

  lemma Swap(a: multiset<nat>, a': multiset<nat>, o: multiset<nat>, h: multiset<nat>, z: multiset<nat>)
    requires a' + o == a + h
    ensures (a' + z) + o == (a + z) + h
  {
    forall x ensures ((a' + z) + o)[x] == ((a + z) + h)[x] { assert (a' + o)[x] == (a + h)[x]; }
  }

  // ---------- the operations ----------

  lemma SpanGrows(a: nat, b: nat)
    requires a <= b
    ensures multiset(Span(0, a)) + multiset(Span(a, b - a)) == multiset(Span(0, b))
  {
    assert Span(0, b) == Span(0, a) + Span(a, b - a);
  }

  // One thread's books and the whole.
  lemma RebalanceAlloc(total: multiset<nat>, total': multiset<nat>, h: multiset<nat>, h': multiset<nat>,
                       g: multiset<nat>, g': multiset<nat>, out: multiset<nat>, b: nat, all: multiset<nat>, new_: multiset<nat>)
    requires total' + h == total + h'
    requires h' + g' + multiset{b} == h + g + new_
    requires total + g + out == all
    ensures total' + g' + (out + multiset{b}) == all + new_
  {
    forall x ensures (total' + g' + (out + multiset{b}))[x] == (all + new_)[x] {
      assert (total' + h)[x] == (total + h')[x];
      assert (h' + g' + multiset{b})[x] == (h + g + new_)[x];
      assert (total + g + out)[x] == all[x];
    }
  }

  lemma RebalanceFree(total: multiset<nat>, total': multiset<nat>, h: multiset<nat>, h': multiset<nat>,
                      g: multiset<nat>, out: multiset<nat>, p: nat, all: multiset<nat>)
    requires total' + h == total + h' && h' == h + multiset{p} && total + g + out == all && p in out
    ensures total' + g + (out - multiset{p}) == all
  {
    forall x ensures (total' + g + (out - multiset{p}))[x] == all[x] {
      assert (total' + h)[x] == (total + h')[x];
      assert (total + g + out)[x] == all[x];
    }
  }

  lemma RebalanceMove(total: multiset<nat>, total': multiset<nat>, h: multiset<nat>, h': multiset<nat>,
                      g: multiset<nat>, g': multiset<nat>, out: multiset<nat>, all: multiset<nat>)
    requires total' + h == total + h' && h' + g' == h + g && total + g + out == all
    ensures total' + g' + out == all
  {
    forall x ensures (total' + g' + out)[x] == all[x] {
      assert (total' + h)[x] == (total + h')[x];
      assert (h' + g')[x] == (h + g)[x];
      assert (total + g + out)[x] == all[x];
    }
  }

  lemma OthersClear(gc: Gc, threads: seq<GcThread>, held: seq<multiset<nat>>, out: multiset<nat>, k: nat)
    requires Sound(gc, threads, held, out) && k < |threads|
    ensures forall j :: 0 <= j < |threads| && j != k ==> threads[j].Clear(threads[k], gc)
  {
    hide GcThread.Valid, GcThread.Clear, GcThread.Blocks, Gc.Valid, Span, Total;
    forall j | 0 <= j < |threads| && j != k ensures threads[j].Clear(threads[k], gc) {
      threads[j].ClearOf(threads[k], gc);
    }
  }

  // gc_alloc by thread k.
  method Alloc(gc: Gc, threads: seq<GcThread>, k: nat, ghost held: seq<multiset<nat>>, ghost out: multiset<nat>)
    returns (b: nat, ghost held': seq<multiset<nat>>)
    requires Sound(gc, threads, held, out) && k < |threads|
    modifies gc, gc.freeL, gc.allocL, threads[k].alloc, threads[k].alloc.ring
    ensures Sound(gc, threads, held', out + multiset{b})
  {
    hide GcThread.Valid, GcThread.Blocks, Gc.Valid, Gc.Blocks, Span, Total;
    var t := threads[k];
    OthersClear(gc, threads, held, out, k);
    b := t.Alloc(gc);
    held' := held[k := t.Blocks()];
    TotalUpdate(held, k, t.Blocks());
    SpanGrows(old(gc.nextBlock), gc.nextBlock);
    RebalanceAlloc(Total(held), Total(held'), held[k], held'[k], old(gc.Blocks()), gc.Blocks(), out, b,
                   multiset(Span(0, old(gc.nextBlock))), multiset(Span(old(gc.nextBlock), gc.nextBlock - old(gc.nextBlock))));
  }

  // gc_free by thread k of a block it was handed.
  method Free(gc: Gc, threads: seq<GcThread>, k: nat, p: nat, ghost held: seq<multiset<nat>>, ghost out: multiset<nat>)
    returns (ghost held': seq<multiset<nat>>)
    requires Sound(gc, threads, held, out) && k < |threads| && p in out
    modifies gc`freeL, gc.freeL, threads[k].cache, threads[k].cache.ring
    modifies threads[k].List(threads[k].epoch), threads[k].List(threads[k].epoch).ring
    ensures Sound(gc, threads, held', out - multiset{p})
    ensures threads[k].List(threads[k].epoch).Blocks() == old(threads[k].List(threads[k].epoch).Blocks()) + multiset{p}
  {
    hide GcThread.Valid, GcThread.Blocks, GarbageList.Blocks, Gc.Valid, Gc.Blocks, Span, Total;
    var t := threads[k];
    OthersClear(gc, threads, held, out, k);
    t.Free(gc, p);
    held' := held[k := t.Blocks()];
    TotalUpdate(held, k, t.Blocks());
    RebalanceFree(Total(held), Total(held'), held[k], held'[k], gc.Blocks(), out, p, multiset(Span(0, gc.nextBlock)));
  }

  // gc_unsafe_free by thread k of a block it was handed: at once available again to this thread
  // if its current chunk has room, garbage of its epoch otherwise.
  method UnsafeFree(gc: Gc, threads: seq<GcThread>, k: nat, p: nat, ghost held: seq<multiset<nat>>, ghost out: multiset<nat>)
    returns (ghost held': seq<multiset<nat>>)
    requires Sound(gc, threads, held, out) && k < |threads| && p in out
    modifies gc`freeL, gc.freeL, threads[k].cache, threads[k].cache.ring
    modifies threads[k].alloc.head`i, threads[k].alloc.head`blk
    modifies threads[k].List(threads[k].epoch), threads[k].List(threads[k].epoch).ring
    ensures Sound(gc, threads, held', out - multiset{p})
    ensures if old(threads[k].alloc.head.i) < BLKS_PER_CHUNK
            then threads[k].alloc.Blocks() == old(threads[k].alloc.Blocks()) + multiset{p}
            else threads[k].List(threads[k].epoch).Blocks() == old(threads[k].List(threads[k].epoch).Blocks()) + multiset{p}
  {
    hide Sound, GcThread.Valid, GcThread.Blocks, GarbageList.Blocks, AllocRing.Blocks, Gc.Valid, Gc.Blocks, Span, Total;
    if threads[k].alloc.head.i < BLKS_PER_CHUNK {
      held' := PutBack(gc, threads, k, p, held, out);
    } else {
      held' := Free(gc, threads, k, p, held, out);
    }
  }

  method PutBack(gc: Gc, threads: seq<GcThread>, k: nat, p: nat, ghost held: seq<multiset<nat>>, ghost out: multiset<nat>)
    returns (ghost held': seq<multiset<nat>>)
    requires Sound(gc, threads, held, out) && k < |threads| && p in out && threads[k].alloc.head.i < BLKS_PER_CHUNK
    modifies threads[k].alloc.head`i, threads[k].alloc.head`blk
    ensures Sound(gc, threads, held', out - multiset{p})
    ensures threads[k].alloc.Blocks() == old(threads[k].alloc.Blocks()) + multiset{p}
  {
    hide GcThread.Valid, GcThread.Blocks, AllocRing.Blocks, Gc.Valid, Gc.Blocks, Span, Total;
    var t := threads[k];
    OthersClear(gc, threads, held, out, k);
    t.PutBack(gc, p);
    held' := held[k := t.Blocks()];
    TotalUpdate(held, k, t.Blocks());
    RebalanceFree(Total(held), Total(held'), held[k], held'[k], gc.Blocks(), out, p, multiset(Span(0, gc.nextBlock)));
  }

  // gc_enter: thread k notes another epoch.
  method SeeEpoch(gc: Gc, threads: seq<GcThread>, k: nat, e: nat, ghost held: seq<multiset<nat>>, ghost out: multiset<nat>)
    requires Sound(gc, threads, held, out) && k < |threads| && e < NR_EPOCHS
    modifies threads[k]
    ensures Sound(gc, threads, held, out) && threads[k].epoch == e
  {
    hide GcThread.Valid, GcThread.Blocks, Gc.Valid, Gc.Blocks, Span, Total;
    threads[k].See(e);
  }

  // gc_reclaim's work on garbage list e of thread k.
  method Move(gc: Gc, threads: seq<GcThread>, k: nat, e: nat, ghost held: seq<multiset<nat>>, ghost out: multiset<nat>)
    returns (ghost held': seq<multiset<nat>>)
    requires Sound(gc, threads, held, out) && k < |threads| && e < NR_EPOCHS
    modifies gc`allocL, gc.allocL, threads[k].List(e), threads[k].List(e).ring
    ensures Sound(gc, threads, held', out)
    ensures threads[k].List(e).ring == Newest(old(threads[k].List(e).ring))
    ensures forall c :: c in gc.allocL ==> c in old(gc.allocL) || c in old(threads[k].List(e).ring)
    ensures forall j :: 0 <= j < |threads| && j != k ==> threads[j].List(e).ring == old(threads[j].List(e).ring)
  {
    hide GcThread.Valid, GcThread.Blocks, Gc.Valid, Gc.Blocks, Span, Total;
    var t := threads[k];
    OthersClear(gc, threads, held, out, k);
    t.Move(gc, e);
    held' := held[k := t.Blocks()];
    TotalUpdate(held, k, t.Blocks());
    RebalanceMove(Total(held), Total(held'), held[k], held'[k], old(gc.Blocks()), gc.Blocks(), out, multiset(Span(0, gc.nextBlock)));
  }

  // gc_reclaim's loop over all threads.
  method MoveAll(gc: Gc, threads: seq<GcThread>, e: nat, ghost held: seq<multiset<nat>>, ghost out: multiset<nat>)
    returns (ghost held': seq<multiset<nat>>)
    requires Sound(gc, threads, held, out) && e < NR_EPOCHS
    modifies gc`allocL, gc.allocL
    modifies set j | 0 <= j < |threads| :: threads[j].List(e)
    modifies set j, c | 0 <= j < |threads| && c in threads[j].List(e).ring :: c
    ensures Sound(gc, threads, held', out)
    ensures forall j :: 0 <= j < |threads| ==> threads[j].List(e).ring == Newest(old(threads[j].List(e).ring))
  {
    hide Sound, Newest;
    held' := held;
    var k := 0;
    while k < |threads|
      invariant k <= |threads| && Sound(gc, threads, held', out)
      invariant forall j :: 0 <= j < k ==> threads[j].List(e).ring == Newest(old(threads[j].List(e).ring))
      invariant forall j :: k <= j < |threads| ==> threads[j].List(e).ring == old(threads[j].List(e).ring)
      invariant forall c :: c in gc.allocL ==>
        c in old(gc.allocL) || exists j :: 0 <= j < k && c in old(threads[j].List(e).ring)
    {
      assert forall i :: 0 <= i < |gc.allocL| ==> gc.allocL[i] in gc.allocL;
      assert forall i :: 0 <= i < |threads[k].List(e).ring| ==> threads[k].List(e).ring[i] in threads[k].List(e).ring;
      held' := Move(gc, threads, k, e, held', out);
      k := k + 1;
    }
  }

  // The collector before any thread has registered.
  method Start() returns (gc: Gc)
    ensures Sound(gc, [], [], multiset{})
  {
    hide BlocksOf, Span;
    gc := new Gc();
  }

  // A thread registers.
  method Register(gc: Gc, threads: seq<GcThread>, ghost held: seq<multiset<nat>>, ghost out: multiset<nat>)
    returns (threads': seq<GcThread>, ghost held': seq<multiset<nat>>)
    requires Sound(gc, threads, held, out)
    modifies gc, gc.freeL, gc.allocL
    ensures |threads'| == |threads| + 1 && threads' == threads + [threads'[|threads|]]
    ensures Sound(gc, threads', held', out)
  {
    hide GcThread.Valid, GcThread.Blocks, Gc.Valid, Gc.Blocks, Span, Total;
    ListsOff(gc, threads, held, out);
    var t := new GcThread(gc, |threads|);
    threads', held' := threads + [t], held + [t.Blocks()];
    assert held'[..|held|] == held;
    TotalMore(held, t.Blocks());
    SpanGrows(old(gc.nextBlock), gc.nextBlock);
    RebalanceNew(Total(held), t.Blocks(), old(gc.Blocks()), gc.Blocks(), out,
                 multiset(Span(0, old(gc.nextBlock))), multiset(Span(old(gc.nextBlock), gc.nextBlock - old(gc.nextBlock))));
  }

  lemma ListsOff(gc: Gc, threads: seq<GcThread>, held: seq<multiset<nat>>, out: multiset<nat>)
    requires Sound(gc, threads, held, out)
    ensures forall j :: 0 <= j < |threads| ==> threads[j].Off(gc.freeL) && threads[j].Off(gc.allocL)
  {
    hide GcThread.Off, GcThread.Valid, GcThread.Blocks, RingOk, Span, Total;
    forall j | 0 <= j < |threads| ensures threads[j].Off(gc.freeL) && threads[j].Off(gc.allocL) {
      threads[j].OffForeign(gc.freeL, FreeList);
      threads[j].OffForeign(gc.allocL, AllocList);
    }
  }

  lemma TotalMore(held: seq<multiset<nat>>, h: multiset<nat>)
    ensures Total(held + [h]) == Total(held) + h
  {
    assert (held + [h])[..|held|] == held;
  }

  lemma RebalanceNew(total: multiset<nat>, h: multiset<nat>, g: multiset<nat>, g': multiset<nat>, out: multiset<nat>,
                     all: multiset<nat>, new_: multiset<nat>)
    requires h + g' == g + new_ && total + g + out == all
    ensures (total + h) + g' + out == all + new_
  {
    forall x ensures ((total + h) + g' + out)[x] == (all + new_)[x] {
      assert (h + g')[x] == (g + new_)[x];
      assert (total + g + out)[x] == all[x];
    }
  }
}
