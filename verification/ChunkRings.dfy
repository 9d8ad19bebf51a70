// The circular chunk lists of lib/linden/gc/gc.c.  Blocks of memory are numbers.  Every
// ring operation is one indivisible step: the compare-and-swap loops are not retried here.

module ChunkRings {
  import opened GcParams
  import opened Sequences

  const CHUNKS_PER_ALLOC := 1000

  // Which ring a chunk is on.
  datatype Home =
    | Loose                               // on its way
    | FreeList                            // gc_global.free_chunks
    | AllocList                           // gc_global.alloc
    | LocalAlloc(t: nat)                  // gc->alloc of thread t
    | Garbage(t: nat, e: nat)             // gc->garbage[e] of thread t
    | Cache(t: nat)                       // gc->chunk_cache of thread t

  // chunk_st.  blk[..i] are the blocks it holds.
  class Chunk {
    var next: Chunk?
    var i: nat
    var blk: seq<nat>
    ghost var home: Home

    constructor (ghost h: Home)
      ensures next == null && home == h && i == 0 && |blk| == BLKS_PER_CHUNK
    {
      next, i, blk, home := null, 0, seq(BLKS_PER_CHUNK, _ => 0), h;
    }

    ghost function Blocks(): seq<nat>
      reads this
    {
      if i <= |blk| then blk[..i] else blk
    }
  }

  // ---------- rings ----------

  ghost predicate RingLink(s: seq<Chunk>, k: nat)
    requires k < |s|
    reads s
  {
    s[k].next == if k + 1 < |s| then s[k + 1] else s[0]
  }

  ghost predicate ChunkOk(c: Chunk, h: Home)
    reads c
  {
    c.home == h && |c.blk| == BLKS_PER_CHUNK && c.i <= BLKS_PER_CHUNK
  }

  // s is one turn around the ring, starting at s[0].
  ghost predicate RingOk(s: seq<Chunk>, h: Home)
    reads s
  {
    && |s| > 0
    && (forall k {:trigger RingLink(s, k)} :: 0 <= k < |s| ==> RingLink(s, k))
    && (forall c :: c in s ==> ChunkOk(c, h))
    && Distinct(s)
  }

  // Rings with different homes share no chunk.
  lemma Disjoint(a: seq<Chunk>, g: Home, b: seq<Chunk>, h: Home)
    requires RingOk(a, g) && RingOk(b, h) && g != h
    ensures forall c :: c in a ==> c !in b
    ensures forall k :: 0 <= k < |a| ==> a[k] in a && a[k] !in b
    ensures forall k :: 0 <= k < |b| ==> b[k] in b && b[k] !in a
  {
    forall c | c in a ensures c !in b {
      assert ChunkOk(c, g);
      assert c in b ==> ChunkOk(c, h);
    }
  }

  lemma DisjointOrEmpty(a: seq<Chunk>, g: Home, b: seq<Chunk>, h: Home)
    requires (a == [] || RingOk(a, g)) && (b == [] || RingOk(b, h)) && g != h
    ensures forall c :: c in a ==> c !in b
    ensures forall k :: 0 <= k < |a| ==> a[k] in a && a[k] !in b
    ensures forall k :: 0 <= k < |b| ==> b[k] in b && b[k] !in a
  {
    if a != [] && b != [] { Disjoint(a, g, b, h); }
  }

  lemma DistinctJoin(a: seq<Chunk>, b: seq<Chunk>)
    requires Distinct(a) && Distinct(b) && forall c :: c in a ==> c !in b
    ensures Distinct(a + b)
  {
    forall j, k | 0 <= j < k < |a + b| ensures (a + b)[j] != (a + b)[k] {
      if j < |a| <= k { assert a[j] in a && b[k - |a|] in b; }
    }
  }

  lemma DistinctSplit(s: seq<Chunk>, m: nat)
    requires Distinct(s) && m <= |s|
    ensures Distinct(s[..m]) && Distinct(s[m..])
    ensures forall c :: c in s[..m] ==> c !in s[m..]
    ensures forall c :: c in s <==> c in s[..m] || c in s[m..]
  {
    assert s == s[..m] + s[m..];
    forall c | c in s[..m] ensures c !in s[m..] {
      var j :| 0 <= j < m && s[j] == c;
      forall k | m <= k < |s| ensures s[k] != c {}
    }
  }

  lemma SpliceDistinct(r: seq<Chunk>, l: seq<Chunk>)
    requires Distinct(r) && Distinct(l) && |r| > 0 && |l| > 0 && forall c :: c in r ==> c !in l
    ensures Distinct([l[0]] + r[1..] + [r[0]] + l[1..])
  {
    DistinctSplit(r, 1);
    DistinctSplit(l, 1);
    DistinctJoin(r[1..], [r[0]]);
    DistinctJoin([l[0]], r[1..] + [r[0]]);
    DistinctJoin([l[0]] + (r[1..] + [r[0]]), l[1..]);
    assert [l[0]] + (r[1..] + [r[0]]) + l[1..] == [l[0]] + r[1..] + [r[0]] + l[1..];
  }

  // ---------- the blocks on a ring ----------

  ghost function Contents(s: seq<Chunk>): (cs: seq<seq<nat>>)
    reads s
    ensures |cs| == |s| && forall k :: 0 <= k < |s| ==> cs[k] == s[k].Blocks()
  {
    if s == [] then [] else Contents(s[..|s| - 1]) + [s[|s| - 1].Blocks()]
  }

  ghost function Sum(cs: seq<seq<nat>>): multiset<nat> {
    if cs == [] then multiset{} else Sum(cs[..|cs| - 1]) + multiset(cs[|cs| - 1])
  }

  // All blocks on a ring.
  ghost function BlocksOf(s: seq<Chunk>): multiset<nat>
    reads s
  {
    Sum(Contents(s))
  }

  lemma {:induction false} SumJoin(a: seq<seq<nat>>, b: seq<seq<nat>>)
    ensures Sum(a + b) == Sum(a) + Sum(b)
  {
    if b == [] {
      assert a + b == a;
    } else {
      var n := |b| - 1;
      assert (a + b)[..|a + b| - 1] == a + b[..n];
      SumJoin(a, b[..n]);
    }
  }

  lemma BlocksJoin(a: seq<Chunk>, b: seq<Chunk>)
    ensures BlocksOf(a + b) == BlocksOf(a) + BlocksOf(b)
  {
    assert Contents(a + b) == Contents(a) + Contents(b);
    SumJoin(Contents(a), Contents(b));
  }

  lemma BlocksOne(c: Chunk)
    ensures BlocksOf([c]) == multiset(c.Blocks())
  {
    var cs := Contents([c]);
    assert cs == [c.Blocks()];
    assert cs[..|cs| - 1] == [] && Sum([]) == multiset{};
  }

  lemma BlocksFirst(s: seq<Chunk>)
    requires |s| > 0
    ensures BlocksOf(s) == multiset(s[0].Blocks()) + BlocksOf(s[1..])
  {
    assert s == [s[0]] + s[1..];
    BlocksJoin([s[0]], s[1..]);
    BlocksOne(s[0]);
  }

  // The blocks base, base + 1, ... of one allocation from the heap.
  ghost function Span(base: nat, n: nat): seq<nat> {
    seq(n, j => base + j)
  }

  // ---------- moving chunks between rings ----------

  // add_chunks_to_list: the ring of ch goes in right behind head, ch last.
  method AddChunks(ch: Chunk, head: Chunk, ghost r: seq<Chunk>, ghost g: Home, ghost l: seq<Chunk>, ghost h: Home)
    returns (ghost l': seq<Chunk>)
    requires RingOk(r, g) && ch == r[0] && RingOk(l, h) && head == l[0] && g != h
    modifies r, l
    ensures RingOk(l', h) && l' == [head] + r[1..] + [ch] + l[1..]
    ensures forall c :: c in r || c in l ==> c.i == old(c.i) && c.blk == old(c.blk)
    ensures forall c :: c in l' <==> c in r || c in l
    ensures BlocksOf(l') == old(BlocksOf(r)) + old(BlocksOf(l))
  {
    hide BlocksOf, Contents, Sum;
    Disjoint(r, g, l, h);
    assert RingLink(r, 0) && RingLink(r, |r| - 1) && RingLink(l, 0) && RingLink(l, |l| - 1);
    assert ch in r && head in l;
    var chNext := ch.next;
    ch.next := head.next;
    head.next := chNext;
    forall c | c in r { c.home := h; }
    l' := [head] + r[1..] + [ch] + l[1..];
    var n := |r|;
    assert forall k :: 1 <= k < n ==> l'[k] == r[k];
    assert forall k :: n < k < |l'| ==> l'[k] == l[k - n];
    assert l'[0] == head && l'[n] == ch;
    forall k | 0 <= k < |l'| ensures RingLink(l', k) {
      if 1 <= k < n {
        assert old(RingLink(r, k)) && r[k] in r;
      } else if k > n {
        assert old(RingLink(l, k - n)) && l[k - n] in l;
      }
    }
    SpliceDistinct(r, l);
    forall c | c in l' ensures ChunkOk(c, h) {
      assert c in r || c in l;
      assert old(c in r ==> ChunkOk(c, g)) && old(c in l ==> ChunkOk(c, h));
    }
    SameContents(r);
    SameContents(l);
    SpliceBlocks(r, l);
  }

  // Relinking leaves the blocks where they are.
  twostate lemma SameContents(s: seq<Chunk>)
    requires forall c :: c in s ==> c.i == old(c.i) && c.blk == old(c.blk)
    ensures BlocksOf(s) == old(BlocksOf(s))
  {
    assert Contents(s) == old(Contents(s)) by {
      forall k | 0 <= k < |s| ensures s[k].Blocks() == old(s[k].Blocks()) { assert s[k] in s; }
    }
  }

  lemma SpliceBlocks(r: seq<Chunk>, l: seq<Chunk>)
    requires |r| > 0 && |l| > 0
    ensures BlocksOf([l[0]] + r[1..] + [r[0]] + l[1..]) == BlocksOf(r) + BlocksOf(l)
  {
    hide Contents, Sum;
    BlocksFirst(r);
    BlocksFirst(l);
    BlocksJoin([l[0]] + r[1..] + [r[0]], l[1..]);
    BlocksJoin([l[0]] + r[1..], [r[0]]);
    BlocksJoin([l[0]], r[1..]);
    BlocksOne(l[0]);
    BlocksOne(r[0]);
  }

  lemma TakeBlocks(l: seq<Chunk>, n: nat, r: seq<Chunk>, l': seq<Chunk>)
    requires 0 < n < |l| && r == l[1..n + 1] && l' == [l[0]] + l[n + 1..]
    ensures BlocksOf(r) + BlocksOf(l') == BlocksOf(l)
  {
    hide Contents, Sum;
    assert l == [l[0]] + r + l[n + 1..];
    BlocksJoin([l[0]] + r, l[n + 1..]);
    BlocksJoin([l[0]], r);
    BlocksJoin([l[0]], l[n + 1..]);
  }

  // alloc_more_chunks: a ring of new chunks.
  method AllocMoreChunks(n: nat, ghost h: Home) returns (first: Chunk, ghost r: seq<Chunk>)
    requires n > 0
    ensures RingOk(r, h) && |r| == n && first == r[0]
    ensures fresh(r)
  {
    first := new Chunk(h);
    r := [first];
    var p := first;
    for k := 1 to n
      invariant |r| == k && p == r[k - 1] && first == r[0]
      invariant fresh(r) && Distinct(r)
      invariant forall c :: c in r ==> ChunkOk(c, h)
      invariant forall j {:trigger RingLink(r, j)} :: 0 <= j < k - 1 ==> RingLink(r, j)
    {
      label L:
      var c := new Chunk(h);
      assert c !in r;
      p.next := c;
      ghost var r' := r + [c];
      DistinctJoin(r, [c]);
      forall j | 0 <= j < k ensures RingLink(r', j) {
        if j < k - 1 { assert old@L(RingLink(r, j)) && r[j] != p; }
      }
      forall d | d in r' ensures ChunkOk(d, h) { if d in r { assert old@L(ChunkOk(d, h)); } }
      r, p := r', c;
    }
    label M:
    p.next := first;
    forall j | 0 <= j < n ensures RingLink(r, j) {
      if j < n - 1 { assert old@M(RingLink(r, j)) && r[j] != p; }
    }
  }

  // The compare-and-swap of get_empty_chunks and get_alloc_chunk: the first n chunks behind
  // head leave the list and become a ring of their own.
  method TakeChunks(n: nat, head: Chunk, rh: Chunk, rt: Chunk, ghost l: seq<Chunk>, ghost g: Home, ghost h: Home)
    returns (ghost r: seq<Chunk>, ghost l': seq<Chunk>)
    requires RingOk(l, g) && head == l[0] && 0 < n < |l| && rh == l[1] && rt == l[n] && g != h
    modifies l
    ensures r == l[1..n + 1] && l' == [head] + l[n + 1..]
    ensures RingOk(r, h) && RingOk(l', g)
    ensures forall c :: c in l ==> c.i == old(c.i) && c.blk == old(c.blk)
    ensures forall c :: c in l <==> c in r || c in l'
    ensures BlocksOf(r) + BlocksOf(l') == old(BlocksOf(l))
  {
    hide BlocksOf, Contents, Sum;
    r, l' := l[1..n + 1], [head] + l[n + 1..];
    assert RingLink(l, n) && rt in l && head in l && rt in r;
    TakeDistinct(l, n, r, l');
    hide Distinct;
    head.next := rt.next;
    rt.next := rh;
    forall c | c in r { c.home := h; }
    forall k | 0 <= k < |r| ensures RingLink(r, k) {
      assert old(RingLink(l, k + 1)) && l[k + 1] in l;
    }
    forall k | 0 <= k < |l'| ensures RingLink(l', k) {
      if k > 0 { assert old(RingLink(l, k + n)) && l[k + n] in l; }
    }
    forall c | c in l ensures ChunkOk(c, if c in r then h else g) { assert old(ChunkOk(c, g)); }
    SameContents(l);
    TakeBlocks(l, n, r, l');
  }

  lemma TakeDistinct(l: seq<Chunk>, n: nat, r: seq<Chunk>, l': seq<Chunk>)
    requires Distinct(l) && 0 < n < |l| && r == l[1..n + 1] && l' == [l[0]] + l[n + 1..]
    ensures Distinct(r) && Distinct(l')
    ensures forall c :: c in r ==> c !in l'
    ensures forall c :: c in l <==> c in r || c in l'
  {
    DistinctSplit(l, 1);
    DistinctSplit(l[1..], n);
    assert l[1..][..n] == r && l[1..][n..] == l[n + 1..];
    DistinctJoin([l[0]], l[n + 1..]);
  }

  // ---------- the rings of one thread ----------

  // gc_free: a chunk becomes the newest of a garbage ring.
  method Prepend(ch: Chunk, first: Chunk, last: Chunk, ghost s: seq<Chunk>, ghost h: Home)
    requires RingOk([ch], Loose) && RingOk(s, h) && first == s[0] && last == s[|s| - 1] && h != Loose
    modifies ch, s
    ensures RingOk([ch] + s, h)
    ensures forall c :: c in s || c == ch ==> c.i == old(c.i) && c.blk == old(c.blk)
    ensures BlocksOf([ch] + s) == old(multiset(ch.Blocks())) + old(BlocksOf(s))
  {
    hide BlocksOf, Contents, Sum;
    Disjoint([ch], Loose, s, h);
    assert ch in [ch] && ChunkOk(ch, Loose) && last in s;
    ghost var l' := [ch] + s;
    ch.next := first;
    last.next := ch;
    ch.home := h;
    forall k | 0 <= k < |l'| ensures RingLink(l', k) {
      if k > 0 { assert old(RingLink(s, k - 1)) && s[k - 1] in s; }
    }
    DistinctJoin([ch], s);
    forall c | c in l' ensures ChunkOk(c, h) { assert c in s ==> old(ChunkOk(c, h)); }
    SameContents(s);
    BlocksJoin([ch], s);
    BlocksOne(ch);
  }

  // gc_alloc: a chunk goes in behind the current one and becomes current.
  method InsertBehind(ch: Chunk, och: Chunk, ghost s: seq<Chunk>, ghost h: Home)
    requires RingOk([ch], h) && RingOk(s, h) && och == s[0] && ch !in s
    modifies ch, s
    ensures RingOk([ch] + s[1..] + [och], h)
    ensures forall c :: c in s || c == ch ==> c.i == old(c.i) && c.blk == old(c.blk)
    ensures BlocksOf([ch] + s[1..] + [och]) == old(multiset(ch.Blocks())) + old(BlocksOf(s))
  {
    hide BlocksOf, Contents, Sum;
    assert ch in [ch] && ChunkOk(ch, h) && och in s && RingLink(s, 0);
    ghost var l' := [ch] + s[1..] + [och];
    ghost var n := |s|;
    ch.next := och.next;
    och.next := ch;
    forall k | 0 <= k < |l'| ensures RingLink(l', k) {
      if 0 < k < n { assert l'[k] == s[k] && old(RingLink(s, k)) && s[k] in s; }
    }
    DistinctSplit(s, 1);
    DistinctJoin(s[1..], [och]);
    DistinctJoin([ch], s[1..] + [och]);
    assert [ch] + (s[1..] + [och]) == l';
    forall c | c in l' ensures ChunkOk(c, h) { assert c in s ==> old(ChunkOk(c, h)); }
    SameContents(s);
    RotateBlocks(ch, s);
  }

  lemma RotateBlocks(ch: Chunk, s: seq<Chunk>)
    requires |s| > 0
    ensures BlocksOf([ch] + s[1..] + [s[0]]) == multiset(ch.Blocks()) + BlocksOf(s)
  {
    hide BlocksOf, Contents, Sum;
    BlocksFirst(s);
    BlocksJoin([ch] + s[1..], [s[0]]);
    BlocksJoin([ch], s[1..]);
    BlocksOne(ch);
    BlocksOne(s[0]);
  }

  // ch->blk[ch->i++] = p
  method PutBlock(ch: Chunk, p: nat, ghost s: seq<Chunk>, ghost h: Home)
    requires RingOk(s, h) && ch == s[0] && ch.i < BLKS_PER_CHUNK
    modifies ch`i, ch`blk
    ensures RingOk(s, h) && ch.i == old(ch.i) + 1
    ensures BlocksOf(s) == old(BlocksOf(s)) + multiset{p}
  {
    hide BlocksOf, Contents, Sum;
    assert ch in s && ChunkOk(ch, h);
    NotFirst(s);
    BlocksFirst(s);
    ghost var rest := s[1..];
    assert forall k :: 0 <= k < |rest| ==> rest[k] != ch;
    ch.blk := ch.blk[ch.i := p];
    ch.i := ch.i + 1;
    forall k | 0 <= k < |s| ensures RingLink(s, k) { assert old(RingLink(s, k)); }
    forall c | c in s ensures ChunkOk(c, h) { assert old(ChunkOk(c, h)); }
    BlocksFirst(s);
    assert ch.Blocks() == old(ch.Blocks()) + [p];
  }

  // ch->blk[--ch->i]
  method TakeBlock(ch: Chunk, ghost s: seq<Chunk>, ghost h: Home) returns (b: nat)
    requires RingOk(s, h) && ch == s[0] && ch.i > 0
    modifies ch`i
    ensures RingOk(s, h) && ch.i == old(ch.i) - 1 && ch.i < |ch.blk| && b == ch.blk[ch.i]
    ensures BlocksOf(s) + multiset{b} == old(BlocksOf(s))
  {
    hide BlocksOf, Contents, Sum;
    assert ch in s && ChunkOk(ch, h);
    NotFirst(s);
    BlocksFirst(s);
    ghost var rest := s[1..];
    assert forall k :: 0 <= k < |rest| ==> rest[k] != ch;
    ch.i := ch.i - 1;
    b := ch.blk[ch.i];
    forall k | 0 <= k < |s| ensures RingLink(s, k) { assert old(RingLink(s, k)); }
    forall c | c in s ensures ChunkOk(c, h) { assert old(ChunkOk(c, h)); }
    BlocksFirst(s);
    assert old(ch.Blocks()) == ch.Blocks() + [b];
  }

  lemma NotFirst(s: seq<Chunk>)
    requires Distinct(s) && |s| > 0
    ensures forall j :: 0 < j < |s| ==> s[j] != s[0]
  {
  }

  // gc_reclaim: all chunks but the newest leave a garbage ring.
  method SplitNewest(first: Chunk, last: Chunk, ghost s: seq<Chunk>, ghost h: Home)
    requires RingOk(s, h) && |s| > 1 && first == s[0] && last == s[|s| - 1] && h != Loose
    modifies s
    ensures RingOk([first], h) && RingOk(s[1..], Loose)
    ensures forall c :: c in s ==> c.i == old(c.i) && c.blk == old(c.blk)
    ensures BlocksOf([first]) + BlocksOf(s[1..]) == old(BlocksOf(s))
  {
    hide BlocksOf, Contents, Sum;
    ghost var r := s[1..];
    assert first in s && last in s && RingLink(s, 0);
    DistinctSplit(s, 1);
    var ch := first.next;
    last.next := ch;
    first.next := first;
    forall c | c in r { c.home := Loose; }
    forall k | 0 <= k < |r| ensures RingLink(r, k) {
      assert old(RingLink(s, k + 1)) && s[k + 1] in s && s[k + 1] != first;
    }
    assert RingLink([first], 0);
    forall c | c in s ensures ChunkOk(c, if c in r then Loose else h) { assert old(ChunkOk(c, h)); }
    SameContents(s);
    BlocksFirst(s);
    BlocksOne(first);
  }

  // Chunks that hold nothing.
  lemma {:induction false} EmptyBlocks(s: seq<Chunk>)
    requires forall c :: c in s ==> c.i == 0
    ensures BlocksOf(s) == multiset{}
  {
    if s == [] {
    } else {
      var last := |s| - 1;
      EmptyBlocks(s[..last]);
      assert s == s[..last] + [s[last]];
      BlocksJoin(s[..last], [s[last]]);
      BlocksOne(s[last]);
    }
  }
}
