// The allocator of lib/spraylist/ssalloc.c for one thread and one allocator number: a bump pointer
// and a ring of 256 freed blocks whose two counters are 8 bits wide.

module SsAlloc {
  import opened Sequences

  const SLOTS := 256

  // ---------- what the allocator means ----------

  // Blocks are numbered in the order in which the bump pointer made them.
  datatype Pool = Pool(
    live: set<nat>,        // handed out
    queue: seq<nat>,       // in the ring, oldest first
    lost: set<nat>,        // forgotten when the 8-bit count wrapped
    made: nat,
    freed: seq<nat>,       // all that was ever freed, in order
    reused: seq<nat>)      // all that ever came out of the ring, in order

  const EMPTY := Pool({}, [], {}, 0, [], [])

  predicate Reuses(p: Pool) {
    |p.queue| > 2
  }

  function Taken(p: Pool): nat {
    if Reuses(p) then p.queue[0] else p.made
  }

  function AfterAlloc(p: Pool): Pool {
    var b := Taken(p);
    if Reuses(p) then p.(live := p.live + {b}, queue := p.queue[1..], reused := p.reused + [b])
    else p.(live := p.live + {b}, made := p.made + 1)
  }

  function AfterFree(p: Pool, b: nat): Pool {
    var q := p.queue + [b];
    var r := p.(live := p.live - {b}, freed := p.freed + [b]);
    if |q| < SLOTS then r.(queue := q) else r.(queue := [], lost := p.lost + Members(q))
  }

  function Members(q: seq<nat>): set<nat> {
    set b | b in q
  }

  predicate Placed(p: Pool, b: nat) {
    b in p.live || b in p.queue || b in p.lost
  }

  // Every block ever made is in exactly one place.
  ghost predicate Inv(p: Pool) {
    && Distinct(p.queue) && |p.queue| < SLOTS
    && (forall b :: b in p.live ==> b !in p.queue && b !in p.lost)
    && (forall b :: b in p.queue ==> b !in p.lost)
    && (forall b: nat :: Placed(p, b) <==> b < p.made)
    && |p.freed| == |p.reused| + |p.queue| + |p.lost|
    && (p.lost == {} ==> p.freed == p.reused + p.queue)
  }

  datatype Op = Alloc | Free(block: nat)

  // Callers free live blocks only.
  predicate Allowed(p: Pool, op: Op) {
    op.Free? ==> op.block in p.live
  }

  function Step(p: Pool, op: Op): Pool {
    match op
    case Alloc => AfterAlloc(p)
    case Free(b) => AfterFree(p, b)
  }

  function Run(p: Pool, ops: seq<Op>): Pool
    decreases |ops|
  {
    if ops == [] then p else Run(Step(p, ops[0]), ops[1..])
  }

  predicate Legal(p: Pool, ops: seq<Op>)
    decreases |ops|
  {
    ops == [] || (Allowed(p, ops[0]) && Legal(Step(p, ops[0]), ops[1..]))
  }

  lemma {:induction false} Count(q: seq<nat>)
    requires Distinct(q)
    ensures |Members(q)| == |q|
  {
    if q == [] {
      assert Members(q) == {};
    } else {
      var n := |q| - 1;
      Count(q[..n]);
      assert q == q[..n] + [q[n]];
      assert Members(q) == Members(q[..n]) + {q[n]};
    }
  }

  lemma AllocInv(p: Pool)
    requires Inv(p)
    ensures Inv(AfterAlloc(p)) && Taken(p) !in p.live
  {
    var r, b := AfterAlloc(p), Taken(p);
    if Reuses(p) {
      assert p.queue == [b] + r.queue && b in p.queue;
      assert b !in r.queue;
      forall c: nat ensures Placed(r, c) <==> c < r.made { assert Placed(p, c) <==> c < p.made; }
      assert r.reused + r.queue == p.reused + p.queue;
    } else {
      assert !Placed(p, b);
      forall c: nat ensures Placed(r, c) <==> c < r.made { assert Placed(p, c) <==> c < p.made; }
    }
  }

  lemma FreeInv(p: Pool, b: nat)
    requires Inv(p) && b in p.live
    ensures Inv(AfterFree(p, b))
    ensures AfterFree(p, b).made == p.made
    ensures AfterFree(p, b).queue == if |p.queue| == SLOTS - 1 then [] else p.queue + [b]
  {
    var r, q := AfterFree(p, b), p.queue + [b];
    assert Distinct(q);
    assert forall c :: c in q <==> c in p.queue || c == b;
    if |q| == SLOTS {
      Count(q);
      assert b in r.lost;
      assert p.lost !! Members(q);
    }
    assert Placed(p, b);
    forall c: nat ensures Placed(r, c) <==> c < r.made { assert Placed(p, c) <==> c < p.made; }
    assert p.freed + [b] == p.reused + p.queue + [b] ==> p.freed + [b] == p.reused + q;
  }

  lemma {:induction false} RunInv(p: Pool, ops: seq<Op>)
    requires Inv(p) && Legal(p, ops)
    ensures Inv(Run(p, ops)) && p.lost <= Run(p, ops).lost
    decreases |ops|
  {
    if ops != [] {
      match ops[0] {
        case Alloc => AllocInv(p);
        case Free(b) => FreeInv(p, b);
      }
      RunInv(Step(p, ops[0]), ops[1..]);
    }
  }

  // Over any run, live blocks never coincide: the next block handed out is none of them.
  lemma NeverTwice(ops: seq<Op>)
    requires Legal(EMPTY, ops)
    ensures Taken(Run(EMPTY, ops)) !in Run(EMPTY, ops).live
    ensures Inv(Run(EMPTY, ops))
  {
    StartInv();
    RunInv(EMPTY, ops);
    AllocInv(Run(EMPTY, ops));
  }

  lemma StartInv()
    ensures Inv(EMPTY)
  {
    assert forall b: nat :: !Placed(EMPTY, b);
  }

  // Blocks come out of the ring in the order in which they were freed exactly as long as no free
  // found 255 blocks in the ring.
  lemma FifoExactly(ops: seq<Op>)
    requires Legal(EMPTY, ops)
    ensures var p := Run(EMPTY, ops); p.freed == p.reused + p.queue <==> NeverFull(EMPTY, ops)
  {
    StartInv();
    RunInv(EMPTY, ops);
    LostExactly(EMPTY, ops);
    var p := Run(EMPTY, ops);
    assert p.lost == {} <==> |p.lost| == 0;
  }

  predicate NeverFull(p: Pool, ops: seq<Op>)
    decreases |ops|
  {
    ops == [] || ((ops[0].Free? ==> |p.queue| < SLOTS - 1) && NeverFull(Step(p, ops[0]), ops[1..]))
  }

  lemma {:induction false} LostExactly(p: Pool, ops: seq<Op>)
    requires Inv(p) && Legal(p, ops)
    ensures Run(p, ops).lost == {} <==> p.lost == {} && NeverFull(p, ops)
    decreases |ops|
  {
    RunInv(p, ops);
    if ops != [] {
      var s := Step(p, ops[0]);
      match ops[0] {
        case Alloc => AllocInv(p);
        case Free(b) =>
          FreeInv(p, b);
          if |p.queue| == SLOTS - 1 {
            assert b in p.queue + [b] && b in s.lost;
            RunInv(s, ops[1..]);
          }
      }
      LostExactly(s, ops[1..]);
    }
  }

  // What the wrapped count forgot is never handed out again.
  lemma LostForGood(p: Pool, ops: seq<Op>, b: nat)
    requires Inv(p) && Legal(p, ops) && b in p.lost
    ensures b !in Run(p, ops).live && Taken(Run(p, ops)) != b
  {
    RunInv(p, ops);
    var r := Run(p, ops);
    assert Placed(r, b);
    if Reuses(r) { assert r.queue[0] in r.queue; }
  }

  // ---------- a run in which the count wraps ----------

  function Below(n: nat): (s: set<nat>)
    ensures forall b: nat :: b in s <==> b < n
  {
    if n == 0 then {} else Below(n - 1) + {n - 1}
  }

  function Allocs(n: nat): seq<Op> {
    if n == 0 then [] else [Alloc] + Allocs(n - 1)
  }

  function Frees(lo: nat, hi: nat): seq<Op>
    requires lo <= hi
    decreases hi - lo
  {
    if lo == hi then [] else [Free(lo)] + Frees(lo + 1, hi)
  }

  lemma {:induction false} AllocRun(p: Pool, n: nat)
    requires p.queue == [] && p.live == Below(p.made)
    ensures Legal(p, Allocs(n))
    ensures Run(p, Allocs(n)) == p.(live := Below(p.made + n), made := p.made + n)
    decreases n
  {
    if n > 0 {
      assert Allocs(n)[1..] == Allocs(n - 1);
      assert Below(p.made + 1) == Below(p.made) + {p.made};
      AllocRun(AfterAlloc(p), n - 1);
    }
  }

  lemma {:induction false} FreeRun(p: Pool, lo: nat)
    requires lo < SLOTS && |p.queue| == lo && forall b :: lo <= b < SLOTS ==> b in p.live
    ensures Legal(p, Frees(lo, SLOTS)) && Run(p, Frees(lo, SLOTS)).queue == []
    ensures Run(p, Frees(lo, SLOTS)).reused == p.reused
    decreases SLOTS - lo
  {
    assert Frees(lo, SLOTS)[1..] == Frees(lo + 1, SLOTS);
    if lo + 1 < SLOTS { FreeRun(AfterFree(p, lo), lo + 1); }
  }

  lemma {:induction false} Appended(p: Pool, a: seq<Op>, b: seq<Op>)
    requires Legal(p, a) && Legal(Run(p, a), b)
    ensures Legal(p, a + b) && Run(p, a + b) == Run(Run(p, a), b)
    decreases |a|
  {
    if a == [] {
      assert a + b == b;
    } else {
      assert (a + b)[1..] == a[1..] + b;
      Appended(Step(p, a[0]), a[1..], b);
    }
  }

  // 256 allocations and 256 frees: the ring holds nothing afterwards and the next allocation makes
  // a new block although 256 are free.
  lemma Forgets()
    ensures var ops := Allocs(SLOTS) + Frees(0, SLOTS);
      Legal(EMPTY, ops) && Run(EMPTY, ops).queue == [] && |Run(EMPTY, ops).freed| == |Run(EMPTY, ops).lost|
    ensures Taken(Run(EMPTY, Allocs(SLOTS) + Frees(0, SLOTS))) == Run(EMPTY, Allocs(SLOTS) + Frees(0, SLOTS)).made
  {
    hide Allocs, Frees, Run, Legal;
    var a, b := Allocs(SLOTS), Frees(0, SLOTS);
    assert EMPTY.live == Below(0);
    AllocRun(EMPTY, SLOTS);
    var p := Run(EMPTY, a);
    FreeRun(p, 0);
    Appended(EMPTY, a, b);
    StartInv();
    RunInv(EMPTY, a + b);
  }

  // ---------- when the ring is used ----------

  function Upto(n: nat): (s: seq<nat>)
    ensures |s| == n && forall i :: 0 <= i < n ==> s[i] == i
  {
    if n == 0 then [] else Upto(n - 1) + [n - 1]
  }

  lemma {:induction false} FreesQueue(p: Pool, lo: nat, hi: nat)
    requires lo <= hi < SLOTS && p.queue == Upto(lo) && forall b :: lo <= b < hi ==> b in p.live
    ensures Legal(p, Frees(lo, hi)) && Run(p, Frees(lo, hi)).queue == Upto(hi) && Run(p, Frees(lo, hi)).made == p.made
    decreases hi - lo
  {
    if lo < hi {
      assert Frees(lo, hi)[1..] == Frees(lo + 1, hi);
      FreesQueue(AfterFree(p, lo), lo + 1, hi);
    }
  }

  // After n allocations and n frees the next allocation returns the first block again if n is at
  // least 3, and a new one otherwise.
  lemma FirstReuse(n: nat)
    requires n < SLOTS
    ensures Legal(EMPTY, Allocs(n) + Frees(0, n))
    ensures Taken(Run(EMPTY, Allocs(n) + Frees(0, n))) == if n >= 3 then 0 else n
  {
    hide Allocs, Frees, Run, Legal;
    assert EMPTY.live == Below(0);
    AllocRun(EMPTY, n);
    FreesQueue(Run(EMPTY, Allocs(n)), 0, n);
    Appended(EMPTY, Allocs(n), Frees(0, n));
  }

  // ---------- the code ----------

  // Two blocks do not overlap.
  lemma Apart(base: nat, size: nat, i: nat, j: nat)
    requires i < j
    ensures base + i * size + size <= base + j * size
  {
    assert (i + 1) * size <= j * size by { Scaled(i + 1, j, size); }
    assert (i + 1) * size == i * size + size;
  }

  lemma Scaled(a: nat, b: nat, size: nat)
    requires a <= b
    ensures a * size <= b * size
  {
    assert b * size - a * size == (b - a) * size;
  }

  // Where the i-th of the n newest entries lies when c is the next index to write.
  function Slot(c: nat, n: nat, i: nat): (k: nat)
    ensures k < SLOTS
  {
    (c - n + i) % SLOTS
  }

  function After(c: nat): nat {
    (c + 1) % SLOTS
  }

  lemma SlotMoves(c: nat, n: nat, i: nat)
    requires c < SLOTS && i <= n < SLOTS - 1
    ensures After(c) < SLOTS && Slot(After(c), n + 1, i) == Slot(c, n, i)
    ensures Slot(c, n, i) == c <==> i == n
  {
  }

  class Ring {
    const mem: nat                // ssalloc_app_mem
    const size: nat               // the one size that callers ask for
    const limit: nat              // SSALLOC_SIZE
    var next: nat
    var list: array<nat>
    var cur: nat
    var num: nat
    ghost var pool: Pool

    ghost function Addr(b: nat): nat {
      mem + b * size
    }

    ghost predicate Valid()
      reads this, list
    {
      && size > 0 && list.Length == SLOTS && cur < SLOTS
      && Inv(pool) && num == |pool.queue|
      && next == pool.made * size
      && forall i :: 0 <= i < num ==> list[Slot(cur, num, i)] == Addr(pool.queue[i])
    }

    constructor (m: nat, s: nat, l: nat)
      requires s > 0
      ensures Valid() && fresh(list) && pool == EMPTY && mem == m && size == s && limit == l
    {
      mem, size, limit, next, cur, num, pool := m, s, l, 0, 0, 0, EMPTY;
      list := new nat[SLOTS](_ => 0);
      StartInv();
    }

    // ssalloc_alloc; beyond says whether the warning about the end of the arena was printed.
    method Alloc() returns (ret: nat, beyond: bool)
      requires Valid()
      modifies this`next, this`num, this`pool
      ensures Valid() && pool == AfterAlloc(old(pool))
      ensures ret == Addr(Taken(old(pool))) && Taken(old(pool)) !in old(pool.live)
      ensures forall b :: b in old(pool.live) ==> ret + size <= Addr(b) || Addr(b) + size <= ret
      ensures beyond <==> !Reuses(old(pool)) && pool.made * size > limit
    {
      AllocInv(pool);
      ghost var t := Taken(pool);
      forall b | b in pool.live ensures Addr(t) + size <= Addr(b) || Addr(b) + size <= Addr(t) {
        if t < b { Apart(mem, size, t, b); } else { Apart(mem, size, b, t); }
      }
      beyond := false;
      if num > 2 {
        var spot := (cur - num) % SLOTS;
        assert list[Slot(cur, num, 0)] == Addr(pool.queue[0]);
        ret := list[spot];
        num := num - 1;
        forall i | 0 <= i < num ensures list[Slot(cur, num, i)] == Addr(pool.queue[1..][i]) {
          assert list[Slot(cur, num + 1, i + 1)] == Addr(pool.queue[i + 1]);
        }
      } else {
        ret := mem + next;
        next := next + size;
        beyond := next > limit;
        assert (pool.made + 1) * size == pool.made * size + size;
      }
      pool := AfterAlloc(pool);
    }

    // ssfree_alloc of the live block number b.
    method Free(ptr: nat, ghost b: nat)
      requires Valid() && b in pool.live && ptr == Addr(b)
      modifies this`cur, this`num, this`pool, list
      ensures Valid() && pool == AfterFree(old(pool), b)
    {
      FreeInv(pool, b);
      hide Inv, Slot, After, Addr, AfterFree;
      ghost var n, c := num, cur;
      num := (num + 1) % SLOTS;
      list[cur] := ptr;
      cur := After(cur);
      pool := AfterFree(pool, b);
      if n < SLOTS - 1 {
        assert num == n + 1;
        forall i | 0 <= i < num ensures list[Slot(cur, num, i)] == Addr(pool.queue[i]) {
          SlotMoves(c, n, i);
        }
      }
    }

    // While the bump pointer is inside the arena, so is every live block.
    lemma InArena(b: nat)
      requires Valid() && next <= limit && b in pool.live
      ensures mem <= Addr(b) && Addr(b) + size <= mem + limit
    {
      assert Placed(pool, b);
      Apart(mem, size, b, pool.made);
    }
  }
}
