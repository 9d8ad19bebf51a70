// When restructure, running alone, takes the head's pointer of a level to the first node of that
// level whose own pointer is not marked: exactly when the walk that it brings from the level above
// ends at the same node as a walk from the head; and a state in which it does not.

module PrioqSkew {
  import opened PrioqParams
  import opened PrioqModel
  import opened PrioqInvariant
  import opened PrioqHeights
  import opened PrioqRestructure
  import opened PrioqReclaim

  // f is the first node of level i, from the head's pointer on, whose own pointer is not marked.
  ghost predicate FirstOn(m: Memory, i: nat, f: nat) {
    exists z :: EndsAt(m, i, HEAD, z) && f == After(m, i, z)
  }

  // The walk that comes down to level i and the walk from the head end alike.
  ghost predicate InStep(m: Memory, i: nat) {
    exists p, z, y :: StartsAt(m, i, p) && EndsAt(m, i, p, z) && EndsAt(m, i, HEAD, y) && After(m, i, z) == After(m, i, y)
  }

  lemma FirstOnce(m: Memory, i: nat, f: nat, f': nat)
    requires FirstOn(m, i, f) && FirstOn(m, i, f')
    ensures f == f'
  {
    var z :| EndsAt(m, i, HEAD, z) && f == After(m, i, z);
    var z' :| EndsAt(m, i, HEAD, z') && f' == After(m, i, z');
    EndsOnce(m, i, HEAD, z, z');
  }

  // The head lands on the first such node if and only if its pointer was not stale or the walks
  // are in step.
  lemma LandsFirst(m: Memory, i: nat, f: nat)
    requires Lands(m, i, f)
    ensures FirstOn(m, i, f) <==> (Stale(m, i) ==> InStep(m, i))
  {
    hide StartsAt, EndsAt, Dead;
    if Stale(m, i) {
      var p, z :| StartsAt(m, i, p) && EndsAt(m, i, p, z) && f == After(m, i, z);
      if InStep(m, i) {
        var p', z', y :| StartsAt(m, i, p') && EndsAt(m, i, p', z') && EndsAt(m, i, HEAD, y) && After(m, i, z') == After(m, i, y);
        StartsOnce(m, i, p, p');
        EndsOnce(m, i, p, z, z');
      }
    } else {
      AtHead(m, i);
    }
  }

  lemma AtHead(m: Memory, i: nat)
    requires !Stale(m, i)
    ensures EndsAt(m, i, HEAD, HEAD)
  {
    assert Marches(m, i, HEAD, HEAD, 0);
  }

  // They are if the walk comes down onto the way from the head, as it does where the levels are
  // nested; on the topmost stale level in particular.
  lemma OnTheWay(m: Memory, i: nat, p: nat, k: nat, z: nat)
    requires StartsAt(m, i, p) && Marches(m, i, HEAD, p, k) && EndsAt(m, i, p, z)
    ensures InStep(m, i)
  {
    var j: nat :| Marches(m, i, p, z, j);
    MarchesThrough(m, i, HEAD, p, k, z, j);
    hide StartsAt, Dead;
    assert EndsAt(m, i, HEAD, z);
  }

  lemma {:induction false} MarchesThrough(m: Memory, i: nat, p: nat, q: nat, k: nat, z: nat, j: nat)
    requires Marches(m, i, p, q, k) && Marches(m, i, q, z, j)
    ensures Marches(m, i, p, z, k + j)
    decreases k
  {
    if k > 0 {
      MarchesThrough(m, i, After(m, i, p), q, k - 1, z, j);
    }
  }

  // ---------- walks that come down onto the level ----------

  // The k-th node of level i from p on.
  ghost function Along(m: Memory, i: nat, p: nat, k: nat): nat
    decreases k
  {
    if k == 0 then p else Along(m, i, After(m, i, p), k - 1)
  }

  // No unmarked node lies on level i before the k-th node from p, nor is it one.
  ghost predicate AllDead(m: Memory, i: nat, p: nat, k: nat) {
    forall j :: 1 <= j <= k ==> Dead(m, Along(m, i, p, j))
  }

  lemma {:induction false} AlongAfter(m: Memory, i: nat, p: nat, k: nat)
    ensures After(m, i, Along(m, i, p, k)) == Along(m, i, p, k + 1)
    decreases k
  {
    if k > 0 { AlongAfter(m, i, After(m, i, p), k - 1); }
  }

  lemma {:induction false} AllDeadMarch(m: Memory, i: nat, p: nat, k: nat)
    requires AllDead(m, i, p, k)
    ensures Marches(m, i, p, Along(m, i, p, k), k)
    decreases k
  {
    if k > 0 {
      AllDeadMarch(m, i, p, k - 1);
      AlongAfter(m, i, p, k - 1);
      MarchesOn(m, i, p, Along(m, i, p, k - 1), k - 1);
    }
  }

  // The node a level starts at is the head or deleted.
  lemma {:induction false} StartsDead(m: Memory, i: nat, p: nat)
    requires StartsAt(m, i, p)
    ensures p == HEAD || Dead(m, p)
    decreases NUM_LEVELS - i
  {
    if i < NUM_LEVELS - 1 {
      var q :| StartsAt(m, i + 1, q) && Leaves(m, i + 1, q, p);
      StartsDead(m, i + 1, q);
      if Stale(m, i + 1) {
        var k: nat :| Marches(m, i + 1, q, p, k);
        MarchDead(m, i + 1, q, p, k);
      }
    }
  }

  lemma {:induction false} MarchDead(m: Memory, i: nat, p: nat, q: nat, k: nat)
    requires Marches(m, i, p, q, k)
    ensures q == p || Dead(m, q)
    decreases k
  {
    if k > 0 { MarchDead(m, i, After(m, i, p), q, k - 1); }
  }

  // Ranks rise along a level.
  lemma {:induction false} AlongRises(m: Memory, h: Ranks, i: nat, p: nat, k: nat)
    requires Ranked(m, h) && On(h, i, p) && Along(m, i, p, k) != TAIL && m.Next(TAIL, i) == Null
    ensures On(h, i, Along(m, i, p, k)) && Rank(h, i, p) <= Rank(h, i, Along(m, i, p, k))
    decreases k
  {
    if k > 0 {
      assert Rises(m, h, i, p);
      if p == TAIL { TailStays(m, i, k); }
      AlongRises(m, h, i, After(m, i, p), k - 1);
    }
  }

  lemma {:induction false} TailStays(m: Memory, i: nat, k: nat)
    requires m.Next(TAIL, i) == Null
    ensures Along(m, i, TAIL, k) == TAIL
    decreases k
  {
    if k > 0 { TailStays(m, i, k - 1); }
  }

  lemma {:induction false} MarchRises(m: Memory, h: Ranks, i: nat, p: nat, z: nat, k: nat)
    requires Ranked(m, h) && On(h, i, p) && p != TAIL && Marches(m, i, p, z, k) && m.Next(TAIL, 0) == Null
    ensures On(h, i, z) && z != TAIL && Rank(h, i, p) <= Rank(h, i, z)
    decreases k
  {
    if k > 0 {
      assert Rises(m, h, i, p);
      MarchRises(m, h, i, After(m, i, p), z, k - 1);
    }
  }

  // If the node at which level i starts is still on the level, n nodes from the head, then restructure
  // takes the head's pointer to the first unmarked node if and only if none lies before that node.
  lemma OnLevelExactly(m: Memory, g: History, h: Ranks, i: nat, p: nat, n: nat, f: nat)
    requires MemOk(m, g) && Ranked(m, h) && i < NUM_LEVELS
    requires Stale(m, i) && StartsAt(m, i, p) && Along(m, i, HEAD, n) == p && Lands(m, i, f)
    ensures FirstOn(m, i, f) <==> AllDead(m, i, HEAD, n)
  {
    TailNull(m, g, i);
    hide MemOk;
    LandsFirst(m, i, f);
    var p', z :| StartsAt(m, i, p') && EndsAt(m, i, p', z) && f == After(m, i, z);
    StartsOnce(m, i, p, p');
    if AllDead(m, i, HEAD, n) {
      AllDeadMarch(m, i, HEAD, n);
      OnTheWay(m, i, p, n, z);
    } else {
      var j := FirstLive(m, i, n);
      PastIt(m, h, i, p, n, j, z);
      if FirstOn(m, i, f) { FirstOnce(m, i, f, Along(m, i, HEAD, j)); }
    }
  }

  lemma TailNull(m: Memory, g: History, i: nat)
    requires MemOk(m, g) && i < NUM_LEVELS
    ensures m.Next(TAIL, i) == Null && m.Next(TAIL, 0) == Null
  {
  }

  lemma {:induction false} FirstLive(m: Memory, i: nat, n: nat) returns (j: nat)
    requires !AllDead(m, i, HEAD, n)
    ensures 1 <= j <= n && !Dead(m, Along(m, i, HEAD, j)) && FirstOn(m, i, Along(m, i, HEAD, j))
    decreases n
  {
    if n > 0 && !AllDead(m, i, HEAD, n - 1) {
      j := FirstLive(m, i, n - 1);
    } else {
      j := n;
      AllDeadMarch(m, i, HEAD, n - 1);
      AlongAfter(m, i, HEAD, n - 1);
      assert EndsAt(m, i, HEAD, Along(m, i, HEAD, n - 1));
    }
  }

  lemma PastIt(m: Memory, h: Ranks, i: nat, p: nat, n: nat, j: nat, z: nat)
    requires Ranked(m, h) && i < NUM_LEVELS && m.Next(TAIL, i) == Null && m.Next(TAIL, 0) == Null
    requires StartsAt(m, i, p) && Along(m, i, HEAD, n) == p && EndsAt(m, i, p, z)
    requires 1 <= j <= n && !Dead(m, Along(m, i, HEAD, j))
    ensures After(m, i, z) != Along(m, i, HEAD, j)
  {
    StartsDead(m, i, p);
    assert p != TAIL;
    AlongSum(m, i, HEAD, j, n - j);
    hide StartsAt;
    if Along(m, i, HEAD, j) == TAIL { TailStays(m, i, n - j); }
    assert On(h, i, HEAD);
    AlongRises(m, h, i, HEAD, j);
    AlongRises(m, h, i, Along(m, i, HEAD, j), n - j);
    var k: nat :| Marches(m, i, p, z, k);
    MarchRises(m, h, i, p, z, k);
    assert Rises(m, h, i, z);
  }

  lemma {:induction false} AlongSum(m: Memory, i: nat, p: nat, j: nat, k: nat)
    ensures Along(m, i, Along(m, i, p, j), k) == Along(m, i, p, j + k)
    decreases j
  {
    if j > 0 { AlongSum(m, i, After(m, i, p), j - 1, k); }
  }

  // ---------- out of step ----------

  // Node 2 was linked on level 2 only after restructure had passed it on level 1, where 3 and 4 were
  // linked since; all three are deleted, 4 last.
  ghost function Skewed(): Memory {
    Memory(map[HEAD := Node(KEYMIN, 0, NUM_LEVELS, false, [Link(4, true), Link(3, false), Link(2, false)] + seq(NUM_LEVELS - 3, j => Link(TAIL, false))),
               TAIL := Node(KEYMAX, 0, NUM_LEVELS, false, seq(NUM_LEVELS, j => Null)),
               2 := Node(5, 0, 3, false, [Link(3, true), Link(TAIL, false), Link(TAIL, false)]),
               3 := Node(7, 0, 2, false, [Link(4, true), Link(4, false)]),
               4 := Node(8, 0, 2, false, [Link(TAIL, false), Link(TAIL, false)])], [])
  }

  ghost function SkewHistory(): History {
    History([2, 3, 4], [], map[2 := 0, 3 := 1, 4 := 2], [Some(0), Some(0)])
  }

  ghost function SkewRanks(): Ranks {
    var r0: map<nat, real> := map[HEAD := 0.0, 2 := 1.0, 3 := 2.0, 4 := 3.0, TAIL := 4.0];
    var r2: map<nat, real> := map[HEAD := 0.0, 2 := 1.0, TAIL := 4.0];
    var r3: map<nat, real> := map[HEAD := 0.0, TAIL := 4.0];
    [r0, r0, r2] + seq(NUM_LEVELS - 3, j => r3)
  }

  ghost function SkewLocal(): Local {
    ReHead(Del(4, Link(2, true), Some(4), 3), 0, NUM_LEVELS - 1, HEAD)
  }

  lemma SkewNext(n: nat, i: nat)
    ensures Skewed().Next(n, i) ==
      if n == HEAD then (if i == 0 then Link(4, true) else if i == 1 then Link(3, false) else if i == 2 then Link(2, false)
                         else if i < NUM_LEVELS then Link(TAIL, false) else Null)
      else if n == 2 then (if i == 0 then Link(3, true) else if i < 3 then Link(TAIL, false) else Null)
      else if n == 3 then (if i == 0 then Link(4, true) else if i == 1 then Link(4, false) else Null)
      else if n == 4 then (if i < 2 then Link(TAIL, false) else Null)
      else Null
  {
  }

  lemma SkewMem()
    ensures MemOk(Skewed(), SkewHistory())
  {
    var m, g := Skewed(), SkewHistory();
    forall n: nat, i: nat ensures UpperOk(m, g, n, i) {
      SkewNext(n, i);
      SkewNext(n, if i > 0 then i - 1 else 0);
      if m.Next(n, i).Link? { SkewNext(m.Next(n, i).node, i); }
    }
  }

  lemma SkewRanked()
    ensures Ranked(Skewed(), SkewRanks())
  {
    var m, h := Skewed(), SkewRanks();
    forall i: nat, n: nat ensures Placed(m, h, i, n) && Rises(m, h, i, n) {
      SkewNext(n, i);
    }
    forall i | 0 <= i < NUM_LEVELS ensures On(h, i, HEAD) && On(h, i, TAIL) && Rank(h, i, HEAD) == 0.0 {}
  }

  lemma SkewThread()
    ensures ThreadOk(Skewed(), SkewHistory(), 0, SkewLocal())
    ensures Tall(Skewed(), SkewRanks(), SkewLocal()) && PendingKnown(Skewed(), SkewLocal())
  {
    SkewNext(HEAD, NUM_LEVELS - 1);
    SkewNext(HEAD, 0);
  }

  lemma {:induction false} SkewStarts(i: nat)
    requires 2 <= i < NUM_LEVELS
    ensures StartsAt(Skewed(), i, HEAD)
    decreases NUM_LEVELS - i
  {
    if i < NUM_LEVELS - 1 {
      SkewStarts(i + 1);
      SkewNext(HEAD, i + 1);
      SkewNext(TAIL, 0);
      assert Leaves(Skewed(), i + 1, HEAD, HEAD);
    }
  }

  // A thread that has just swung the head, in a well-formed state: restructure takes the head's
  // pointer on level 1 to the tail, passing over node 4, which is the first on that level whose own
  // pointer is not marked.
  lemma PassesOver() returns (m: Memory, g: History, h: Ranks, l: Local)
    ensures JustSwung(m, g, h, 0, l)
    ensures FirstOn(m, 1, 4) && Lands(m, 1, TAIL) && !InStep(m, 1)
  {
    m, g, h, l := Skewed(), SkewHistory(), SkewRanks(), SkewLocal();
    SkewMem();
    SkewRanked();
    SkewThread();
    SkewWalks();
    hide Dead, Marches, StartsAt, Skewed;
    assert Lands(m, 1, TAIL);
    LandsFirst(m, 1, TAIL);
    if FirstOn(m, 1, TAIL) { FirstOnce(m, 1, TAIL, 4); }
  }

  lemma SkewWalks()
    ensures var m := Skewed(); Stale(m, 1) && StartsAt(m, 1, 2) && EndsAt(m, 1, 2, 2) && After(m, 1, 2) == TAIL
    ensures FirstOn(Skewed(), 1, 4)
  {
    var m := Skewed();
    SkewStarts(2);
    SkewNext(HEAD, 1);
    SkewNext(HEAD, 2);
    forall n ensures Dead(m, n) <==> n == HEAD || n == 2 || n == 3 { SkewNext(n, 0); }
    SkewNext(2, 1);
    SkewNext(2, 2);
    SkewNext(3, 1);
    hide Dead, Skewed;
    assert Marches(m, 2, 2, 2, 0) && Marches(m, 2, HEAD, 2, 1);
    assert Leaves(m, 2, HEAD, 2);
    assert Marches(m, 1, 2, 2, 0);
    assert Marches(m, 1, 3, 3, 0) && Marches(m, 1, HEAD, 3, 1);
    assert EndsAt(m, 1, HEAD, 3);
  }
}
