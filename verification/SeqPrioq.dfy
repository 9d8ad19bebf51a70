// One thread alone on the queue of lib/linden/prioq.c, with all levels: what locate_preds finds,
// how insert copes with levels that are shifted against each other, what deletemin and
// restructure leave behind.

module SeqPrioq {
  import opened PrioqParams

  // node_t.  `marked` is the lowest bit of next[0]; level is |next|.  `no` is ghost: 0 for a live
  // node, and the number of its deletion for a deleted one.
  class Node {
    const key: nat
    const val: nat
    var inserting: bool
    var next: seq<Node?>
    var marked: bool
    ghost var no: nat

    constructor (k: nat, v: nat, level: nat)
      ensures key == k && val == v && |next| == level && !marked && no == 0 && inserting
    {
      key, val, inserting, next, marked, no := k, v, true, seq(level, _ => null), false, 0;
    }
  }

  // The order of every chain: deleted nodes as they were deleted, then live ones by key.
  ghost predicate Lt(a: Node, b: Node)
    reads a, b
  {
    if a.no > 0 then b.no == 0 || a.no < b.no else b.no == 0 && a.key < b.key
  }

  // A chain from the head to the tail.
  ghost predicate Chain(l: seq<Node>, h: Node, t: Node, ns: set<Node>)
    reads ns
  {
    && |l| >= 2 && l[0] == h && l[|l| - 1] == t
    && (forall k :: 0 <= k < |l| ==> l[k] in ns)
    && (forall k :: 0 < k < |l| ==> l[k] != h)
    && (forall j, k :: 0 < j < k < |l| ==> Lt(l[j], l[k]))
  }

  lemma ChainDistinct(l: seq<Node>, h: Node, t: Node, ns: set<Node>, j: nat, k: nat)
    requires Chain(l, h, t, ns) && j < |l| && k < |l| && j != k
    ensures l[j] != l[k]
  {
    var a, b := if j < k then j else k, if j < k then k else j;
    if a > 0 { assert Lt(l[a], l[b]); }
  }

  // What is left of a chain when all of its front goes.
  lemma DropFront(l: seq<Node>, h: Node, t: Node, ns: set<Node>, p: nat)
    requires Chain(l, h, t, ns) && 0 < p < |l|
    ensures Chain([h] + l[p..], h, t, ns)
  {
    var c := [h] + l[p..];
    assert forall k :: 0 < k < |c| ==> c[k] == l[p + k - 1];
  }

  ghost function PutIn(l: seq<Node>, p: nat, n: Node): seq<Node>
    requires p < |l|
  {
    l[..p + 1] + [n] + l[p + 1..]
  }

  lemma PutMembers(l: seq<Node>, p: nat, n: Node)
    requires p < |l|
    ensures n in PutIn(l, p, n)
    ensures forall m :: m in PutIn(l, p, n) ==> m in l || m == n
    ensures forall m :: m in l ==> m in PutIn(l, p, n)
  {
    var c := PutIn(l, p, n);
    assert c[p + 1] == n && l == l[..p + 1] + l[p + 1..];
  }

  lemma PutInChain(l: seq<Node>, h: Node, t: Node, ns: set<Node>, p: nat, n: Node)
    requires Chain(l, h, t, ns) && p + 1 < |l| && n in ns && n != h
    requires (p > 0 ==> Lt(l[p], n)) && Lt(n, l[p + 1])
    ensures Chain(PutIn(l, p, n), h, t, ns)
  {
    var c := PutIn(l, p, n);
    forall k | 0 <= k < |c| ensures c[k] in ns && (k > 0 ==> c[k] != h) {
      assert c[k] == if k <= p then l[k] else if k == p + 1 then n else l[k - 1];
    }
    forall j, k | 0 < j < k < |c| ensures Lt(c[j], c[k]) {
      PutInOrder(l, h, t, ns, p, n, j, k);
    }
  }

  lemma PutInOrder(l: seq<Node>, h: Node, t: Node, ns: set<Node>, p: nat, n: Node, j: nat, k: nat)
    requires Chain(l, h, t, ns) && p + 1 < |l| && 0 < j < k < |PutIn(l, p, n)|
    requires (p > 0 ==> Lt(l[p], n)) && Lt(n, l[p + 1])
    ensures Lt(PutIn(l, p, n)[j], PutIn(l, p, n)[k])
  {
    var c := PutIn(l, p, n);
    assert c[j] == if j <= p then l[j] else if j == p + 1 then n else l[j - 1];
    assert c[k] == if k <= p then l[k] else if k == p + 1 then n else l[k - 1];
    assert 0 < j < p ==> Lt(l[j], l[p]);
    assert k > p + 2 ==> Lt(l[p + 1], l[k - 1]);
  }

  // In the chain only deleted nodes come before y and only live ones after it; nos are the
  // deletion numbers of the nodes.
  ghost predicate Ready(l: seq<Node>, h: Node, t: Node, ns: set<Node>, y: Node, nos: map<Node, nat>, d: nat) {
    && |l| >= 2 && l[0] == h && l[|l| - 1] == t
    && (forall k :: 0 <= k < |l| ==> l[k] in ns && l[k] in nos)
    && (forall k :: 0 < k < |l| ==> l[k] != h)
    && (forall a, b :: 0 < a < b < |l| ==>
          if nos[l[a]] > 0 then nos[l[b]] == 0 || nos[l[a]] < nos[l[b]] else nos[l[b]] == 0 && l[a].key < l[b].key)
    && (forall a, b :: 0 < a < b < |l| && l[b] == y ==> 0 < nos[l[a]] <= d)
    && (forall a, b :: 0 < a < b < |l| && l[a] == y ==> nos[l[b]] == 0)
  }

  lemma ChainAgain(l: seq<Node>, h: Node, t: Node, ns: set<Node>, y: Node, nos: map<Node, nat>, d: nat)
    requires Ready(l, h, t, ns, y, nos, d) && y.no == d + 1
    requires forall n :: n in ns && n in nos && n != y ==> n.no == nos[n]
    ensures Chain(l, h, t, ns)
  {
    forall a, b | 0 < a < b < |l| ensures Lt(l[a], l[b]) {
      assert l[a] != y ==> l[a].no == nos[l[a]];
      assert l[b] != y ==> l[b].no == nos[l[b]];
    }
  }

  ghost predicate Sub(ls: seq<seq<Node>>, i: nat)
    requires i + 1 < |ls|
  {
    forall n :: n in ls[i + 1] ==> n in ls[i]
  }

  ghost predicate AllSub(ls: seq<seq<Node>>) {
    forall i {:trigger Sub(ls, i)} :: 0 <= i < |ls| - 1 ==> Sub(ls, i)
  }

  // Putting a node in from below keeps the levels nested.
  lemma PutInSub(ls: seq<seq<Node>>, i: nat, p: nat, n: Node)
    requires AllSub(ls) && i < |ls| && p < |ls[i]| && (i > 0 ==> n in ls[i - 1])
    ensures AllSub(ls[i := PutIn(ls[i], p, n)])
  {
    var ms := ls[i := PutIn(ls[i], p, n)];
    PutMembers(ls[i], p, n);
    forall j | 0 <= j < |ms| - 1 ensures Sub(ms, j) { assert Sub(ls, j); }
  }

  class Queue {
    const head: Node
    const tail: Node
    const maxLevel: nat                // NUM_LEVELS
    const maxOffset: int
    ghost var levels: seq<seq<Node>>   // the chain of every level, head and tail included
    ghost var nodes: set<Node>
    ghost var deletions: nat           // how many nodes were deleted so far
    ghost var garbage: nat             // how many of them are still on the bottom level

    ghost predicate Link(i: nat, k: nat)
      requires i < |levels| && k + 1 < |levels[i]| && levels[i][k] in nodes
      reads this, nodes
    {
      |levels[i][k].next| > i && levels[i][k].next[i] == levels[i][k + 1]
    }

    ghost predicate LevelOk(i: nat)
      requires i < |levels|
      reads this, nodes
    {
      && Chain(levels[i], head, tail, nodes)
      && forall k {:trigger Link(i, k)} :: 0 <= k < |levels[i]| - 1 ==> Link(i, k)
    }

    ghost predicate Shape()
      reads this, nodes
    {
      && |levels| == maxLevel > 0 && head in nodes && tail in nodes && head != tail
      && tail.key == KEYMAX && tail.no == 0 && !tail.marked && head.no == 0
      && forall i {:trigger LevelOk(i)} :: 0 <= i < maxLevel ==> LevelOk(i)
    }

    // Every upper level is a sublist of the one below.
    ghost predicate Nested()
      reads this
    {
      AllSub(levels)
    }

    // The mark sits on the pointer to a deleted node: on the head's when there is one, and on
    // the pointer of every deleted node but the last.
    ghost predicate NodeOk(n: Node)
      requires n in nodes
      reads this`nodes, this`deletions, n`no, n`marked
    {
      && n.no <= deletions
      && (n.marked <==> if n == head then deletions > 0 else 0 < n.no < deletions)
      && (n != tail ==> n.key < KEYMAX)
    }

    // The bottom level: head, the deleted nodes that are still there, the live ones, tail.
    ghost predicate BottomOk()
      reads this, nodes
    {
      && |levels| > 0 && garbage + 1 < |levels[0]| && garbage <= deletions && (deletions > 0 ==> garbage > 0)
      && (forall n :: n in levels[0] ==> n in nodes && NodeOk(n))
      && (forall k :: 0 < k <= garbage ==> levels[0][k].no == deletions - garbage + k)
      && (forall k :: garbage < k < |levels[0]| ==> levels[0][k].no == 0)
    }

    ghost predicate Sound()
      reads this, nodes
    {
      Shape() && Nested() && BottomOk()
    }

    ghost function Bound(): int {
      if maxOffset > 1 then maxOffset else 1
    }

    // Between two operations no node is being inserted and the garbage is bounded.
    ghost predicate Valid()
      reads this, nodes
    {
      Sound() && garbage <= Bound() && forall n :: n in levels[0] ==> !n.inserting
    }

    ghost predicate Live(n: Node)
      reads this, n
    {
      |levels| > 0 && n in levels[0] && n != head && n != tail && n.no == 0
    }

    // The map that the queue stands for, as a set of pairs.
    ghost function Pairs(): set<(nat, nat)>
      requires |levels| > 0
      reads this, levels[0]
    {
      set n | n in levels[0] && Live(n) :: (n.key, n.val)
    }

    // pq_init
    constructor (levelMax: nat, offset: int)
      requires levelMax > 0
      ensures Valid() && Pairs() == {} && fresh(nodes) && maxLevel == levelMax && maxOffset == offset
    {
      var t := new Node(KEYMAX, 0, levelMax);
      var h := new Node(0, 0, levelMax);
      t.inserting, h.inserting := false, false;
      h.next := seq(levelMax, _ => t);
      head, tail, maxLevel, maxOffset := h, t, levelMax, offset;
      levels, nodes, deletions, garbage := seq(levelMax, _ => [h, t]), {h, t}, 0, 0;
      new;
      forall i | 0 <= i < levelMax ensures LevelOk(i) {
        assert levels[i] == [head, tail];
        assert Link(i, 0);
      }
    }

    // ---------- locate_preds ----------

    // On the bottom level the marked pointers are those of the first `garbage` nodes.
    lemma MarkedAt(p: nat)
      requires Sound() && p < |levels[0]|
      ensures levels[0][p].marked <==> p < garbage
    {
      var l := levels[0];
      assert LevelOk(0) && l[p] in l && NodeOk(l[p]);
    }

    // The last deleted node, whose own pointer is not marked.
    ghost predicate IsLast(n: Node)
      reads this, n
    {
      deletions > 0 && n.no == deletions
    }

    ghost predicate BeforeLast(n: Node)
      reads this, n
    {
      n == head || 0 < n.no < deletions
    }

    lemma OnLevel(i: nat, p: nat)
      requires Sound() && i < maxLevel && p < |levels[i]|
      ensures levels[i][p] in nodes && NodeOk(levels[i][p]) && levels[i][p] in levels[0]
      ensures p > 0 <==> levels[i][p] != head
      ensures p < |levels[i]| - 1 <==> levels[i][p] != tail
    {
      assert LevelOk(i);
      Sunk(i, levels[i][p]);
      assert NodeOk(levels[i][p]);
      ChainDistinct(levels[i], head, tail, nodes, if p < |levels[i]| - 1 then p else 0, |levels[i]| - 1);
    }

    lemma {:induction false} Sunk(i: nat, n: Node)
      requires Nested() && i < |levels| && n in levels[i]
      ensures n in levels[0]
    {
      if i > 0 {
        assert Sub(levels, i - 1);
        Sunk(i - 1, n);
      }
    }

    // Neighbours between which key k belongs on level i.
    ghost predicate Spot(i: nat, p: nat, pred: Node, succ: Node, k: nat)
      requires i < |levels|
      reads this, nodes
    {
      && p + 1 < |levels[i]| && pred == levels[i][p] && succ == levels[i][p + 1] && pred in nodes && succ in nodes
      && (p > 0 ==> pred.no > 0 || pred.key < k)
      && k <= succ.key && !succ.marked
    }

    // Lines 130-148 on an upper level.
    method ScanUpper(i: nat, start: Node, k: nat, ghost p0: nat) returns (x: Node, xNext: Node, ghost p: nat)
      requires Sound() && 0 < i < maxLevel && 0 < k < KEYMAX
      requires p0 + 1 < |levels[i]| && start == levels[i][p0] && (p0 > 0 ==> start.no > 0 || start.key < k)
      ensures Spot(i, p, x, xNext, k)
      ensures forall last :: last in levels[i] && last.key >= k && IsLast(last) && BeforeLast(start) ==>
        BeforeLast(x) && xNext == last
    {
      hide Sound, LevelOk, NodeOk;
      x, p := start, p0;
      UpperAt(i, p);
      xNext := x.next[i];
      while xNext.key < k || xNext.marked
        invariant Sound() && i < |levels|
        invariant p + 1 < |levels[i]| && x == levels[i][p] && xNext == levels[i][p + 1] && x in nodes && xNext in nodes
        invariant p > 0 ==> x.no > 0 || x.key < k
        invariant forall last :: last in levels[i] && last.key >= k && IsLast(last) && BeforeLast(start) ==>
          BeforeLast(x) && (xNext == last || BeforeLast(xNext))
        decreases |levels[i]| - p
      {
        UpperAt(i, p);
        x, p := xNext, p + 1;
        UpperAt(i, p);
        xNext := x.next[i];
      }
      UpperAt(i, p);
    }

    // One position of a level and the next.
    lemma UpperAt(i: nat, p: nat)
      requires Sound() && i < maxLevel && p + 1 < |levels[i]|
      ensures i < |levels|
      ensures var (a, b) := (levels[i][p], levels[i][p + 1]);
        && a in nodes && b in nodes && |a.next| > i && a.next[i] == b && b != head
        && (b.marked <==> 0 < b.no < deletions)
        && (p > 0 ==> a != head)
        && (b.key < KEYMAX || b.marked ==> p + 2 < |levels[i]|)
      ensures forall last :: last in levels[i] && IsLast(last) && BeforeLast(levels[i][p]) ==>
        levels[i][p + 1] == last || BeforeLast(levels[i][p + 1])
    {
      assert LevelOk(i) && Link(i, p);
      OnLevel(i, p);
      OnLevel(i, p + 1);
      NextBefore(i, p);
    }

    // Behind a node that was deleted before the last one comes another one, up to the last.
    lemma NextBefore(i: nat, p: nat)
      requires Sound() && i < maxLevel && p + 1 < |levels[i]|
      ensures forall last :: last in levels[i] && IsLast(last) && BeforeLast(levels[i][p]) ==>
        levels[i][p + 1] == last || BeforeLast(levels[i][p + 1])
    {
      var l := levels[i];
      assert LevelOk(i);
      OnLevel(i, p + 1);
      forall last | last in l && IsLast(last) && BeforeLast(l[p]) ensures l[p + 1] == last || BeforeLast(l[p + 1]) {
        var q :| 0 <= q < |l| && l[q] == last;
        assert 0 < q < p ==> Lt(l[q], l[p]);
        if q > p + 1 { assert Lt(l[p + 1], l[q]); }
      }
    }

    // The same on the bottom level, where the scan also runs past marked pointers.
    method ScanBottom(start: Node, k: nat, ghost p0: nat) returns (x: Node, xNext: Node, del: Node?, ghost p: nat)
      requires Sound() && 0 < k < KEYMAX
      requires p0 + 1 < |levels[0]| && start == levels[0][p0] && (p0 > 0 ==> start.no > 0 || start.key < k)
      ensures Spot(0, p, x, xNext, k) && xNext.no == 0 && p >= garbage
      ensures del == if p0 < garbage then levels[0][garbage] else null
    {
      hide Sound, LevelOk, NodeOk;
      x, p, del := start, p0, null;
      BottomAt(p);
      xNext := x.next[0];
      var d := x.marked;
      while xNext.key < k || xNext.marked || d
        invariant |levels| > 0 && Sound()
        invariant p0 <= p && p + 1 < |levels[0]| && x == levels[0][p] && xNext == levels[0][p + 1]
        invariant x in nodes && (d <==> p < garbage)
        invariant p > 0 ==> x.no > 0 || x.key < k
        invariant del == if p > p0 && p0 < garbage then levels[0][if p < garbage then p else garbage] else null
        decreases |levels[0]| - p
      {
        if d { del := xNext; }
        BottomAt(p);
        x, p := xNext, p + 1;
        BottomAt(p);
        xNext := x.next[0];
        d := x.marked;
      }
      BottomAt(p);
    }

    // One position of the bottom level and the next.
    lemma BottomAt(p: nat)
      requires Sound() && p + 1 < |levels[0]|
      ensures |levels| > 0
      ensures var (a, b) := (levels[0][p], levels[0][p + 1]);
        && a in nodes && b in nodes && |a.next| > 0 && a.next[0] == b
        && (a.marked <==> p < garbage)
        && (b.no > 0 <==> p < garbage)
        && (p + 1 == |levels[0]| - 1 ==> b == tail)
        && (b.key < KEYMAX || b.marked || p < garbage ==> p + 2 < |levels[0]|)
    {
      assert LevelOk(0) && Link(0, p);
      MarkedAt(p);
      MarkedAt(p + 1);
      OnLevel(0, p + 1);
    }

    lemma Below(i: nat, n: Node) returns (p: nat)
      requires Sound() && i + 1 < maxLevel && n in levels[i + 1] && n != tail
      ensures p + 1 < |levels[i]| && levels[i][p] == n && (p > 0 <==> n != head)
    {
      assert LevelOk(i) && Sub(levels, i);
      var l := levels[i];
      assert n in l;
      p :| 0 <= p < |l| && l[p] == n;
    }

    // A deleted node at which the scan of an upper level stops is the last deleted one, and the
    // scan came from before it.
    ghost predicate Shifted(i: nat, succ: Node, x: Node, k: nat)
      requires i < |levels|
      reads this, succ, x
    {
      succ.no > 0 ==> IsLast(succ) && succ in levels[i] && succ.key >= k && BeforeLast(x)
    }

    lemma TopStart()
      requires Sound()
      ensures |levels[maxLevel - 1]| >= 2 && levels[maxLevel - 1][0] == head
    {
      assert LevelOk(maxLevel - 1);
    }

    lemma OwnShifted(i: nat, q: nat, x: Node, xNext: Node, k: nat)
      requires Sound() && i < maxLevel && Spot(i, q, x, xNext, k)
      ensures Shifted(i, xNext, x, k)
    {
      OnLevel(i, q);
      OnLevel(i, q + 1);
      assert LevelOk(i);
      assert q > 0 ==> Lt(x, xNext);
    }

    lemma {:induction false} SunkTo(j: nat, i: nat, n: Node)
      requires Nested() && i <= j < |levels| && n in levels[j]
      ensures n in levels[i]
    {
      if i < j {
        assert Sub(levels, j - 1);
        SunkTo(j - 1, i, n);
      }
    }

    lemma OnlyLast(n: Node, j: nat, x: Node, p: nat, k: nat)
      requires Sound() && j < maxLevel && n.no > 0 && Shifted(j, n, x, k) && p < |levels[0]| && x == levels[0][p]
      ensures p < garbage && levels[0][garbage] == n
    {
      SunkTo(j, 0, n);
      var l := levels[0];
      var q :| 0 <= q < |l| && l[q] == n;
      assert LevelOk(0);
    }

    lemma LastNo()
      requires Sound()
      ensures |levels| > 0 && garbage < |levels[0]| && (garbage > 0 ==> levels[0][garbage].no > 0)
    {
    }

    // locate_preds
    method LocatePreds(k: nat) returns (preds: seq<Node>, succs: seq<Node>, del: Node?, ghost ps: seq<nat>)
      requires Sound() && 0 < k < KEYMAX
      ensures |preds| == |succs| == |ps| == maxLevel
      ensures forall i :: 0 <= i < maxLevel ==> Spot(i, ps[i], preds[i], succs[i], k)
      ensures succs[0].no == 0 && ps[0] >= garbage
      ensures forall i :: 0 < i < maxLevel && succs[i].no > 0 ==> del == succs[i]
      ensures del != null ==> del.no > 0
    {
      hide Chain, NodeOk, BottomOk, BeforeLast, IsLast;
      preds, succs, ps := seq(maxLevel, _ => head), seq(maxLevel, _ => tail), seq(maxLevel, _ => 0);
      var x: Node, i: nat := head, maxLevel - 1;
      TopStart();
      ghost var p: nat := 0;
      while i > 0
        invariant i < maxLevel == |levels| && |preds| == |succs| == |ps| == maxLevel
        invariant forall j :: i < j < maxLevel ==> Spot(j, ps[j], preds[j], succs[j], k)
        invariant p + 1 < |levels[i]| && x == levels[i][p] && (p > 0 ==> x.no > 0 || x.key < k)
        invariant forall j :: i < j < maxLevel ==> Shifted(j, succs[j], x, k)
      {
        ghost var was := x;
        var xNext;
        ghost var q: nat;
        x, xNext, q := ScanUpper(i, x, k, p);
        preds, succs, ps := preds[i := x], succs[i := xNext], ps[i := q];
        OwnShifted(i, q, x, xNext, k);
        forall j | i < j < maxLevel ensures Shifted(j, succs[j], x, k) {
          if succs[j].no > 0 { SunkTo(j, i, succs[j]); }
        }
        i := i - 1;
        OnLevel(i + 1, q);
        p := Below(i, x);
      }
      var x0, xNext0;
      ghost var q0: nat;
      x0, xNext0, del, q0 := ScanBottom(x, k, p);
      LastNo();
      preds, succs, ps := preds[0 := x0], succs[0 := xNext0], ps[0 := q0];
      forall j | 0 < j < maxLevel && succs[j].no > 0 ensures del == succs[j] {
        OnlyLast(succs[j], j, x, p, k);
      }
    }

    // The plain scan of the bottom level from the head ends at the same place.
    lemma SpotUnique(k: nat, p: nat, q: nat)
      requires Sound() && garbage <= p && garbage <= q && p + 1 < |levels[0]| && q + 1 < |levels[0]|
      requires Spot(0, p, levels[0][p], levels[0][p + 1], k) && Spot(0, q, levels[0][q], levels[0][q + 1], k)
      ensures p == q
    {
      var l := levels[0];
      assert LevelOk(0);
      assert forall j, m :: 0 < j < m < |l| ==> Lt(l[j], l[m]);
    }

    // A live node with key k can only be the one that the search stops in front of.
    lemma LiveAt(k: nat, p: nat, pred: Node, succ: Node)
      requires Sound() && Spot(0, p, pred, succ, k) && succ.no == 0 && p >= garbage && k < KEYMAX
      ensures forall n :: Live(n) && n.key == k ==> n == succ
      ensures succ.key == k ==> Live(succ)
      ensures !pred.marked && |pred.next| > 0 && pred.next[0] == succ
    {
      BottomAt(p);
      OnLevel(0, p + 1);
      var l := levels[0];
      assert LevelOk(0);
      forall n | Live(n) && n.key == k ensures n == succ {
        var q :| 0 <= q < |l| && l[q] == n;
        assert q > garbage;
        assert forall j, m :: 0 < j < m < |l| ==> Lt(l[j], l[m]);
      }
    }

    // ---------- insert ----------

    // The two stores on one level.
    method Splice(i: nat, node: Node, pred: Node, succ: Node, ghost p: nat, ghost c: seq<Node>)
      requires Shape() && i < maxLevel && |node.next| > i && node != head && node in nodes && node !in levels[i]
      requires p + 1 < |levels[i]| && pred == levels[i][p] && succ == levels[i][p + 1]
      requires c == levels[i][..p + 1] + [node] + levels[i][p + 1..] && Chain(c, head, tail, nodes)
      modifies this`levels, node`next, pred`next
      ensures Shape() && |node.next| == old(|node.next|) && levels == old(levels)[i := c]
    {
      ghost var l := levels[i];
      assert LevelOk(i) && Link(i, p) && node != pred;
      forall k | 0 <= k < |l| && k != p ensures l[k] != pred { ChainDistinct(l, head, tail, nodes, k, p); }
      node.next := node.next[i := succ];
      pred.next := pred.next[i := node];
      levels := levels[i := c];
      forall j | 0 <= j < maxLevel && j != i ensures LevelOk(j) {
        assert old(LevelOk(j));
        SameChain(levels[j]);
        forall k | 0 <= k < |levels[j]| - 1 ensures Link(j, k) { assert old(Link(j, k)); }
      }
      SameChain(c);
      hide Chain;
      forall k | 0 <= k < |c| - 1 ensures Link(i, k) {
        if k < p { assert old(Link(i, k)) && c[k] == l[k] && c[k + 1] == l[k + 1] && l[k] != node; }
        if k > p + 1 { assert old(Link(i, k - 1)) && c[k] == l[k - 1] && c[k + 1] == l[k] && l[k - 1] != node; }
      }
      assert LevelOk(i);
    }

    // Chains do not depend on the links.
    twostate lemma SameChain(l: seq<Node>)
      requires old(Chain(l, head, tail, nodes)) && nodes == old(nodes)
      requires forall n :: n in nodes ==> n.no == old(n.no)
      ensures Chain(l, head, tail, nodes)
    {
      forall j, k | 0 < j < k < |l| ensures Lt(l[j], l[k]) { assert old(Lt(l[j], l[k])); }
    }

    ghost predicate Insertable(node: Node, k: nat)
      reads this, node
    {
      && node in nodes && node != head && node != tail
      && node.key == k < KEYMAX && node.no == 0 && !node.marked
    }

    // One level of the insertion.
    method LinkAt(i: nat, node: Node, pred: Node, succ: Node, k: nat, ghost p: nat)
      requires Sound() && i < maxLevel && Insertable(node, k) && |node.next| > i
      requires forall j :: i <= j < maxLevel ==> node !in levels[j]
      requires i > 0 ==> node in levels[i - 1]
      requires Spot(i, p, pred, succ, k) && succ.no == 0 && succ.key != k && (i == 0 ==> p >= garbage)
      modifies this`levels, node`next, pred`next
      ensures Sound() && |node.next| == old(|node.next|)
      ensures levels == old(levels)[i := PutIn(old(levels)[i], p, node)]
    {
      ghost var l := levels[i];
      ghost var c := PutIn(l, p, node);
      assert LevelOk(i);
      PutInChain(l, head, tail, nodes, p, node);
      PutInSub(levels, i, p, node);
      ghost var bottom := levels[0];
      hide Chain, LevelOk, AllSub;
      Splice(i, node, pred, succ, p, c);
      forall n | n in bottom ensures n in nodes && NodeOk(n) { assert old(NodeOk(n)); }
      BottomAgain(bottom, node, if i == 0 then p else 0, i == 0);
    }

    lemma BottomAgain(l: seq<Node>, node: Node, p: nat, put: bool)
      requires garbage + 1 < |l| && garbage <= deletions && (deletions > 0 ==> garbage > 0)
      requires forall n :: n in l ==> n in nodes && NodeOk(n)
      requires forall k :: 0 < k <= garbage ==> l[k].no == deletions - garbage + k
      requires forall k :: garbage < k < |l| ==> l[k].no == 0
      requires |levels| > 0 && p < |l| && (put ==> garbage <= p && node in nodes && NodeOk(node) && node.no == 0)
      requires levels[0] == if put then PutIn(l, p, node) else l
      ensures BottomOk()
    {
      var c := levels[0];
      if put {
        PutMembers(l, p, node);
        forall q | 0 < q < |c|
          ensures q <= garbage ==> c[q].no == deletions - garbage + q
          ensures q > garbage ==> c[q].no == 0
        {
          assert c[q] == if q <= p then l[q] else if q == p + 1 then node else l[q - 1];
        }
      }
    }

    // insert, with the number of levels that alloc_node drew; freed is the node it gives back.
    method Insert(k: nat, v: nat, level: nat) returns (ghost h: nat, freed: Node?)
      requires Valid() && 0 < k < KEYMAX && 1 <= level <= maxLevel
      modifies this`levels, this`nodes, nodes
      ensures Valid() && fresh(nodes - old(nodes))
      ensures if h == 0 then levels == old(levels) else exists n :: n in nodes - old(nodes) && Tower(n, h, level)
      ensures forall n :: n in old(nodes) ==> n.no == old(n.no)
      ensures if exists w :: (k, w) in old(Pairs()) then Pairs() == old(Pairs()) else Pairs() == old(Pairs()) + {(k, v)}
      ensures freed != null <==> exists w :: (k, w) in old(Pairs())
      ensures h == 0 <==> freed != null
      ensures freed != null ==> fresh(freed) && freed !in nodes && !freed.inserting
    {
      hide Chain, LevelOk, NodeOk, BottomOk, Spot, Tower, AllSub;
      var new_ := new Node(k, v, level);
      var preds, succs, del;
      ghost var ps;
      preds, succs, del, ps := LocatePreds(k);
      LiveAt(k, ps[0], preds[0], succs[0]);
      if succs[0].key == k && !preds[0].marked && preds[0].next[0] == succs[0] {
        new_.inserting := false;
        assert (k, succs[0].val) in Pairs();
        return 0, new_;
      }
      freed := null;
      assert forall w :: (k, w) !in Pairs();
      h := InsertAbsent(k, new_, level, preds, succs, del, ps);
    }

    // n stands on the bottom h levels of the levels drawn for it; it stops short of them only in
    // front of a deleted node.
    ghost predicate Tower(n: Node, h: nat, level: nat)
      reads this, nodes, n
    {
      && 0 < h <= level <= |levels| && |n.next| == level
      && (forall j :: 0 <= j < |levels| ==> (n in levels[j] <==> j < h))
      && (h < level ==> exists d :: d in levels[h] && d in nodes && d.no > 0 && n.key <= d.key)
    }

    method InsertAbsent(k: nat, new_: Node, level: nat, preds: seq<Node>, succs: seq<Node>, del: Node?, ghost ps: seq<nat>)
      returns (ghost h: nat)
      requires Valid() && 0 < k < KEYMAX && 1 <= level <= maxLevel
      requires new_ !in nodes && new_.key == k && new_.no == 0 && !new_.marked && |new_.next| == level
      requires |preds| == |succs| == |ps| == maxLevel && succs[0].no == 0 && ps[0] >= garbage
      requires forall i :: 0 <= i < maxLevel ==> Spot(i, ps[i], preds[i], succs[i], k)
      requires forall i :: 0 < i < maxLevel && succs[i].no > 0 ==> del == succs[i]
      requires del != null ==> del.no > 0
      requires forall n :: Live(n) ==> n.key != k
      modifies this`levels, this`nodes, nodes, new_
      ensures Valid() && nodes == old(nodes) + {new_}
      ensures Pairs() == old(Pairs()) + {(k, new_.val)}
      ensures h > 0 && Tower(new_, h, level)
      ensures forall n :: n in old(nodes) ==> n.no == old(n.no)
    {
      hide Chain, NodeOk, LevelOk, BottomOk, Tower;
      NoneHasKey(k, succs, ps, preds);
      AddNode(new_, preds, succs, ps, k);
      ghost var bottom := levels[0];
      LinkAt(0, new_, preds[0], succs[0], k, ps[0]);
      PutMembers(bottom, ps[0], new_);
      h := LinkUpper(k, new_, level, preds, succs, del, ps);
      Inserted(new_, h, level);
    }

    // The loop over the upper levels.
    method LinkUpper(k: nat, new_: Node, level: nat, preds: seq<Node>, succs: seq<Node>, del: Node?, ghost ps: seq<nat>)
      returns (ghost h: nat)
      requires Sound() && 0 < k < KEYMAX && 1 <= level <= maxLevel
      requires Insertable(new_, k) && |new_.next| == level && new_ in levels[0]
      requires |preds| == |succs| == |ps| == maxLevel
      requires forall i :: 0 < i < maxLevel ==> Spot(i, ps[i], preds[i], succs[i], k) && new_ !in levels[i]
      requires forall i :: 0 < i < maxLevel && succs[i].no > 0 ==> del == succs[i]
      requires forall i :: 0 < i < maxLevel && succs[i].no == 0 ==> succs[i].key != k
      requires del != null ==> del.no > 0
      modifies this`levels, nodes
      ensures Sound() && levels[0] == old(levels[0])
      ensures forall n :: n in nodes ==> n.inserting == old(n.inserting) && n.no == old(n.no)
      ensures h > 0 && Tower(new_, h, level)
    {
      hide Chain, NodeOk, LevelOk, BottomOk;
      ghost var before := levels;
      var i := 1;
      while i < level
        invariant 1 <= i <= level && Sound() && Insertable(new_, k) && |new_.next| == level
        invariant forall j :: i <= j < maxLevel ==> levels[j] == before[j]
        invariant levels[0] == before[0] && new_ in levels[i - 1]
        invariant forall j :: 0 <= j < maxLevel ==> (new_ in levels[j] <==> j < i)
        invariant forall j :: i <= j < maxLevel ==> Spot(j, ps[j], preds[j], succs[j], k)
        invariant forall n :: n in nodes ==> n.inserting == old(n.inserting) && n.no == old(n.no)
      {
        if new_.marked || succs[i].marked || del == succs[i] {
          assert succs[i] in levels[i];
          break;
        }
        PutMembers(levels[i], ps[i], new_);
        LinkAt(i, new_, preds[i], succs[i], k, ps[i]);
        i := i + 1;
      }
      h := i;
    }

    // new->inserting = 0
    method Inserted(node: Node, ghost h: nat, ghost level: nat)
      requires Sound() && node in nodes && Tower(node, h, level)
      modifies node`inserting
      ensures Sound() && !node.inserting && Tower(node, h, level)
    {
      node.inserting := false;
      forall j | 0 <= j < maxLevel ensures LevelOk(j) {
        assert old(LevelOk(j));
        SameChain(levels[j]);
        forall q | 0 <= q < |levels[j]| - 1 ensures Link(j, q) { assert old(Link(j, q)); }
      }
      forall n | n in levels[0] ensures n in nodes && NodeOk(n) { assert old(NodeOk(n)); }
    }

    // No live node of any level has the key.
    lemma NoneHasKey(k: nat, succs: seq<Node>, ps: seq<nat>, preds: seq<Node>)
      requires Sound() && k < KEYMAX && forall n :: Live(n) ==> n.key != k
      requires |preds| == |succs| == |ps| == maxLevel
      requires forall i :: 0 <= i < maxLevel ==> Spot(i, ps[i], preds[i], succs[i], k)
      ensures forall i :: 0 <= i < maxLevel && succs[i].no == 0 ==> succs[i].key != k
    {
      forall i | 0 <= i < maxLevel && succs[i].no == 0 ensures succs[i].key != k {
        OnLevel(i, ps[i] + 1);
        assert succs[i] != tail ==> Live(succs[i]);
      }
    }

    // The node exists but is on no level.
    ghost method AddNode(new_: Node, preds: seq<Node>, succs: seq<Node>, ps: seq<nat>, k: nat)
      requires Sound() && new_ !in nodes
      requires |preds| == |succs| == |ps| == maxLevel
      requires forall i :: 0 <= i < maxLevel ==> Spot(i, ps[i], preds[i], succs[i], k)
      modifies this`nodes
      ensures Sound() && nodes == old(nodes) + {new_}
      ensures forall j :: 0 <= j < maxLevel ==> new_ !in levels[j]
      ensures forall i :: 0 <= i < maxLevel ==> Spot(i, ps[i], preds[i], succs[i], k)
    {
      forall j | 0 <= j < maxLevel ensures new_ !in levels[j] { assert LevelOk(j); }
      nodes := nodes + {new_};
      forall j | 0 <= j < maxLevel ensures LevelOk(j) {
        assert old(LevelOk(j));
        forall q | 0 <= q < |levels[j]| - 1 ensures Link(j, q) { assert old(Link(j, q)); }
      }
      forall n | n in levels[0] ensures n in nodes && NodeOk(n) { assert old(NodeOk(n)); }
    }

    // ---------- deletemin ----------

    // Lines 310-336 without the fetch-and-or: the walk over the marked pointers.
    method Walk() returns (x: Node, y: Node, offset: nat, newhead: Node?)
      requires Valid()
      ensures x == levels[0][garbage] && y == levels[0][garbage + 1] && offset == garbage + 1 && newhead == null
      ensures x in nodes && y in nodes && y != head && !x.marked && y.no == 0
    {
      hide Sound, LevelOk, NodeOk;
      ghost var p: nat := 0;
      x, offset, newhead := head, 0, null;
      HeadFirst();
      while true
        invariant Valid() && |levels| > 0 && p <= garbage && p + 1 < |levels[0]| && x == levels[0][p] && x in nodes
        invariant offset == p && newhead == null
        decreases garbage - p
      {
        offset := offset + 1;
        BottomAt(p);
        y := x.next[0];
        if y == tail {
          TailAt(p);
          break;
        }
        assert x in levels[0];
        if newhead == null && x.inserting { newhead := x; }
        if !x.marked { break; }
        x, p := y, p + 1;
        BottomAt(p);
      }
      BottomAt(p);
      NotHead(p + 1);
    }

    lemma HeadFirst()
      requires Sound()
      ensures |levels| > 0 && |levels[0]| >= 2 && levels[0][0] == head && head in nodes && garbage + 1 < |levels[0]|
      ensures |head.next| > 0 && head.next[0] == levels[0][1]
    {
      assert LevelOk(0) && Link(0, 0);
    }

    lemma TailAt(p: nat)
      requires Sound() && p + 1 < |levels[0]| && levels[0][p + 1] == tail && p <= garbage
      ensures p == garbage && p + 2 == |levels[0]|
    {
      OnLevel(0, p + 1);
    }

    lemma NotHead(p: nat)
      requires Sound() && 0 < p < |levels[0]|
      ensures levels[0][p] != head && levels[0][p] in nodes
    {
      assert LevelOk(0);
    }

    // Every node of an upper level before the first live one is deleted.
    lemma DeadBefore(i: nat, a: nat, b: nat)
      requires Sound() && i < maxLevel && 0 < a < b < |levels[i]| && levels[i][b] == levels[0][garbage + 1]
      ensures 0 < levels[i][a].no <= deletions
    {
      var n, y := levels[i][a], levels[0][garbage + 1];
      OnLevel(i, a);
      assert LevelOk(i) && LevelOk(0);
      assert Lt(n, y);
      var l := levels[0];
      var q :| 0 <= q < |l| && l[q] == n;
      assert forall j, m :: 0 < j < m < |l| ==> Lt(l[j], l[m]);
    }

    // The fetch-and-or: the first live node becomes the last deleted one.
    method MarkFirst(x: Node, y: Node)
      requires Sound() && x == levels[0][garbage] && y == levels[0][garbage + 1] && y != tail
      requires x in nodes && y in nodes && y.no == 0 && !x.marked
      modifies x`marked, y`no, this`deletions, this`garbage
      ensures Sound() && garbage == old(garbage) + 1 && deletions == old(deletions) + 1 && IsLast(y)
      ensures forall n :: n in nodes && n != y ==> n.no == old(n.no)
    {
      ghost var nos := map n | n in nodes :: n.no;
      ghost var marks := map n | n in nodes :: n.marked;
      ghost var nexts := map n | n in nodes :: n.next;
      ghost var d, g := deletions, garbage;
      hide Chain, NodeOk, LevelOk;
      BeforeMark(x, y, nos, marks, nexts);
      hide Sound, BeforeOk;
      SetMark(x, y);
      AfterMark(x, y, nos, marks, nexts, d, g);
    }

    method SetMark(x: Node, y: Node)
      requires x != y
      modifies x`marked, y`no, this`deletions, this`garbage
      ensures x.marked && y.no == deletions == old(deletions) + 1 && garbage == old(garbage) + 1
    {
      x.marked := true;
      y.no := deletions + 1;
      deletions, garbage := deletions + 1, garbage + 1;
    }

    // The queue as it was before the pointer of x was marked, told by the fields' old values.
    ghost predicate BeforeOk(x: Node, y: Node, nos: map<Node, nat>, marks: map<Node, bool>, nexts: map<Node, seq<Node?>>,
                             d: nat, g: nat)
      reads this
    {
      && |levels| == maxLevel > 0 && head in nodes && tail in nodes && head != tail && AllSub(levels)
      && x in nodes && y in nodes && y != head && y != tail && x != tail && x != y && tail.key == KEYMAX
      && (forall n :: n in nodes ==> n in nos && n in marks && n in nexts)
      && nos[tail] == 0 && !marks[tail] && nos[head] == 0
      && (forall i :: 0 <= i < maxLevel ==> Ready(levels[i], head, tail, nodes, y, nos, d))
      && (forall i :: 0 <= i < maxLevel ==> LinkedBy(levels[i], i, nexts))
      && (forall n :: n in levels[0] ==> n in nodes)
      && BeforeBottom(levels[0], x, y, nos, marks, d, g)
    }

    ghost predicate BeforeBottom(l: seq<Node>, x: Node, y: Node, nos: map<Node, nat>, marks: map<Node, bool>, d: nat, g: nat) {
      && g + 2 < |l| && g <= d && (d > 0 ==> g > 0) && x == l[g] && y == l[g + 1] && (x == head <==> d == 0)
      && (forall n :: n in l ==> n in nos && n in marks)
      && (forall n :: n in l ==> BeforeNode(n, x, nos[n], marks[n], d))
      && (forall k :: 0 < k <= g ==> l[k] in nos && nos[l[k]] == d - g + k)
      && (forall k :: g < k < |l| ==> l[k] in nos && nos[l[k]] == 0)
      && (forall k :: 0 <= k < |l| && k != g + 1 ==> l[k] != y)
    }

    ghost predicate BeforeNode(n: Node, x: Node, no: nat, mark: bool, d: nat) {
      && no <= d
      && (n != tail ==> n.key < KEYMAX)
      && (mark <==> if n == head then d > 0 else 0 < no < d)
      && (n != x && n != head ==> no != d || d == 0)
    }

    lemma BeforeMark(x: Node, y: Node, nos: map<Node, nat>, marks: map<Node, bool>, nexts: map<Node, seq<Node?>>)
      requires Sound() && garbage + 1 < |levels[0]| && x == levels[0][garbage] && y == levels[0][garbage + 1] && y != tail
      requires x in nodes && y in nodes && y.no == 0 && !x.marked
      requires forall n :: n in nodes ==> n in nos && nos[n] == n.no
      requires forall n :: n in nodes ==> n in marks && marks[n] == n.marked
      requires forall n :: n in nodes ==> n in nexts && nexts[n] == n.next
      ensures BeforeOk(x, y, nos, marks, nexts, deletions, garbage)
    {
      hide Chain, Ready;
      ghost var l := levels[0];
      OnLevel(0, garbage);
      OnLevel(0, garbage + 1);
      forall n | n in l && n != x ensures n.no != deletions || n.no == 0 { OtherNo(n, x); }
      forall k | 0 <= k < |l| && k != garbage + 1 ensures l[k] != y {
        assert LevelOk(0);
        ChainDistinct(l, head, tail, nodes, k, garbage + 1);
      }
      forall i | 0 <= i < maxLevel ensures Ready(levels[i], head, tail, nodes, y, nos, deletions) { ReadyLevel(i, y, nos); }
      forall i | 0 <= i < maxLevel ensures LinkedBy(levels[i], i, nexts) { TakeLinks(i, nexts); }
      assert LevelOk(0);
    }

    lemma AfterMark(x: Node, y: Node, nos: map<Node, nat>, marks: map<Node, bool>, nexts: map<Node, seq<Node?>>,
                    d: nat, g: nat)
      requires BeforeOk(x, y, nos, marks, nexts, d, g)
      requires deletions == d + 1 && garbage == g + 1 && y.no == d + 1 && x.marked
      requires forall n :: n in nodes && n in nos && n != y ==> n.no == nos[n]
      requires forall n :: n in nodes && n in marks && n != x ==> n.marked == marks[n]
      requires forall n :: n in nodes && n in nexts ==> n.next == nexts[n]
      ensures Sound()
    {
      hide Chain;
      forall i | 0 <= i < maxLevel ensures LevelOk(i) {
        ChainAgain(levels[i], head, tail, nodes, y, nos, d);
        GiveLinks(i, nexts);
      }
      hide Ready, AllSub, LinkedBy;
      assert Nested();
      assert Shape() by { assert x != tail && y != head; }
      AfterBottom(x, y, nos, marks, nexts, d, g);
    }

    lemma AfterBottom(x: Node, y: Node, nos: map<Node, nat>, marks: map<Node, bool>, nexts: map<Node, seq<Node?>>,
                      d: nat, g: nat)
      requires BeforeOk(x, y, nos, marks, nexts, d, g)
      requires deletions == d + 1 && garbage == g + 1 && y.no == d + 1 && x.marked
      requires forall n :: n in nodes && n in nos && n != y ==> n.no == nos[n]
      requires forall n :: n in nodes && n in marks && n != x ==> n.marked == marks[n]
      ensures BottomOk()
    {
      hide Ready, AllSub, LinkedBy;
      forall n | n in levels[0] ensures n in nodes && NodeOk(n) { }
      forall k | 0 < k < |levels[0]| ensures levels[0][k] in levels[0] { }
      hide NodeOk;
    }

    // The links of a level, by the nodes' pointers.
    ghost predicate LinkBy(l: seq<Node>, i: nat, k: nat, nexts: map<Node, seq<Node?>>)
      requires k + 1 < |l|
    {
      l[k] in nexts && |nexts[l[k]]| > i && nexts[l[k]][i] == l[k + 1]
    }

    ghost predicate LinkedBy(l: seq<Node>, i: nat, nexts: map<Node, seq<Node?>>) {
      forall k {:trigger LinkBy(l, i, k, nexts)} :: 0 <= k < |l| - 1 ==> LinkBy(l, i, k, nexts)
    }

    lemma TakeLinks(i: nat, nexts: map<Node, seq<Node?>>)
      requires i < |levels| && LevelOk(i)
      requires forall n :: n in nodes ==> n in nexts && nexts[n] == n.next
      ensures LinkedBy(levels[i], i, nexts)
    {
      forall k | 0 <= k < |levels[i]| - 1 ensures LinkBy(levels[i], i, k, nexts) { assert Link(i, k); }
    }

    lemma GiveLinks(i: nat, nexts: map<Node, seq<Node?>>)
      requires i < |levels| && Chain(levels[i], head, tail, nodes) && LinkedBy(levels[i], i, nexts)
      requires forall n :: n in nodes && n in nexts ==> n.next == nexts[n]
      ensures LevelOk(i)
    {
      forall k | 0 <= k < |levels[i]| - 1 ensures Link(i, k) { assert LinkBy(levels[i], i, k, nexts); }
    }

    lemma ReadyLevel(i: nat, y: Node, nos: map<Node, nat>)
      requires Sound() && i < maxLevel && y == levels[0][garbage + 1] && y.no == 0
      requires forall n :: n in nodes ==> n in nos && nos[n] == n.no
      ensures Ready(levels[i], head, tail, nodes, y, nos, deletions)
    {
      assert LevelOk(i);
      var l := levels[i];
      forall a, b | 0 < a < b < |l| ensures (l[b] == y ==> 0 < l[a].no <= deletions) && (l[a] == y ==> l[b].no == 0) {
        assert Lt(l[a], l[b]);
        if l[b] == y { DeadBefore(i, a, b); }
      }
    }

    lemma OtherNo(n: Node, x: Node)
      requires Sound() && n in levels[0] && x == levels[0][garbage] && n != x
      ensures n.no != deletions || n.no == 0
    {
      var l := levels[0];
      var q :| 0 <= q < |l| && l[q] == n;
      assert LevelOk(0);
    }

    // ---------- restructure ----------

    // While the head's pointers are repaired, upper levels may still hold marked nodes that the
    // bottom level has lost.
    ghost predicate HalfSound()
      reads this, nodes
    {
      && Shape() && BottomOk() && deletions > 0
      && (forall i {:trigger Sub(levels, i)} :: 1 <= i < |levels| - 1 ==> Sub(levels, i))
      && (maxLevel > 1 ==> forall n :: n in levels[1] ==> n in levels[0] || (n in nodes && n.marked))
      && (forall i, n :: 0 <= i < |levels| && n in levels[i] ==> n in nodes && NodeOk(n))
    }

    // The head's pointer at level i is moved to a later node of that level.
    method HeadTo(i: nat, cur: Node, ghost q: nat)
      requires Shape() && i < maxLevel && 0 < q < |levels[i]| && cur == levels[i][q]
      modifies head`next, this`levels
      ensures Shape() && levels == old(levels)[i := [head] + old(levels)[i][q..]]
    {
      ghost var l := levels[i];
      ghost var c := [head] + l[q..];
      assert LevelOk(i) && Link(i, 0);
      DropFront(l, head, tail, nodes, q);
      forall k | 0 < k < |l| ensures l[k] != head { ChainDistinct(l, head, tail, nodes, k, 0); }
      head.next := head.next[i := cur];
      levels := levels[i := c];
      SameChain(c);
      forall j | 0 <= j < maxLevel && j != i ensures LevelOk(j) {
        assert old(LevelOk(j));
        SameChain(levels[j]);
        forall k | 0 <= k < |levels[j]| - 1 ensures Link(j, k) { assert old(Link(j, k)); }
      }
      hide Chain;
      forall k | 0 <= k < |c| - 1 ensures Link(i, k) {
        if k > 0 { assert old(Link(i, q + k - 1)) && c[k] == l[q + k - 1] && c[k + 1] == l[q + k]; }
      }
      assert LevelOk(i);
    }

    // The compare-and-swap on the head's lowest pointer.
    method Cut(y: Node)
      requires Sound() && garbage > 0 && y == levels[0][garbage]
      modifies head`next, this`levels, this`garbage
      ensures HalfSound() && garbage == 1 && levels[0] == [head] + old(levels)[0][old(garbage)..]
    {
      hide Chain, NodeOk, AllSub, LevelOk;
      ghost var l, g := levels[0], garbage;
      forall i, n | 0 <= i < maxLevel && n in levels[i] ensures n in nodes && NodeOk(n) && n in l { Sunk(i, n); }
      forall k | 0 < k < g ensures l[k].marked { MarkedAt(k); }
      HeadFirst();
      ghost var before := levels;
      MoveHead(y, l, g);
      BottomCut(l, g);
      UpperCut(before, l, g);
    }

    method MoveHead(y: Node, ghost l: seq<Node>, ghost g: nat)
      requires Shape() && 0 < g < |l| && l == levels[0] && y == l[g]
      requires forall n :: n in l ==> n in nodes && NodeOk(n)
      modifies head`next, this`levels, this`garbage
      ensures Shape() && levels == old(levels)[0 := [head] + l[g..]] && garbage == 1
      ensures forall n :: n in l ==> NodeOk(n)
    {
      HeadTo(0, y, g);
      label Moved:
      garbage := 1;
      forall i | 0 <= i < maxLevel ensures LevelOk(i) {
        assert old@Moved(LevelOk(i));
        forall k | 0 <= k < |levels[i]| - 1 ensures levels[i][k] in nodes && Link(i, k) { assert old@Moved(Link(i, k)); }
      }
      forall n | n in l ensures NodeOk(n) { assert old(NodeOk(n)); }
    }

    lemma BottomCut(l: seq<Node>, g: nat)
      requires |levels| > 0 && 0 < g && g + 1 < |l| && levels[0] == [head] + l[g..] && garbage == 1 && l[0] == head
      requires forall n :: n in l ==> n in nodes && NodeOk(n)
      requires deletions > 0 && l[g].no == deletions && forall k :: g < k < |l| ==> l[k].no == 0
      ensures BottomOk()
    {
      var c := levels[0];
      assert forall k :: 0 < k < |c| ==> c[k] == l[g + k - 1];
      forall n | n in c ensures n in l { assert n == l[0] || n in l[g..]; }
    }

    lemma UpperCut(before: seq<seq<Node>>, l: seq<Node>, g: nat)
      requires |before| == |levels| == maxLevel > 0 && AllSub(before) && before[0] == l
      requires 0 < g < |l| && levels == before[0 := [head] + l[g..]]
      requires l[0] == head && forall k :: 0 < k < g ==> l[k] in nodes && l[k].marked
      requires forall i, n :: 0 <= i < maxLevel && n in before[i] ==> n in l
      requires forall n :: n in l ==> n in nodes && NodeOk(n)
      ensures forall i {:trigger Sub(levels, i)} :: 1 <= i < |levels| - 1 ==> Sub(levels, i)
      ensures maxLevel > 1 ==> forall n :: n in levels[1] ==> n in levels[0] || (n in nodes && n.marked)
      ensures forall i, n :: 0 <= i < |levels| && n in levels[i] ==> n in nodes && NodeOk(n)
    {
      forall i | 1 <= i < |levels| - 1 ensures Sub(levels, i) { assert Sub(before, i); }
      forall n | n in l ensures n in levels[0] || n.marked { Kept(l, g, n); }
      if maxLevel > 1 { assert Sub(before, 0); }
      forall n | n in levels[0] ensures n in l { assert n == l[0] || n in l[g..]; }
    }

    lemma Kept(l: seq<Node>, g: nat, n: Node)
      requires n in l && 0 < g < |l| && l[0] == head && forall k :: 0 < k < g ==> l[k].marked
      ensures n in [head] + l[g..] || n.marked
    {
      var k :| 0 <= k < |l| && l[k] == n;
      if k >= g { assert ([head] + l[g..])[1 + k - g] == n; }
    }

    // In a chain nothing behind an unmarked node is marked.
    lemma MarkedFirst(i: nat, q: nat)
      requires Shape() && i < maxLevel && 0 < q < |levels[i]| && levels[i][q] in nodes && !levels[i][q].marked
      requires forall n :: n in levels[i] ==> n in nodes && NodeOk(n)
      ensures forall m :: q <= m < |levels[i]| ==> !levels[i][m].marked
    {
      assert LevelOk(i);
      var l := levels[i];
      forall m | q <= m < |l| ensures !l[m].marked {
        assert l[q] in l && l[m] in l && NodeOk(l[q]) && NodeOk(l[m]);
        assert q < m ==> Lt(l[q], l[m]);
      }
    }

    // What restructure makes of a level: the head and the nodes whose own pointer is not marked.
    ghost predicate Trimmed(c: seq<Node>, l: seq<Node>)
      reads this`nodes, nodes`marked
    {
      && (forall n :: n in c ==> n in l && n in nodes && (n == head || !n.marked))
      && (forall n :: n in l ==> n in nodes && (n == head || !n.marked ==> n in c))
    }

    lemma TrimmedBy(i: nat, q: nat)
      requires Shape() && i < maxLevel && 0 < q < |levels[i]|
      requires forall n :: n in levels[i] ==> n in nodes && NodeOk(n)
      requires !levels[i][q].marked && forall m :: 0 < m < q ==> levels[i][m].marked
      ensures Trimmed([head] + levels[i][q..], levels[i])
    {
      var l := levels[i];
      var c := [head] + l[q..];
      assert LevelOk(i);
      MarkedFirst(i, q);
      assert l[0] in l;
      forall n | n in c ensures n in l && (n == head || !n.marked) {
        if n != head {
          var k :| 0 <= k < |l[q..]| && l[q..][k] == n;
          assert l[q + k] == n;
        }
      }
      forall n | n in l && !n.marked && n != head ensures n in c {
        var k :| 0 <= k < |l| && l[k] == n;
        assert k >= q && c[k - q + 1] == n;
      }
    }

    // Lines 267-285 for one level.  pred, if not the head, is a marked node of this level.
    method Repair(i: nat, pred: Node, ghost p0: nat) returns (pred': Node, ghost q: nat)
      requires Shape() && deletions > 0 && 0 < i < maxLevel
      requires forall n :: n in levels[i] ==> n in nodes && NodeOk(n)
      requires p0 + 1 < |levels[i]| && pred == levels[i][p0] && pred.marked
      modifies head`next, this`levels
      ensures Shape() && 0 < q && q < |old(levels)[i]| && levels == old(levels)[i := [head] + old(levels)[i][q..]]
      ensures Trimmed(levels[i], old(levels)[i])
      ensures pred'.marked && pred' in old(levels)[i]
    {
      hide Chain, NodeOk, LevelOk;
      ghost var l := levels[i];
      FirstOf(i);
      pred', q := pred, 1;
      var h := head.next[i];
      if !h.marked {
        assert [head] + l[1..] == l;
        TailUnmarked(i);
        TrimmedBy(i, 1);
        return;
      }
      var cur;
      pred', cur, q := SkipMarked(i, pred, p0);
      assert head.next[i] == h;
      TrimmedBy(i, q);
      HeadTo(i, cur, q);
    }

    lemma FirstOf(i: nat)
      requires Shape() && i < maxLevel
      requires forall n :: n in levels[i] ==> n in nodes && NodeOk(n)
      ensures |levels[i]| >= 2 && levels[i][0] == head && |head.next| > i && head.next[i] == levels[i][1] && levels[i][1] in nodes
    {
      assert LevelOk(i) && Link(i, 0);
    }

    // Lines 269 and 277-281.
    method SkipMarked(i: nat, pred: Node, ghost p0: nat) returns (pred': Node, cur: Node, ghost q: nat)
      requires Shape() && 0 < i < maxLevel
      requires forall n :: n in levels[i] ==> n in nodes && NodeOk(n)
      requires p0 + 1 < |levels[i]| && pred == levels[i][p0] && pred.marked
      ensures 0 < q < |levels[i]| && cur == levels[i][q] && !cur.marked && forall m :: 0 < m < q ==> levels[i][m].marked
      ensures pred' in levels[i] && pred'.marked
    {
      hide Chain, NodeOk;
      ghost var l := levels[i];
      TailUnmarked(i);
      assert LevelOk(i) && Link(i, p0);
      pred' := pred;
      cur := pred.next[i];
      ghost var p := p0;
      while cur.marked
        invariant p + 1 < |l| && pred' == l[p] && cur == l[p + 1] && pred'.marked && cur in nodes
        decreases |l| - p
      {
        pred', p := cur, p + 1;
        assert l[p + 1] in l && Link(i, p);
        cur := pred'.next[i];
      }
      assert l[p] in l;
      q := p + 1;
      BeforeMarked(i, p);
    }

    lemma BeforeMarked(i: nat, p: nat)
      requires Shape() && i < maxLevel && p < |levels[i]| && levels[i][p] in nodes && levels[i][p].marked
      requires forall n :: n in levels[i] ==> n in nodes && NodeOk(n)
      ensures forall m :: 0 < m <= p ==> levels[i][m] in nodes && levels[i][m].marked
    {
      forall m | 0 < m <= p ensures levels[i][m] in nodes && levels[i][m].marked {
        assert levels[i][m] in levels[i];
        if !levels[i][m].marked { MarkedFirst(i, m); }
      }
    }

    lemma TailUnmarked(i: nat)
      requires Shape() && i < maxLevel
      requires forall n :: n in levels[i] ==> n in nodes && NodeOk(n)
      ensures |levels[i]| >= 2 && !levels[i][|levels[i]| - 1].marked
      ensures forall k :: 0 <= k < |levels[i]| && levels[i][k].marked ==> k + 1 < |levels[i]|
      ensures forall k :: 0 <= k < |levels[i]| ==> levels[i][k] in levels[i] && levels[i][k] in nodes
    {
      assert LevelOk(i);
    }

    // restructure
    method Restructure()
      requires HalfSound()
      modifies head`next, this`levels
      ensures Sound() && levels[0] == old(levels)[0]
      ensures |levels| == |old(levels)| && forall j :: 0 < j < maxLevel ==> Trimmed(levels[j], old(levels)[j])
    {
      ghost var before := levels;
      var pred, i := head, maxLevel - 1;
      assert head in levels[maxLevel - 1] by { assert LevelOk(maxLevel - 1); }
      HeadMarked();
      while i > 0
        invariant 0 <= i < maxLevel == |levels| == |before| && Shape() && deletions > 0
        invariant forall j :: i < j < maxLevel ==> Trimmed(levels[j], before[j])
        invariant forall j :: 0 <= j <= i ==> levels[j] == before[j]
        invariant forall j, n :: 0 <= j < maxLevel && n in before[j] ==> n in nodes && NodeOk(n)
        invariant i > 0 ==> pred in before[i] && pred.marked
      {
        ghost var p := Position(i, pred);
        ghost var q;
        pred, q := Repair(i, pred, p);
        assert i > 1 ==> Sub(before, i - 1);
        i := i - 1;
      }
      FirstOf(0);
      AllRepaired(before);
    }

    lemma HeadMarked()
      requires Shape() && BottomOk() && deletions > 0
      ensures head.marked
    {
      assert LevelOk(0);
      assert levels[0][0] in levels[0] && NodeOk(head);
    }

    lemma Position(i: nat, n: Node) returns (p: nat)
      requires Shape() && i < maxLevel && n in levels[i] && n.marked
      ensures p + 1 < |levels[i]| && levels[i][p] == n
    {
      assert LevelOk(i);
      var l := levels[i];
      p :| 0 <= p < |l| && l[p] == n;
    }

    lemma AllRepaired(before: seq<seq<Node>>)
      requires |before| == |levels| == maxLevel > 0 && levels[0] == before[0]
      requires forall j :: 0 < j < maxLevel ==> Trimmed(levels[j], before[j])
      requires forall i {:trigger Sub(before, i)} :: 1 <= i < |before| - 1 ==> Sub(before, i)
      requires maxLevel > 1 ==> forall n :: n in before[1] ==> n in before[0] || (n in nodes && n.marked)
      requires |levels[0]| > 0 && levels[0][0] == head
      ensures Nested()
    {
      assert head in levels[0];
      forall i | 0 <= i < |levels| - 1 ensures Sub(levels, i) {
        assert i > 0 ==> Sub(before, i);
        forall n | n in levels[i + 1] ensures n in levels[i] {
          assert n in before[i + 1] && (n == head || !n.marked);
          assert n in before[i] || n == head;
        }
      }
    }

    // The head's pointer on a level is not behind its pointer on the level above.
    lemma HeadOrder(i: nat) returns (p: nat)
      requires Sound() && 0 < i < maxLevel
      ensures i < |head.next| && |levels[i - 1]| > 1 && head.next[i - 1] == levels[i - 1][1]
      ensures 0 < p < |levels[i - 1]| && head.next[i] == levels[i - 1][p]
    {
      assert LevelOk(i) && LevelOk(i - 1) && Sub(levels, i - 1) && Link(i, 0) && Link(i - 1, 0);
      var l, n := levels[i - 1], levels[i][1];
      assert n in levels[i - 1 + 1];
      assert n in l;
      p :| 0 <= p < |l| && l[p] == n;
    }

    // ---------- deletemin as a whole ----------

    ghost predicate Smallest(k: nat, v: nat, ps: set<(nat, nat)>) {
      (k, v) in ps && forall p :: p in ps ==> p == (k, v) || k < p.0
    }

    ghost function LiveNodes(): set<Node>
      requires |levels| > 0
      reads this, levels[0]
    {
      set n | n in levels[0] && Live(n)
    }

    // The first live node holds the smallest pair; there is none when the tail comes first.
    lemma FirstLive(y: Node)
      requires Sound() && y == levels[0][garbage + 1]
      ensures y == tail ==> Pairs() == {}
      ensures y != tail ==> Live(y) && Smallest(y.key, y.val, Pairs())
      ensures forall n :: n in LiveNodes() && n != y ==> y.key < n.key
    {
      var l := levels[0];
      OnLevel(0, garbage + 1);
      forall n | n in LiveNodes() && n != y ensures y != tail && y.key < n.key {
        var q :| 0 <= q < |l| && l[q] == n;
        OnLevel(0, q);
        assert LevelOk(0);
        assert forall j, m :: 0 < j < m < |l| ==> Lt(l[j], l[m]);
      }
    }

    // Deleting y takes its pair away and no other.
    lemma PairGone(y: Node, live: set<Node>, ps: set<(nat, nat)>)
      requires |levels| > 0 && LiveNodes() == live - {y} && y in live
      requires ps == set n | n in live :: (n.key, n.val)
      requires forall n :: n in live && n != y ==> y.key < n.key
      ensures Pairs() == ps - {(y.key, y.val)}
    {
      assert Pairs() == set n | n in LiveNodes() :: (n.key, n.val);
    }

    // Which nodes are live after y was marked, and after the head moved.
    lemma LiveAgain(y: Node, l: seq<Node>, live: set<Node>)
      requires Sound() && IsLast(y) && (forall n :: n in live ==> n in l)
      requires forall n :: n in l ==> (n in live <==> n != head && n != tail && (n.no == 0 || n == y))
      requires forall n :: n in levels[0] ==> n in l
      requires forall n :: n in l && n.no == 0 ==> n in levels[0]
      ensures LiveNodes() == live - {y}
    {
      assert deletions > 0 && y.no > 0;
    }

    // The nodes cut off are the ones passed to free_node.
    method FreeCut(first: Node, newhead: Node, ghost l: seq<Node>, ghost g: nat) returns (freed: seq<Node>)
      requires 0 < g < |l| && first == l[1] && newhead == l[g]
      requires forall k {:trigger Freeable(l, k)} :: 0 < k < g ==> Freeable(l, k)
      requires forall k :: 0 < k < g ==> l[k] != newhead
      ensures freed == l[1..g]
    {
      freed := [];
      var cur := first;
      ghost var k := 1;
      while cur != newhead
        invariant 1 <= k <= g && cur == l[k] && freed == l[1..k]
        decreases g - k
      {
        assert Freeable(l, k);
        var nxt := cur.next[0];
        assert cur.marked;
        freed := freed + [cur];
        cur, k := nxt, k + 1;
      }
    }

    ghost predicate Freeable(l: seq<Node>, k: nat)
      requires k + 1 < |l|
      reads l
    {
      l[k].marked && |l[k].next| > 0 && l[k].next[0] == l[k + 1]
    }

    lemma BeforeCut(l: seq<Node>)
      requires Sound() && l == levels[0] && garbage > 0 && IsLast(l[garbage])
      ensures forall k {:trigger Freeable(l, k)} :: 0 < k < garbage ==> Freeable(l, k)
      ensures forall k :: 0 < k < garbage ==> l[k] != l[garbage] && l[k] != head && l[k].no == deletions - garbage + k
    {
      HeadFirst();
      forall k | 0 < k < garbage ensures Freeable(l, k) && l[k] != head {
        BottomAt(k);
        NotHead(k);
      }
    }

    lemma CutMembers(l: seq<Node>)
      requires BottomOk() && l == levels[0] && garbage > 0 && l[0] == head
      ensures forall n :: n in l && n.no == 0 ==> n in [head] + l[garbage..]
      ensures forall n :: n in [head] + l[garbage..] ==> n in l && (n == head || n.no == 0 || n.no == deletions)
    {
      var c := [head] + l[garbage..];
      forall n | n in l && n.no == 0 ensures n in c {
        var k :| 0 <= k < |l| && l[k] == n;
        if k > 0 { assert c[k - garbage + 1] == n; }
      }
      forall n | n in c && n != head ensures n in l && (n.no == 0 || n.no == deletions) {
        var k :| 0 <= k < |c| && c[k] == n;
        assert n == l[garbage + k - 1];
      }
    }

    // Lines 357-373: the head is swung to y, the last deleted node, and everything before y is freed.
    method Advance(y: Node, obsHead: Node) returns (freed: seq<Node>)
      requires Sound() && garbage > 1 && y == levels[0][garbage] && IsLast(y) && obsHead == levels[0][1]
      modifies head`next, this`levels, this`garbage
      ensures Sound() && garbage == 1 && levels[0] == [head] + old(levels)[0][old(garbage)..]
      ensures freed == old(levels)[0][1..old(garbage)]
      ensures forall j :: 0 <= j < |freed| ==> freed[j].no == deletions - old(garbage) + 1 + j && freed[j].marked
      ensures forall n :: n in freed ==> forall i :: 0 <= i < maxLevel ==> n !in levels[i]
      ensures forall n :: n in old(levels)[0] && n.no == 0 ==> n in levels[0]
      ensures forall n :: n in levels[0] ==> n in old(levels)[0]
    {
      hide Chain, NodeOk, LevelOk, AllSub;
      ghost var l, g := levels[0], garbage;
      BeforeCut(l);
      HeadFirst();
      CutMembers(l);
      Cut(y);
      Restructure();
      hide Sound;
      forall k | 0 < k < g ensures Freeable(l, k) && l[k] != y {
        assert old(Freeable(l, k)) && l[k] != head;
      }
      freed := FreeCut(obsHead, y, l, g);
      forall j | 0 <= j < |freed| ensures freed[j].no == deletions - g + 1 + j && freed[j].marked {
        assert freed[j] == l[j + 1] && Freeable(l, j + 1);
      }
      forall n, i | n in freed && 0 <= i < maxLevel ensures n !in levels[i] {
        var k :| 0 <= k < |freed| && freed[k] == n;
        assert n == l[k + 1] && 0 < k + 1 < g;
        if n in levels[i] { Sunk(i, n); }
      }
    }

    // deletemin.  freed lists the nodes given to free_node, in that order.
    method DeleteMin() returns (v: nat, freed: seq<Node>)
      requires Valid()
      modifies this`levels, this`deletions, this`garbage, nodes
      ensures Valid()
      ensures old(Pairs()) == {} ==> v == 0 && freed == [] && Pairs() == {}
      ensures old(Pairs()) != {} ==>
        exists k :: Smallest(k, v, old(Pairs())) && Pairs() == old(Pairs()) - {(k, v)} && deletions == old(deletions) + 1
      ensures forall n :: n in nodes && old(n.no) > 0 ==> n.no == old(n.no)
      ensures deletions - garbage == old(deletions - garbage) + |freed|
      ensures forall j :: 0 <= j < |freed| ==> freed[j].no == old(deletions - garbage) + 1 + j && freed[j].marked
      ensures forall n :: n in freed ==> forall i :: 0 <= i < maxLevel ==> n !in levels[i]
    {
      hide Chain, NodeOk, LevelOk, AllSub, BottomOk;
      HeadFirst();
      HeadMark();
      var obsHead, obsMark := head.next[0], head.marked;
      var x, y, offset, newhead := Walk();
      FirstLive(y);
      if y == tail {
        return 0, [];
      }
      ghost var ps, live, l := Pairs(), LiveNodes(), levels[0];
      LiveParts(l, live);
      MarkFirst(x, y);
      v, freed := y.val, [];
      if newhead == null { newhead := y; }
      HeadFirst();
      HeadMark();
      if offset > maxOffset && head.next[0] == obsHead && head.marked == obsMark {
        freed := Advance(newhead, obsHead);
      }
      LiveAgain(y, l, live);
      PairGone(y, live, ps);
      assert Smallest(y.key, v, ps);
    }

    // The head's own pointer is marked exactly when something was deleted.
    lemma HeadMark()
      requires Sound()
      ensures head.marked <==> garbage > 0
    {
      HeadFirst();
      MarkedAt(0);
    }

    lemma LiveParts(l: seq<Node>, live: set<Node>)
      requires Sound() && l == levels[0] && live == LiveNodes()
      ensures forall n :: n in live ==> n in l
      ensures forall n :: n in l ==> (n in live <==> n != head && n != tail && n.no == 0)
      ensures forall n :: n in l ==> n in nodes
    {
    }
  }
}
