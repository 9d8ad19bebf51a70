// The sequential skip list of lib/spraylist/intset.c: sl_seq_add and the unprotected branches
// of sl_contains and sl_remove, on the nodes of skiplist.c.

module SeqSkipList {

  const VAL_MAX := 0x7FFF_FFFF

  // next[i] is the successor at level i; toplevel is |next|.
  class Node {
    const val: nat
    var next: seq<Node?>

    constructor (v: nat, levels: nat)
      ensures val == v && |next| == levels
    {
      val, next := v, seq(levels, _ => null);
    }
  }

  // From h to t in strictly increasing order, h before all values.
  ghost predicate Chain(l: seq<Node>, h: Node, t: Node, ns: set<Node>) {
    && |l| >= 2 && l[0] == h && l[|l| - 1] == t
    && (forall k :: 0 <= k < |l| ==> l[k] in ns)
    && (forall k :: 0 < k < |l| ==> l[k] != h)
    && (forall j, k :: 0 < j < k < |l| ==> l[j].val < l[k].val)
  }

  lemma ChainDistinct(l: seq<Node>, h: Node, t: Node, ns: set<Node>, j: nat, k: nat)
    requires Chain(l, h, t, ns) && j < k < |l|
    ensures l[j] != l[k]
  {
  }

  ghost function PutIn(l: seq<Node>, p: nat, n: Node): seq<Node>
    requires p < |l|
  {
    l[..p + 1] + [n] + l[p + 1..]
  }

  lemma PutMembers(l: seq<Node>, p: nat, n: Node)
    requires p < |l|
    ensures n in PutIn(l, p, n)
    ensures forall m :: m in PutIn(l, p, n) ==> m in l || m == n
    ensures forall m :: m in l ==> m in PutIn(l, p, n)
  {
    var c := PutIn(l, p, n);
    assert c[p + 1] == n && l == l[..p + 1] + l[p + 1..];
  }

  lemma PutInChain(l: seq<Node>, h: Node, t: Node, ns: set<Node>, p: nat, n: Node)
    requires Chain(l, h, t, ns) && p + 1 < |l| && n in ns && n != h
    requires (p > 0 ==> l[p].val < n.val) && n.val < l[p + 1].val
    ensures Chain(PutIn(l, p, n), h, t, ns)
  {
    var c := PutIn(l, p, n);
    forall k | 0 <= k < |c| ensures c[k] in ns && (k > 0 ==> c[k] != h) {
      assert c[k] == if k <= p then l[k] else if k == p + 1 then n else l[k - 1];
    }
    forall j, k | 0 < j < k < |c| ensures c[j].val < c[k].val {
      PutInOrder(l, h, t, ns, p, n, j, k);
    }
  }

  lemma PutInOrder(l: seq<Node>, h: Node, t: Node, ns: set<Node>, p: nat, n: Node, j: nat, k: nat)
    requires Chain(l, h, t, ns) && p + 1 < |l| && 0 < j < k < |PutIn(l, p, n)|
    requires (p > 0 ==> l[p].val < n.val) && n.val < l[p + 1].val
    ensures PutIn(l, p, n)[j].val < PutIn(l, p, n)[k].val
  {
    var c := PutIn(l, p, n);
    assert c[j] == if j <= p then l[j] else if j == p + 1 then n else l[j - 1];
    assert c[k] == if k <= p then l[k] else if k == p + 1 then n else l[k - 1];
    assert 0 < j < p ==> l[j].val < l[p].val;
    assert k > p + 2 ==> l[p + 1].val < l[k - 1].val;
  }

  ghost function TakeOut(l: seq<Node>, p: nat): (c: seq<Node>)
    requires p + 1 < |l|
    ensures |c| == |l| - 1
    ensures forall k {:trigger c[k]} :: 0 <= k < |c| ==> c[k] == if k <= p then l[k] else l[k + 1]
    ensures forall m :: m in c ==> m in l
    ensures forall m :: m in l && m != l[p + 1] ==> m in c
  {
    l[..p + 1] + l[p + 2..]
  }

  lemma TakeOutChain(l: seq<Node>, h: Node, t: Node, ns: set<Node>, p: nat)
    requires Chain(l, h, t, ns) && p + 2 < |l|
    ensures Chain(TakeOut(l, p), h, t, ns)
  {
  }

  ghost predicate Sub(ls: seq<seq<Node>>, i: nat)
    requires i + 1 < |ls|
  {
    forall n :: n in ls[i + 1] ==> n in ls[i]
  }

  ghost function ValuesIn(l: seq<Node>, h: Node, t: Node): set<nat> {
    set n | n in l && n != h && n != t :: n.val
  }

  class SkipList {
    const head: Node
    const tail: Node
    const maxLevel: nat                  // *levelmax
    ghost var levels: seq<seq<Node>>     // the chain of every level, head and tail included
    ghost var nodes: set<Node>

    ghost predicate Link(i: nat, k: nat)
      requires i < |levels| && k + 1 < |levels[i]| && levels[i][k] in nodes
      reads this, nodes
    {
      |levels[i][k].next| > i && levels[i][k].next[i] == levels[i][k + 1]
    }

    ghost predicate Ends(i: nat)
      requires i < |levels|
      reads this
    {
      Chain(levels[i], head, tail, nodes)
    }

    // One level: linked from head to tail in strictly increasing order.
    ghost predicate LevelOk(i: nat)
      requires i < |levels|
      reads this, nodes
    {
      Ends(i) && forall k {:trigger Link(i, k)} :: 0 <= k < |levels[i]| - 1 ==> Link(i, k)
    }

    ghost predicate Shape()
      reads this, nodes
    {
      && |levels| == maxLevel > 0 && tail.val == VAL_MAX && head in nodes && tail in nodes && head != tail
      && forall i {:trigger LevelOk(i)} :: 0 <= i < maxLevel ==> LevelOk(i)
    }

    // Every upper level is a sublist of the one below.
    ghost predicate Nested()
      reads this
    {
      forall i {:trigger SubLevel(i)} :: 0 <= i < |levels| - 1 ==> SubLevel(i)
    }

    ghost predicate SubLevel(i: nat)
      requires i + 1 < |levels|
      reads this
    {
      Sub(levels, i)
    }

    ghost predicate Valid()
      reads this, nodes
    {
      Shape() && Nested()
    }

    ghost function ValuesAt(i: nat): set<nat>
      requires i < |levels|
      reads this
    {
      ValuesIn(levels[i], head, tail)
    }

    // The set that the list stands for.
    ghost function Values(): set<nat>
      requires |levels| > 0
      reads this
    {
      ValuesAt(0)
    }

    // sl_set_new
    constructor (levelMax: nat)
      requires levelMax > 0
      ensures Valid() && Values() == {} && fresh(nodes) && maxLevel == levelMax
    {
      var t := new Node(VAL_MAX, levelMax);
      var h := new Node(0x8000_0000, levelMax);
      h.next := seq(levelMax, _ => t);
      head, tail, maxLevel := h, t, levelMax;
      levels, nodes := seq(levelMax, _ => [h, t]), {h, t};
      new;
      forall i | 0 <= i < levelMax ensures LevelOk(i) {
        assert levels[i] == [head, tail];
        assert Link(i, 0);
      }
    }

    // ---------- the search that all operations begin with ----------

    ghost predicate Straddles(i: nat, p: nat, pred: Node, succ: Node, v: nat)
      requires i < |levels|
      reads this
    {
      var l := levels[i];
      && p + 1 < |l| && pred == l[p] && succ == l[p + 1]
      && (p > 0 ==> pred.val < v) && v <= succ.val
    }

    // One level of the search, from a node of that level before v.
    method SearchLevel(i: nat, start: Node, v: nat, ghost k0: nat) returns (node: Node, next: Node, ghost p: nat)
      requires Shape() && i < maxLevel && v < VAL_MAX
      requires k0 + 1 < |levels[i]| && start == levels[i][k0] && (k0 > 0 ==> start.val < v)
      ensures Straddles(i, p, node, next, v)
    {
      node, p := start, k0;
      assert LevelOk(i) && Link(i, p);
      next := node.next[i];
      while next.val < v
        invariant p + 1 < |levels[i]| && node == levels[i][p] && next == levels[i][p + 1]
        invariant p > 0 ==> node.val < v
        decreases |levels[i]| - p
      {
        node := next;
        p := p + 1;
        assert Link(i, p);
        next := node.next[i];
      }
    }

    lemma Below(i: nat, n: Node) returns (k: nat)
      requires Valid() && i + 1 < maxLevel && n in levels[i + 1] && n != tail
      ensures k + 1 < |levels[i]| && levels[i][k] == n && (k > 0 <==> n != head)
    {
      assert LevelOk(i) && SubLevel(i);
      var l := levels[i];
      assert n in l;
      k :| 0 <= k < |l| && l[k] == n;
    }

    method Search(v: nat) returns (preds: seq<Node>, succs: seq<Node>, ghost ps: seq<nat>)
      requires Valid() && v < VAL_MAX
      ensures |preds| == |succs| == |ps| == maxLevel
      ensures forall i :: 0 <= i < maxLevel ==> Straddles(i, ps[i], preds[i], succs[i], v)
    {
      preds, succs, ps := seq(maxLevel, _ => head), seq(maxLevel, _ => tail), seq(maxLevel, _ => 0);
      var node: Node, i: nat := head, maxLevel;
      ghost var k: nat := 0;
      assert LevelOk(maxLevel - 1);
      while i > 0
        invariant i <= maxLevel == |levels| && |preds| == |succs| == |ps| == maxLevel
        invariant forall j :: i <= j < maxLevel ==> Straddles(j, ps[j], preds[j], succs[j], v)
        invariant i > 0 ==> k + 1 < |levels[i - 1]| && node == levels[i - 1][k] && (k > 0 ==> node.val < v)
      {
        i := i - 1;
        var next;
        ghost var p: nat;
        node, next, p := SearchLevel(i, node, v, k);
        preds, succs, ps := preds[i := node], succs[i := next], ps[i := p];
        if i > 0 {
          assert LevelOk(i);
          k := Below(i - 1, node);
        }
      }
    }

    // A value is on a level exactly when the search stops in front of it there.
    lemma FoundAt(i: nat, p: nat, pred: Node, succ: Node, v: nat)
      requires Shape() && i < maxLevel && Straddles(i, p, pred, succ, v) && v < VAL_MAX
      ensures v in ValuesAt(i) <==> succ.val == v
      ensures forall n :: n in levels[i] && n != head && n.val == v ==> n == succ
      ensures succ.val == v ==> succ != tail && succ != head
    {
      assert LevelOk(i);
      var l := levels[i];
      forall n | n in l && n != head && n.val == v ensures n == succ {
        var k :| 0 <= k < |l| && l[k] == n;
        assert k > 0;
        assert k >= p + 1;
      }
    }

    // sl_contains
    method Contains(v: nat) returns (result: bool)
      requires Valid() && v < VAL_MAX
      ensures result <==> v in Values()
    {
      var preds, succs;
      ghost var ps;
      preds, succs, ps := Search(v);
      FoundAt(0, ps[0], preds[0], succs[0], v);
      result := succs[0].val == v;
    }

    // ---------- insertion ----------

    // Level i gets the node between pred and succ; the levels above keep theirs.
    method LinkAt(i: nat, node: Node, pred: Node, succ: Node, v: nat, ghost p: nat)
      requires Valid() && i < maxLevel && node.val == v < VAL_MAX && |node.next| > i
      requires node != head && node in nodes
      requires Straddles(i, p, pred, succ, v) && succ.val != v
      requires forall j :: i <= j < maxLevel ==> node !in levels[j]
      requires i > 0 ==> node in levels[i - 1]
      modifies this`levels, node`next, pred`next
      ensures Valid() && |node.next| == old(|node.next|)
      ensures levels == old(levels)[i := PutIn(old(levels)[i], p, node)]
    {
      ghost var l := levels[i];
      ghost var c := PutIn(l, p, node);
      assert LevelOk(i);
      PutInChain(l, head, tail, nodes, p, node);
      PutMembers(l, p, node);
      Splice(i, node, pred, succ, p, c);
      forall j | 0 <= j < |levels| - 1 ensures SubLevel(j) {
        assert old(SubLevel(j));
      }
    }

    // The two stores.
    method Splice(i: nat, node: Node, pred: Node, succ: Node, ghost p: nat, ghost c: seq<Node>)
      requires Shape() && i < maxLevel && |node.next| > i && node != head && node in nodes && node !in levels[i]
      requires p + 1 < |levels[i]| && pred == levels[i][p] && succ == levels[i][p + 1]
      requires c == levels[i][..p + 1] + [node] + levels[i][p + 1..] && Chain(c, head, tail, nodes)
      modifies this`levels, node`next, pred`next
      ensures Shape() && |node.next| == old(|node.next|) && levels == old(levels)[i := c]
    {
      ghost var l := levels[i];
      assert LevelOk(i) && Link(i, p) && node != pred;
      forall k | 0 <= k < |l| && k != p ensures l[k] != pred {
        ChainDistinct(l, head, tail, nodes, if k < p then k else p, if k < p then p else k);
      }
      hide Chain;
      node.next := node.next[i := succ];
      pred.next := pred.next[i := node];
      levels := levels[i := c];
      forall j | 0 <= j < maxLevel && j != i ensures LevelOk(j) {
        assert old(LevelOk(j));
        forall k | 0 <= k < |levels[j]| - 1 ensures Link(j, k) { assert old(Link(j, k)); }
      }
      forall k | 0 <= k < |c| - 1 ensures Link(i, k) {
        if k < p { assert old(Link(i, k)) && c[k] == l[k] && c[k + 1] == l[k + 1] && l[k] != node; }
        if k > p + 1 { assert old(Link(i, k - 1)) && c[k] == l[k - 1] && c[k + 1] == l[k] && l[k - 1] != node; }
      }
      assert LevelOk(i);
    }

    lemma PutInValues(l: seq<Node>, p: nat, node: Node)
      requires p < |l| && node != head && node != tail
      ensures (set n | n in PutIn(l, p, node) && n != head && n != tail :: n.val)
           == (set n | n in l && n != head && n != tail :: n.val) + {node.val}
    {
      PutMembers(l, p, node);
    }

    // sl_seq_add, with the number of levels that get_rand_level drew.
    method Add(v: nat, l: nat) returns (result: bool)
      requires Valid() && v < VAL_MAX && 1 <= l <= maxLevel
      modifies this, nodes
      ensures Valid() && fresh(nodes - old(nodes))
      ensures result <==> v !in old(Values())
      ensures Values() == old(Values()) + {v}
      ensures forall i :: 0 <= i < maxLevel ==>
        ValuesAt(i) == if result && i < l then old(ValuesAt(i)) + {v} else old(ValuesAt(i))
    {
      var preds, succs;
      ghost var ps;
      preds, succs, ps := Search(v);
      FoundAt(0, ps[0], preds[0], succs[0], v);
      result := succs[0].val != v;
      if result {
        forall i | 0 <= i < maxLevel ensures succs[i].val != v { AbsentAbove(v, i); FoundAt(i, ps[i], preds[i], succs[i], v); }
        AddAbsent(v, l, preds, succs, ps);
      } else {
        assert Values() == Values() + {v};
      }
    }

    // A value that is not on the bottom level is on no level.
    lemma {:induction false} AbsentAbove(v: nat, i: nat)
      requires Valid() && v !in Values() && i < maxLevel
      ensures v !in ValuesAt(i)
    {
      if i > 0 {
        AbsentAbove(v, i - 1);
        assert SubLevel(i - 1);
        forall n | n in levels[i] && n != head && n != tail ensures n.val != v {
          assert n in levels[i - 1];
        }
      }
    }

    method AddAbsent(v: nat, l: nat, preds: seq<Node>, succs: seq<Node>, ghost ps: seq<nat>)
      requires Valid() && v < VAL_MAX && 1 <= l <= maxLevel
      requires |preds| == |succs| == |ps| == maxLevel
      requires forall i :: 0 <= i < maxLevel ==> Straddles(i, ps[i], preds[i], succs[i], v) && succs[i].val != v
      modifies this, nodes
      ensures Valid() && fresh(nodes - old(nodes))
      ensures forall i :: 0 <= i < maxLevel ==>
        ValuesAt(i) == if i < l then old(ValuesAt(i)) + {v} else old(ValuesAt(i))
    {
      var node := new Node(v, l);
      var i := 0;
      ghost var before := levels;
      forall j | 0 <= j < maxLevel ensures node !in levels[j] && preds[j] in nodes {
        assert LevelOk(j) && preds[j] == levels[j][ps[j]];
      }
      nodes := nodes + {node};
      assert Valid() by {
        forall j | 0 <= j < maxLevel ensures LevelOk(j) {
          assert old(LevelOk(j));
          forall k | 0 <= k < |levels[j]| - 1 ensures Link(j, k) { assert old(Link(j, k)); }
        }
        forall j | 0 <= j < |levels| - 1 ensures SubLevel(j) { assert old(SubLevel(j)); }
      }
      while i < l
        invariant i <= l && Valid() && |node.next| == l && nodes == old(nodes) + {node}
        invariant |levels| == maxLevel
        invariant forall j :: i <= j < maxLevel ==> levels[j] == before[j]
        invariant forall j :: 0 <= j < i ==> levels[j] == PutIn(before[j], ps[j], node)
      {
        LinkAt(i, node, preds[i], succs[i], v, ps[i]);
        i := i + 1;
      }
      forall j | 0 <= j < maxLevel
        ensures ValuesAt(j) == if j < l then old(ValuesAt(j)) + {v} else old(ValuesAt(j))
      {
        PutInValues(before[j], ps[j], node);
      }
    }

    // ---------- removal ----------

    // Level i loses succ.
    method UnlinkAt(i: nat, pred: Node, succ: Node, v: nat, ghost p: nat)
      requires Shape() && i < maxLevel && succ.val == v < VAL_MAX && Straddles(i, p, pred, succ, v)
      modifies this`levels, pred`next
      ensures Shape() && levels == old(levels)[i := TakeOut(old(levels)[i], p)]
    {
      ghost var l := levels[i];
      ghost var c := TakeOut(l, p);
      assert LevelOk(i) && Link(i, p) && Link(i, p + 1);
      TakeOutChain(l, head, tail, nodes, p);
      forall k | 0 <= k < |l| && k != p ensures l[k] != pred {
        ChainDistinct(l, head, tail, nodes, if k < p then k else p, if k < p then p else k);
      }
      hide Chain;
      pred.next := pred.next[i := succ.next[i]];
      levels := levels[i := c];
      forall j | 0 <= j < maxLevel && j != i ensures LevelOk(j) {
        assert old(LevelOk(j));
        forall k | 0 <= k < |levels[j]| - 1 ensures Link(j, k) { assert old(Link(j, k)); }
      }
      forall k | 0 <= k < |c| - 1 ensures Link(i, k) {
        if k < p { assert old(Link(i, k)) && l[k] != pred; }
        if k > p { assert old(Link(i, k + 1)) && l[k + 1] != pred; }
      }
      assert LevelOk(i);
    }

    // sl_remove; node is the one it passes to sl_delete_node.
    method Remove(v: nat) returns (result: bool, node: Node?)
      requires Valid() && v < VAL_MAX
      modifies this`levels, nodes
      ensures Valid()
      ensures result <==> v in old(Values())
      ensures Values() == old(Values()) - {v}
      ensures forall i :: 0 <= i < maxLevel ==> ValuesAt(i) == old(ValuesAt(i)) - {v}
      ensures result <==> node != null
      ensures node != null ==> node.val == v && node in old(levels[0]) && OnNoLevel(node)
    {
      var preds, succs;
      ghost var ps;
      preds, succs, ps := Search(v);
      FoundAt(0, ps[0], preds[0], succs[0], v);
      result, node := succs[0].val == v, null;
      if result {
        node := succs[0];
        RemovePresent(v, preds, succs, ps);
        Gone(node);
      } else {
        forall i | 0 <= i < maxLevel ensures v !in ValuesAt(i) { AbsentAbove(v, i); }
      }
    }

    ghost predicate OnNoLevel(node: Node)
      reads this
    {
      forall i :: 0 <= i < |levels| ==> node !in levels[i]
    }

    // Nobody has the value any more, so the node that had it is on no level.
    lemma Gone(node: Node)
      requires |levels| == maxLevel && node != head && node != tail
      requires forall i :: 0 <= i < maxLevel ==> node.val !in ValuesAt(i)
      ensures OnNoLevel(node)
    {
      assert forall i :: 0 <= i < |levels| && node in levels[i] ==> node.val in ValuesAt(i);
    }

    // A level without the value that its search was for.
    ghost function Without(l: seq<Node>, p: nat, v: nat): seq<Node>
      requires p + 1 < |l|
    {
      if l[p + 1].val == v then TakeOut(l, p) else l
    }

    method RemovePresent(v: nat, preds: seq<Node>, succs: seq<Node>, ghost ps: seq<nat>)
      requires Valid() && v < VAL_MAX
      requires |preds| == |succs| == |ps| == maxLevel
      requires forall i :: 0 <= i < maxLevel ==> Straddles(i, ps[i], preds[i], succs[i], v)
      modifies this`levels, nodes
      ensures Valid()
      ensures forall i :: 0 <= i < maxLevel ==> ValuesAt(i) == old(ValuesAt(i)) - {v}
    {
      ghost var before := levels;
      forall j | 0 <= j < maxLevel ensures Shrinks(before[j], ps[j], v) {
        WithoutIs(j, ps[j], preds[j], succs[j], v);
      }
      forall j | 0 <= j < maxLevel - 1 ensures Sub(before, j) { assert SubLevel(j); }
      hide LevelOk, Without, Shrinks, Nested, Sub, ValuesIn;
      UnlinkAll(v, preds, succs, ps);
      Removed(before, ps, v);
    }

    // The loop over the levels.
    method UnlinkAll(v: nat, preds: seq<Node>, succs: seq<Node>, ghost ps: seq<nat>)
      requires Shape() && v < VAL_MAX
      requires |preds| == |succs| == |ps| == maxLevel
      requires forall i :: 0 <= i < maxLevel ==> Straddles(i, ps[i], preds[i], succs[i], v)
      modifies this`levels, nodes
      ensures Shape() && |old(levels)| == maxLevel
      ensures forall j :: 0 <= j < maxLevel ==> ps[j] + 1 < |old(levels)[j]| && levels[j] == Without(old(levels)[j], ps[j], v)
    {
      ghost var before := levels;
      forall j | 0 <= j < maxLevel ensures preds[j] in nodes { assert LevelOk(j) && preds[j] == levels[j][ps[j]]; }
      hide LevelOk, Chain, Without;
      var i := 0;
      while i < maxLevel
        invariant i <= maxLevel == |levels| && Shape()
        invariant forall j :: i <= j < maxLevel ==> levels[j] == before[j]
        invariant forall j :: 0 <= j < i ==> levels[j] == Without(before[j], ps[j], v)
      {
        WithoutStep(i, ps[i], succs[i], v);
        if succs[i].val == v {
          UnlinkAt(i, preds[i], succs[i], v, ps[i]);
        }
        i := i + 1;
      }
    }

    // What Without does to a level.
    ghost predicate Shrinks(l: seq<Node>, p: nat, v: nat)
      requires p + 1 < |l|
    {
      && (forall n :: n in Without(l, p, v) ==> n in l && (n == head || n.val != v))
      && forall n :: n in l && (n == head || n.val != v) ==> n in Without(l, p, v)
    }

    lemma WithoutStep(i: nat, p: nat, succ: Node, v: nat)
      requires i < |levels| && p + 1 < |levels[i]| && succ == levels[i][p + 1]
      ensures Without(levels[i], p, v) == if succ.val == v then TakeOut(levels[i], p) else levels[i]
    {
    }

    // Taking the value out of every level keeps the levels nested and takes it from their sets.
    lemma Removed(before: seq<seq<Node>>, ps: seq<nat>, v: nat)
      requires |levels| == |before| == |ps| && forall j {:trigger Sub(before, j)} :: 0 <= j < |before| - 1 ==> Sub(before, j)
      requires forall j :: 0 <= j < |levels| ==>
        ps[j] + 1 < |before[j]| && Shrinks(before[j], ps[j], v) && levels[j] == Without(before[j], ps[j], v)
      ensures Nested()
      ensures forall j :: 0 <= j < |levels| ==> ValuesAt(j) == ValuesIn(before[j], head, tail) - {v}
    {
      hide Without;
      forall j | 0 <= j < |levels| - 1 ensures SubLevel(j) { assert Sub(before, j); }
    }

    lemma WithoutIs(i: nat, p: nat, pred: Node, succ: Node, v: nat)
      requires Shape() && i < maxLevel && Straddles(i, p, pred, succ, v) && v < VAL_MAX
      ensures Shrinks(levels[i], p, v)
    {
      FoundAt(i, p, pred, succ, v);
      assert LevelOk(i);
      var l := levels[i];
      if succ.val == v {
        var c := TakeOut(l, p);
        forall k | 0 <= k < |c| ensures c[k] == head || c[k].val != v {
          if k > 0 && k <= p { assert l[k] in l; }
          if k > p { assert l[k + 1] in l && l[k + 1] != l[p + 1]; }
        }
      }
    }
  }
}
