// The hash set of retired nodes that Pass-the-Buck reclamation builds and empties again,
// lib/libcds/src/ptb_gc.cpp.  Nodes carry two links: m_pNext joins the first nodes of the
// groups of a bucket, m_pNextFree joins the nodes of one group, which all hold the same
// pointer.  Pointers are numbers, null is 0.

module PassTheBuck {
  import opened Sequences

  class RetiredNode {
    const ptr: nat
    var next: RetiredNode?
    var nextFree: RetiredNode?

    constructor (p: nat)
      ensures ptr == p && next == null && nextFree == null
    {
      ptr, next, nextFree := p, null, null;
    }
  }

  type Group = seq<RetiredNode>

  ghost predicate FreeLink(g: Group, j: nat)
    requires j < |g|
    reads g`nextFree
  {
    g[j].nextFree == if j + 1 < |g| then g[j + 1] else null
  }

  // Nodes of one pointer, linked on nextFree.
  ghost predicate GroupOk(g: Group)
    reads g`nextFree
  {
    && |g| > 0
    && (forall j {:trigger FreeLink(g, j)} :: 0 <= j < |g| ==> FreeLink(g, j))
    && (forall n :: n in g ==> n.ptr == g[0].ptr)
    && Distinct(g)
  }

  // The groups are made of exactly these nodes.
  ghost predicate Covers(gs: seq<Group>, nodes: set<RetiredNode>) {
    && (forall i {:trigger gs[i]} :: 0 <= i < |gs| ==> |gs[i]| > 0)
    && (forall i, n :: 0 <= i < |gs| && n in gs[i] ==> n in nodes)
    && (forall n :: n in nodes ==> exists i :: 0 <= i < |gs| && n in gs[i])
  }

  ghost predicate HeadLink(gs: seq<Group>, i: nat, nodes: set<RetiredNode>)
    requires Covers(gs, nodes) && i < |gs|
    reads nodes
  {
    assert gs[i][0] in gs[i];
    gs[i][0].next == if i + 1 < |gs| then gs[i + 1][0] else null
  }

  ghost predicate GroupIn(gs: seq<Group>, i: nat, nodes: set<RetiredNode>)
    requires Covers(gs, nodes) && i < |gs|
    reads nodes
  {
    assert forall n :: n in gs[i] ==> n in nodes;
    GroupOk(gs[i])
  }

  // A bucket: the first nodes of its groups linked on next, one group a pointer.
  ghost predicate BucketOk(first: RetiredNode?, gs: seq<Group>, nodes: set<RetiredNode>)
    reads nodes
  {
    && Covers(gs, nodes)
    && (forall i {:trigger GroupIn(gs, i, nodes)} :: 0 <= i < |gs| ==> GroupIn(gs, i, nodes))
    && first == (if gs == [] then null else gs[0][0])
    && (forall i {:trigger HeadLink(gs, i, nodes)} :: 0 <= i < |gs| ==> HeadLink(gs, i, nodes))
    && forall i, k :: 0 <= i < k < |gs| ==> gs[i][0].ptr != gs[k][0].ptr
  }

  // The nodes of a group are all the nodes of the bucket with its pointer.
  lemma GroupIsPointer(first: RetiredNode?, gs: seq<Group>, nodes: set<RetiredNode>, i: nat, n: RetiredNode)
    requires BucketOk(first, gs, nodes) && i < |gs| && n in nodes
    ensures n in gs[i] <==> n.ptr == gs[i][0].ptr
  {
    var k: nat :| k < |gs| && n in gs[k];
    assert GroupIn(gs, k, nodes) && GroupIn(gs, i, nodes);
  }

  // ---------- one bucket ----------

  // liberate_set::insert
  method InsertInBucket(first: RetiredNode?, node: RetiredNode, ghost gs: seq<Group>, ghost nodes: set<RetiredNode>)
    returns (first': RetiredNode, ghost gs': seq<Group>)
    requires BucketOk(first, gs, nodes) && node !in nodes && node.nextFree == null
    modifies node, nodes
    ensures BucketOk(first', gs', nodes + {node})
  {
    node.next := null;
    if first != null {
      var p := first;
      ghost var i := 0;
      while p != null
        invariant p != null ==> i < |gs| && p == gs[i][0]
        invariant p == null ==> i == |gs|
        invariant BucketOk(first, gs, nodes) && node.nextFree == null
        invariant forall k :: 0 <= k < i ==> gs[k][0].ptr != node.ptr
        decreases |gs| - i
      {
        if p.ptr == node.ptr {
          gs' := JoinGroup(node, p, first, gs, i, nodes);
          return first, gs';
        }
        assert HeadLink(gs, i, nodes);
        p := p.next;
        i := i + 1;
      }
      node.next := first;
    }
    gs' := [[node]] + gs;
    first' := node;
    NewGroup(node, first, gs, nodes);
  }

  // The node goes in behind the first one of its group.
  method JoinGroup(node: RetiredNode, p: RetiredNode, ghost first: RetiredNode, ghost gs: seq<Group>, ghost i: nat, ghost nodes: set<RetiredNode>)
    returns (ghost gs': seq<Group>)
    requires BucketOk(first, gs, nodes) && node !in nodes && node.nextFree == null
    requires i < |gs| && p == gs[i][0] && p.ptr == node.ptr
    modifies node, nodes
    ensures BucketOk(first, gs', nodes + {node})
  {
    assert GroupIn(gs, i, nodes) && FreeLink(gs[i], 0);
    assert p in gs[i];
    node.nextFree := p.nextFree;
    p.nextFree := node;
    gs' := gs[i := [p, node] + gs[i][1..]];
    ghost var nodes' := nodes + {node};
    JoinCovers(node, p, gs, i, gs', nodes);
    forall k | 0 <= k < |gs'| ensures GroupIn(gs', k, nodes') && HeadLink(gs', k, nodes') {
      assert old(GroupIn(gs, k, nodes)) && old(HeadLink(gs, k, nodes));
      assert gs'[k][0] == gs[k][0] && gs'[k][0] in gs[k];
      if k + 1 < |gs| { assert gs'[k + 1][0] == gs[k + 1][0]; }
      if k != i {
        assert p !in gs[k];
        forall j | 0 <= j < |gs[k]| ensures FreeLink(gs'[k], j) {
          assert old(FreeLink(gs[k], j)) && gs[k][j] in gs[k];
        }
      } else {
        forall j | 0 <= j < |gs'[k]| ensures FreeLink(gs'[k], j) {
          if j > 1 { assert old(FreeLink(gs[k], j - 1)) && gs[k][j - 1] in gs[k]; }
        }
      }
    }
  }

  lemma JoinCovers(node: RetiredNode, p: RetiredNode, gs: seq<Group>, i: nat, gs': seq<Group>, nodes: set<RetiredNode>)
    requires Covers(gs, nodes) && i < |gs| && p == gs[i][0] && gs' == gs[i := [p, node] + gs[i][1..]]
    ensures Covers(gs', nodes + {node})
  {
    assert node in gs'[i];
    assert gs[i] == [p] + gs[i][1..];
    forall n | n in nodes ensures exists k :: 0 <= k < |gs'| && n in gs'[k] {
      var k :| 0 <= k < |gs| && n in gs[k];
      assert n in gs'[k];
    }
  }

  lemma NewGroup(node: RetiredNode, first: RetiredNode?, gs: seq<Group>, nodes: set<RetiredNode>)
    requires BucketOk(first, gs, nodes) && node !in nodes && node.nextFree == null && node.next == first
    requires forall k :: 0 <= k < |gs| ==> gs[k][0].ptr != node.ptr
    ensures BucketOk(node, [[node]] + gs, nodes + {node})
  {
    var gs', nodes' := [[node]] + gs, nodes + {node};
    assert gs'[0] == [node];
    forall n | n in nodes ensures exists k :: 0 <= k < |gs'| && n in gs'[k] {
      var k :| 0 <= k < |gs| && n in gs[k];
      assert n in gs'[k + 1];
    }
    forall i | 0 <= i < |gs'| ensures GroupIn(gs', i, nodes') && HeadLink(gs', i, nodes') {
      if i > 0 { assert GroupIn(gs, i - 1, nodes) && HeadLink(gs, i - 1, nodes); }
    }
  }

  // liberate_set::erase
  method EraseFromBucket(first: RetiredNode?, ptr: nat, ghost gs: seq<Group>, ghost nodes: set<RetiredNode>)
    returns (p: RetiredNode?, first': RetiredNode?, ghost gs': seq<Group>, ghost g: Group)
    requires BucketOk(first, gs, nodes)
    modifies nodes
    ensures p == null ==> first' == first && gs' == gs && g == [] && forall n :: n in nodes ==> n.ptr != ptr
    ensures p != null ==> GroupOk(g) && p == g[0] && p.ptr == ptr && p.next == null
    ensures forall n :: n in g <==> n in nodes && n.ptr == ptr
    ensures BucketOk(first', gs', nodes - (set n | n in g))
    ensures forall n :: n in nodes ==> n.nextFree == old(n.nextFree)
  {
    p := first;
    var prev: RetiredNode? := null;
    ghost var i := 0;
    while p != null
      invariant p != null ==> i < |gs| && p == gs[i][0]
      invariant p == null ==> i == |gs|
      invariant prev == if i == 0 then null else gs[i - 1][0]
      invariant forall k :: 0 <= k < i ==> gs[k][0].ptr != ptr
      decreases |gs| - i
    {
      assert HeadLink(gs, i, nodes);
      if p.ptr == ptr {
        gs', g := gs[..i] + gs[i + 1..], gs[i];
        forall n | n in nodes ensures n in g <==> n.ptr == ptr { GroupIsPointer(first, gs, nodes, i, n); }
        first' := UnlinkGroup(p, prev, first, gs, i, nodes);
        return p, first', gs', g;
      }
      prev := p;
      p := p.next;
      i := i + 1;
    }
    first', gs', g := first, gs, [];
    forall n | n in nodes ensures n.ptr != ptr {
      var k: nat :| k < |gs| && n in gs[k];
      assert GroupIn(gs, k, nodes);
    }
    assert nodes - (set n | n in g) == nodes;
  }

  method UnlinkGroup(p: RetiredNode, prev: RetiredNode?, first: RetiredNode, ghost gs: seq<Group>, ghost i: nat, ghost nodes: set<RetiredNode>)
    returns (first': RetiredNode?)
    requires BucketOk(first, gs, nodes) && i < |gs| && p == gs[i][0]
    requires prev == if i == 0 then null else gs[i - 1][0]
    modifies nodes
    ensures p.next == null && GroupOk(gs[i])
    ensures BucketOk(first', gs[..i] + gs[i + 1..], nodes - (set n | n in gs[i]))
    ensures forall n :: n in nodes ==> n.nextFree == old(n.nextFree)
  {
    ghost var gs', rest := gs[..i] + gs[i + 1..], nodes - (set n | n in gs[i]);
    assert HeadLink(gs, i, nodes) && GroupIn(gs, i, nodes);
    assert p in gs[i] && (i > 0 ==> prev in gs[i - 1] && HeadLink(gs, i - 1, nodes));
    GroupsDisjoint(first, gs, nodes, i);
    first' := first;
    if prev != null {
      prev.next := p.next;
    } else {
      first' := p.next;
    }
    p.next := null;
    UnlinkCovers(gs, i, nodes);
    forall q | 0 <= q < |gs| ensures GroupOk(gs[q]) { assert old(GroupIn(gs, q, nodes)); }
    forall k | 0 <= k < |gs'| ensures HeadLink(gs', k, rest) {
      var q := if k < i then k else k + 1;
      assert old(HeadLink(gs, q, nodes)) && gs'[k] == gs[q] && gs[q][0] in gs[q] && gs[q][0] != p;
    }
  }

  // A node is in one group only.
  lemma GroupsDisjoint(first: RetiredNode?, gs: seq<Group>, nodes: set<RetiredNode>, i: nat)
    requires BucketOk(first, gs, nodes) && i < |gs|
    ensures forall k, n :: 0 <= k < |gs| && n in gs[k] && n in gs[i] ==> k == i
  {
    forall k, n | 0 <= k < |gs| && n in gs[k] && n in gs[i] ensures k == i {
      GroupIsPointer(first, gs, nodes, i, n);
      GroupIsPointer(first, gs, nodes, k, n);
    }
  }

  lemma UnlinkCovers(gs: seq<Group>, i: nat, nodes: set<RetiredNode>)
    requires Covers(gs, nodes) && i < |gs|
    requires forall k, n :: 0 <= k < |gs| && n in gs[k] && n in gs[i] ==> k == i
    ensures Covers(gs[..i] + gs[i + 1..], nodes - (set n | n in gs[i]))
  {
    var gs', rest := gs[..i] + gs[i + 1..], nodes - (set n | n in gs[i]);
    forall n | n in rest ensures exists k :: 0 <= k < |gs'| && n in gs'[k] {
      var k :| 0 <= k < |gs| && n in gs[k];
      assert n in gs'[if k < i then k else k - 1];
    }
    forall k, n | 0 <= k < |gs'| && n in gs'[k] ensures n in rest {
      assert n in gs[if k < i then k else k + 1];
    }
  }

  // ---------- freeing everything that is left ----------

  ghost predicate FreeNext(s: seq<RetiredNode>, j: nat, end: RetiredNode?)
    requires j < |s|
    reads s
  {
    s[j].nextFree == if j + 1 < |s| then s[j + 1] else end
  }

  // s is linked on nextFree and leads to end.
  ghost predicate FreeList(s: seq<RetiredNode>, end: RetiredNode?)
    reads s
  {
    forall j {:trigger FreeNext(s, j, end)} :: 0 <= j < |s| ==> FreeNext(s, j, end)
  }

  lemma FreeListJoin(a: seq<RetiredNode>, b: seq<RetiredNode>, end: RetiredNode?)
    requires FreeList(b, end) && FreeList(a, if |b| > 0 then b[0] else end)
    ensures FreeList(a + b, end)
  {
    forall j | 0 <= j < |a + b| ensures FreeNext(a + b, j, end) {
      if j < |a| { assert FreeNext(a, j, if |b| > 0 then b[0] else end); } else { assert FreeNext(b, j - |a|, end); }
    }
  }

  lemma DistinctJoin(a: seq<RetiredNode>, b: seq<RetiredNode>)
    requires Distinct(a) && Distinct(b) && forall n :: n in a ==> n !in b
    ensures Distinct(a + b)
  {
    forall j, k | 0 <= j < k < |a + b| ensures (a + b)[j] != (a + b)[k] {
      if j < |a| <= k { assert a[j] in a && b[k - |a|] in b; }
    }
  }

  lemma GroupList(g: Group)
    requires GroupOk(g)
    ensures FreeList(g, null) && Distinct(g)
  {
    forall j | 0 <= j < |g| ensures FreeNext(g, j, null) { assert FreeLink(g, j); }
  }

  // The inner loop: one group.
  method FreeGroup(head: RetiredNode, ghost g: Group) returns (tail: RetiredNode, freed: seq<RetiredNode>)
    requires GroupOk(g) && head == g[0]
    modifies g
    ensures freed == g && tail == g[|g| - 1]
    ensures forall n :: n in g ==> n.next == null && n.nextFree == old(n.nextFree)
    ensures GroupOk(g)
  {
    tail := head;
    freed := [head];
    tail.next := null;
    while tail.nextFree != null
      invariant 0 < |freed| <= |g| && freed == g[..|freed|] && tail == g[|freed| - 1]
      invariant forall n :: n in freed ==> n.next == null
      invariant forall n :: n in g ==> n.nextFree == old(n.nextFree)
      decreases |g| - |freed|
    {
      assert old(FreeLink(g, |freed| - 1)) && tail in g;
      tail := tail.nextFree;
      tail.next := null;
      freed := freed + [tail];
    }
    assert old(FreeLink(g, |freed| - 1)) && tail in g;
    forall j | 0 <= j < |g| ensures FreeLink(g, j) {
      assert old(FreeLink(g, j)) && g[j] in g;
    }
  }

  // What is still to come after group i of a bucket.
  ghost predicate Rest(gs: seq<Group>, i: nat, nodes: set<RetiredNode>)
    requires Covers(gs, nodes)
    reads nodes
  {
    && (forall k {:trigger GroupIn(gs, k, nodes)} :: i <= k < |gs| ==> GroupIn(gs, k, nodes))
    && forall k {:trigger HeadLink(gs, k, nodes)} :: i <= k < |gs| ==> HeadLink(gs, k, nodes)
  }

  ghost predicate Apart(gs: seq<Group>) {
    forall i, k, n :: 0 <= i < |gs| && 0 <= k < |gs| && n in gs[i] && n in gs[k] ==> i == k
  }

  // freed holds exactly the nodes of the groups before group i.
  ghost predicate Before(gs: seq<Group>, i: nat, freed: seq<RetiredNode>)
    requires i <= |gs|
  {
    && (forall n :: n in freed ==> exists k :: 0 <= k < i && n in gs[k])
    && forall k, n :: 0 <= k < i && n in gs[k] ==> n in freed
  }

  lemma BeforeNext(gs: seq<Group>, i: nat, freed: seq<RetiredNode>)
    requires i < |gs| && Before(gs, i, freed)
    ensures Before(gs, i + 1, freed + gs[i])
  {
    forall n | n in freed + gs[i] ensures exists k :: 0 <= k < i + 1 && n in gs[k] {
      if n !in gs[i] {
        var k :| 0 <= k < i && n in gs[k];
      }
    }
  }

  // One turn of the loop over the groups of a bucket.
  method FreeOne(head: RetiredNode, freed: seq<RetiredNode>, ghost gs: seq<Group>, ghost i: nat, ghost nodes: set<RetiredNode>)
    returns (tail: RetiredNode, pNext: RetiredNode?, freed': seq<RetiredNode>)
    requires Covers(gs, nodes) && Apart(gs) && i < |gs| && head == gs[i][0] && Rest(gs, i, nodes)
    requires Distinct(freed) && FreeList(freed, head)
    requires Before(gs, i, freed) && forall n :: n in freed ==> n.next == null
    modifies nodes
    ensures Before(gs, i + 1, freed')
    ensures freed' == freed + gs[i] && tail == gs[i][|gs[i]| - 1]
    ensures pNext == if i + 1 < |gs| then gs[i + 1][0] else null
    ensures Distinct(freed') && FreeList(freed', pNext) && Rest(gs, i + 1, nodes)
    ensures forall n :: n in freed' ==> n.next == null
  {
    assert GroupIn(gs, i, nodes) && HeadLink(gs, i, nodes);
    ghost var g := gs[i];
    assert forall n :: n in g ==> n in nodes;
    pNext := head.next;
    var fr;
    tail, fr := FreeGroup(head, g);
    GroupList(g);
    assert FreeLink(g, |g| - 1);
    if pNext != null {
      tail.nextFree := pNext;
    }
    freed' := freed + fr;
    forall j | 0 <= j < |g| ensures FreeNext(g, j, pNext) {
      assert g[j] == tail ==> j == |g| - 1;
      assert old(FreeLink(g, j));
    }
    forall j | 0 <= j < |freed| ensures FreeNext(freed, j, head) {
      assert old(FreeNext(freed, j, head)) && freed[j] in freed && freed[j] !in g;
    }
    FreeListJoin(freed, g, pNext);
    DistinctJoin(freed, g);
    BeforeNext(gs, i, freed);
    forall k | i < k < |gs| ensures GroupIn(gs, k, nodes) && HeadLink(gs, k, nodes) {
      assert old(GroupIn(gs, k, nodes)) && old(HeadLink(gs, k, nodes)) && gs[k][0] in gs[k];
      assert forall n :: n in gs[k] ==> n !in g;
      forall j | 0 <= j < |gs[k]| ensures FreeLink(gs[k], j) {
        assert old(FreeLink(gs[k], j)) && gs[k][j] in gs[k];
      }
    }
  }

  // The outer loop: one bucket.
  method FreeBucket(first: RetiredNode, ghost gs: seq<Group>, ghost nodes: set<RetiredNode>)
    returns (tail: RetiredNode, freed: seq<RetiredNode>)
    requires BucketOk(first, gs, nodes)
    modifies nodes
    ensures |freed| > 0 && freed[0] == first && tail == freed[|freed| - 1]
    ensures forall n :: n in freed <==> n in nodes
    ensures Distinct(freed) && FreeList(freed, null)
    ensures forall n :: n in nodes ==> n.next == null
  {
    forall i | 0 <= i < |gs| ensures forall k, n :: 0 <= k < |gs| && n in gs[k] && n in gs[i] ==> k == i {
      GroupsDisjoint(first, gs, nodes, i);
    }
    assert Apart(gs);
    tail, freed := first, [];
    ghost var i := 0;
    while true
      invariant i < |gs| && tail == gs[i][0] && Rest(gs, i, nodes)
      invariant |freed| > 0 ==> freed[0] == first
      invariant i > 0 ==> |freed| > 0
      invariant i == 0 ==> freed == []
      invariant Distinct(freed) && FreeList(freed, tail)
      invariant Before(gs, i, freed)
      invariant forall n :: n in freed ==> n.next == null
      decreases |gs| - i
    {
      var pNext;
      tail, pNext, freed := FreeOne(tail, freed, gs, i, nodes);
      i := i + 1;
      if pNext == null { break; }
      tail := pNext;
    }
  }

  // The body of free_all's loop over the buckets: the chain of the bucket is hooked on to the
  // end of the list and freed.
  method AppendBucket(first: RetiredNode, last: RetiredNode?, freed: seq<RetiredNode>, ghost gs: seq<Group>, ghost nodes: set<RetiredNode>)
    returns (tail: RetiredNode, freed': seq<RetiredNode>)
    requires BucketOk(first, gs, nodes)
    requires Distinct(freed) && FreeList(freed, null)
    requires forall n :: n in freed ==> n !in nodes && n.next == null
    requires if freed == [] then last == null else last == freed[|freed| - 1]
    modifies nodes, freed
    ensures freed <= freed' && |freed'| > |freed| && tail == freed'[|freed'| - 1]
    ensures freed == [] ==> freed'[0] == first
    ensures Distinct(freed') && FreeList(freed', null)
    ensures forall n :: n in freed' <==> n in freed || n in nodes
    ensures forall n :: n in freed' ==> n.next == null
  {
    if last != null {
      last.nextFree := first;
    }
    assert BucketOk(first, gs, nodes);
    forall j | 0 <= j < |freed| ensures FreeNext(freed, j, first) {
      assert old(FreeNext(freed, j, null)) && freed[j] in freed;
    }
    label Hooked:
    var fr;
    tail, fr := FreeBucket(first, gs, nodes);
    freed' := freed + fr;
    forall j | 0 <= j < |freed| ensures FreeNext(freed, j, fr[0]) {
      assert old@Hooked(FreeNext(freed, j, first)) && freed[j] in freed;
    }
    FreeListJoin(freed, fr, null);
    DistinctJoin(freed, fr);
  }
}
