// GarbageCollector::liberate of lib/libcds/src/ptb_gc.cpp: the hash set over all buckets, the
// buffer of retired nodes, and the call that splits the privatized nodes into those that some
// guard still protects and those that are freed.

module PtbLiberate {
  import opened Sequences
  import opened IntAlgo
  import opened PassTheBuck

  class LiberateSet {
    const hash: nat -> nat
    const buckets: array<RetiredNode?>
    ghost var groups: seq<seq<Group>>
    ghost var nodes: set<RetiredNode>

    // The bucket number of a pointer; the bucket count is a power of two.
    function Index(p: nat): nat {
      BitAnd(hash(p), if buckets.Length > 0 then buckets.Length - 1 else 0)
    }

    ghost function Part(b: nat): set<RetiredNode>
      reads this
    {
      set n | n in nodes && Index(n.ptr) == b
    }

    ghost predicate BucketIn(b: nat)
      requires |groups| == buckets.Length && b < |groups|
      reads this, buckets, nodes
    {
      BucketOk(buckets[b], groups[b], Part(b))
    }

    ghost predicate Valid()
      reads this, buckets, nodes
    {
      && |groups| == buckets.Length && IsPower2(buckets.Length)
      && forall b {:trigger BucketIn(b)} :: 0 <= b < |groups| ==> BucketIn(b)
    }

    constructor (bucketCount: nat, h: nat -> nat)
      requires IsPower2(bucketCount)
      ensures Valid() && nodes == {} && fresh(buckets)
    {
      hash := h;
      buckets := new RetiredNode?[bucketCount](_ => null);
      groups := seq(bucketCount, _ => []);
      nodes := {};
    }

    // Bucket indexing stays inside the array.
    lemma IndexInRange(p: nat)
      requires IsPower2(buckets.Length)
      ensures Index(p) < buckets.Length
    {
      IsPower2Exactly(buckets.Length);
      var k: nat :| buckets.Length == Pow2(k);
      MaskIsMod(hash(p), k);
    }

    method Insert(node: RetiredNode)
      requires Valid() && node !in nodes && node.nextFree == null
      modifies this, buckets, node, nodes
      ensures Valid() && nodes == old(nodes) + {node}
    {
      IndexInRange(node.ptr);
      var b := Index(node.ptr);
      assert BucketIn(b);
      ghost var part, others := Part(b), nodes - Part(b);
      var first, gs := InsertInBucket(buckets[b], node, groups[b], Part(b));
      buckets[b] := first;
      groups := groups[b := gs];
      nodes := nodes + {node};
      assert Part(b) == part + {node};
      forall c | 0 <= c < |groups| ensures BucketIn(c) {
        if c != b {
          assert old(BucketIn(c)) && Part(c) == old(Part(c));
        }
      }
    }

    lemma PartsAfter(was: set<RetiredNode>, gone: set<RetiredNode>, b: nat)
      requires nodes == was - gone && forall n :: n in gone ==> n in was && Index(n.ptr) == b
      ensures Part(b) == (set n | n in was && Index(n.ptr) == b) - gone
      ensures forall c :: c != b ==> Part(c) == set n | n in was && Index(n.ptr) == c
    {
    }

    // The nodes of the group all hold ptr, and no node with ptr is left.
    method Erase(ptr: nat) returns (p: RetiredNode?, ghost g: Group)
      requires Valid()
      modifies this, buckets, nodes
      ensures Valid()
      ensures p == null <==> g == []
      ensures p != null ==> GroupOk(g) && p == g[0]
      ensures forall n :: n in g <==> n in old(nodes) && n.ptr == ptr
      ensures nodes == old(nodes) - set n | n in g
    {
      hide GroupOk, IsPower2, BucketOk;
      IndexInRange(ptr);
      var b := Index(ptr);
      assert BucketIn(b);
      var first;
      ghost var gs;
      p, first, gs, g := EraseFromBucket(buckets[b], ptr, groups[b], Part(b));
      forall c {:trigger BucketIn(c)} | 0 <= c < |groups| && c != b ensures BucketIn(c) {
        assert old(BucketIn(c));
      }
      Store(b, first, gs, set n | n in g);
    }

    // The bucket gets its new list, which lacks the nodes of gone.
    method Store(b: nat, first: RetiredNode?, ghost gs: seq<Group>, ghost gone: set<RetiredNode>)
      requires |groups| == buckets.Length && IsPower2(buckets.Length) && b < |groups|
      requires forall c {:trigger BucketIn(c)} :: 0 <= c < |groups| && c != b ==> BucketIn(c)
      requires BucketOk(first, gs, Part(b) - gone) && gone <= Part(b)
      modifies this, buckets
      ensures Valid() && nodes == old(nodes) - gone
    {
      hide BucketOk;
      buckets[b] := first;
      groups := groups[b := gs];
      nodes := nodes - gone;
      PartsAfter(old(nodes), gone, b);
      forall c | 0 <= c < |groups| ensures BucketIn(c) {
        if c != b { assert old(BucketIn(c)); }
      }
    }

    // The list made of the buckets before b.
    ghost predicate Collected(b: nat, head: RetiredNode?, tail: RetiredNode?, freed: seq<RetiredNode>)
      reads this, nodes, freed
    {
      && (if freed == [] then head == null && tail == null else head == freed[0] && tail == freed[|freed| - 1])
      && Distinct(freed) && FreeList(freed, null)
      && (forall n :: n in freed ==> n in nodes && Index(n.ptr) < b && n.next == null)
      && forall n :: n in nodes && Index(n.ptr) < b ==> n in freed
    }

    // One turn of the loop over the buckets.
    method FreeOneBucket(b: nat, head: RetiredNode?, tail: RetiredNode?, freed: seq<RetiredNode>)
      returns (head': RetiredNode?, tail': RetiredNode?, freed': seq<RetiredNode>)
      requires |groups| == buckets.Length && b < buckets.Length && Collected(b, head, tail, freed)
      requires forall c {:trigger BucketIn(c)} :: b <= c < |groups| ==> BucketIn(c)
      modifies nodes
      ensures Collected(b + 1, head', tail', freed')
      ensures forall c {:trigger BucketIn(c)} :: b < c < |groups| ==> BucketIn(c)
    {
      assert BucketIn(b);
      assert forall n :: n in Part(b) <==> n in nodes && Index(n.ptr) == b;
      head', tail', freed' := head, tail, freed;
      var first := buckets[b];
      if first != null {
        if head == null { head' := first; }
        tail', freed' := AppendBucket(first, tail, freed, groups[b], Part(b));
        forall c | b < c < |groups| ensures BucketIn(c) {
          assert old(BucketIn(c)) && Part(c) == old(Part(c));
        }
      } else {
        assert groups[b] == [] && Part(b) == {};
      }
    }

    // free_all: every node that is left is freed, once, and they come back as one list
    // linked on m_pNextFree.
    method FreeAll() returns (head: RetiredNode?, tail: RetiredNode?, freed: seq<RetiredNode>)
      requires Valid()
      modifies nodes
      ensures if freed == [] then head == null && tail == null else head == freed[0] && tail == freed[|freed| - 1]
      ensures Distinct(freed) && FreeList(freed, null)
      ensures forall n :: n in freed <==> n in nodes
      ensures forall n :: n in nodes ==> n.next == null
    {
      head, tail, freed := null, null, [];
      var b := 0;
      while b < buckets.Length
        invariant b <= buckets.Length && Collected(b, head, tail, freed)
        invariant forall c {:trigger BucketIn(c)} :: b <= c < |groups| ==> BucketIn(c)
      {
        head, tail, freed := FreeOneBucket(b, head, tail, freed);
        b := b + 1;
      }
      forall n | n in nodes ensures n in freed { IndexInRange(n.ptr); }
    }
  }

  // ---------- the buffer of retired nodes ----------

  ghost predicate NextLink(s: seq<RetiredNode>, i: nat)
    requires i < |s|
    reads s`next
  {
    s[i].next == if i + 1 < |s| then s[i + 1] else null
  }

  ghost predicate NextList(head: RetiredNode?, s: seq<RetiredNode>)
    reads s`next
  {
    && head == (if s == [] then null else s[0])
    && forall i {:trigger NextLink(s, i)} :: 0 <= i < |s| ==> NextLink(s, i)
  }

  class RetiredBuffer {
    var head: RetiredNode?
    var count: nat
    ghost var contents: seq<RetiredNode>

    ghost predicate Valid()
      reads this, contents
    {
      NextList(head, contents) && Distinct(contents) && count == |contents|
    }

    method Push(node: RetiredNode)
      requires Valid() && node !in contents
      modifies this, node`next
      ensures Valid() && contents == [node] + old(contents)
    {
      node.next := head;
      head, count := node, count + 1;
      contents := [node] + contents;
      DistinctJoin([node], old(contents));
      forall i | 0 <= i < |contents| ensures NextLink(contents, i) {
        if i > 0 { assert old(NextLink(contents, i - 1)) && contents[i] in old(contents); }
      }
    }

    method Privatize() returns (first: RetiredNode?, n: nat)
      requires Valid()
      modifies this
      ensures Valid() && contents == [] && n == old(count) && first == old(head)
    {
      first, n := head, count;
      head, count, contents := null, 0, [];
    }
  }

  // ---------- liberate ----------

  // The first loop: every privatized node goes into the set.
  method FillSet(lset: LiberateSet, first: RetiredNode?, ghost list: seq<RetiredNode>)
    requires lset.Valid() && lset.nodes == {} && NextList(first, list) && Distinct(list)
    modifies lset, lset.buckets, list
    ensures lset.Valid() && forall n :: n in lset.nodes <==> n in list
  {
    var p := first;
    ghost var i := 0;
    while p != null
      invariant i <= |list| && p == if i < |list| then list[i] else null
      invariant lset.Valid()
      invariant forall n :: n in lset.nodes <==> n in list[..i]
      invariant forall k {:trigger NextLink(list, k)} :: i <= k < |list| ==> NextLink(list, k)
      decreases |list| - i
    {
      assert NextLink(list, i) && p in list && p !in list[..i];
      var pNext := p.next;
      p.nextFree := null;
      label L:
      lset.Insert(p);
      forall k | i < k < |list| ensures NextLink(list, k) {
        assert old@L(NextLink(list, k)) && list[k] !in list[..i];
      }
      assert list[..i + 1] == list[..i] + [p];
      p, i := pNext, i + 1;
    }
    assert list[..i] == list;
  }

  // A guarded group goes back to the buffer.
  method PushGroup(buffer: RetiredBuffer, head: RetiredNode, ghost g: Group)
    requires buffer.Valid() && GroupOk(g) && head == g[0]
    requires forall n :: n in g ==> n !in buffer.contents
    modifies buffer, g
    ensures buffer.Valid()
    ensures forall n :: n in buffer.contents <==> n in old(buffer.contents) || n in g
  {
    var p: RetiredNode? := head;
    ghost var i := 0;
    while p != null
      invariant i <= |g| && p == if i < |g| then g[i] else null
      invariant buffer.Valid()
      invariant forall n :: n in buffer.contents <==> n in old(buffer.contents) || n in g[..i]
      invariant forall n :: n in g ==> n.nextFree == old(n.nextFree)
      decreases |g| - i
    {
      assert old(FreeLink(g, i)) && p in g && p !in g[..i];
      var pNext := p.nextFree;
      buffer.Push(p);
      assert g[..i + 1] == g[..i] + [p];
      p, i := pNext, i + 1;
    }
    assert g[..i] == g;
  }

  predicate Guarded(n: RetiredNode, guards: seq<nat>) {
    n.ptr != 0 && n.ptr in guards
  }

  // The second loop: what some guard holds goes back to the buffer.
  method Rescue(lset: LiberateSet, buffer: RetiredBuffer, guards: seq<nat>)
    requires lset.Valid() && buffer.Valid() && buffer.contents == []
    modifies lset, lset.buckets, lset.nodes, buffer
    ensures lset.Valid() && buffer.Valid()
    ensures forall n :: n in lset.nodes <==> n in old(lset.nodes) && !Guarded(n, guards)
    ensures forall n :: n in buffer.contents <==> n in old(lset.nodes) && Guarded(n, guards)
  {
    ghost var all := lset.nodes;
    for k := 0 to |guards|
      invariant lset.Valid() && buffer.Valid()
      invariant forall n :: n in lset.nodes <==> n in all && !Guarded(n, guards[..k])
      invariant forall n :: n in buffer.contents <==> n in all && Guarded(n, guards[..k])
    {
      assert guards[..k + 1] == guards[..k] + [guards[k]];
      if guards[k] != 0 {
        var p;
        ghost var g;
        p, g := lset.Erase(guards[k]);
        if p != null {
          PushGroup(buffer, p, g);
        }
      }
    }
    assert guards[..|guards|] == guards;
  }

  // The call as a whole.  `guards` is what its reads of the guards returned.
  method Liberate(buffer: RetiredBuffer, threshold: nat, hash: nat -> nat, guards: seq<nat>)
    returns (freed: seq<RetiredNode>, threshold': nat)
    requires buffer.Valid() && threshold > 0
    modifies buffer, buffer.contents
    ensures buffer.Valid()
    ensures forall n :: n in buffer.contents <==> n in old(buffer.contents) && Guarded(n, guards)
    ensures forall n :: n in freed <==> n in old(buffer.contents) && !Guarded(n, guards)
    ensures Distinct(freed) && FreeList(freed, null)
    ensures threshold' == if old(buffer.contents) != [] && freed == [] then 2 * threshold else threshold
  {
    freed, threshold' := [], threshold;
    ghost var list := buffer.contents;
    var first, n := buffer.Privatize();
    if first != null {
      var size := if n > threshold then n else threshold;
      Log2FloorBounds(size);
      Ceil2Least(size, Log2Floor(size) + 1);
      var lset := new LiberateSet(Ceil2(size), hash);
      FillSet(lset, first, list);
      Rescue(lset, buffer, guards);
      var head, tail;
      head, tail, freed := lset.FreeAll();
      if head == null {
        threshold' := threshold * 2;
      }
    }
  }
}
