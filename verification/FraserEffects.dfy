// The effect of each kind of memory change on the bottom level and on the set of values it
// holds.

module FraserEffects {
  import opened FraserModel
  import opened FraserInvariant

  // The abstract set: the values of the nodes on the bottom level that nobody has claimed.
  ghost function Values(m: Memory): set<nat> {
    set n | n in m.linked && Alive(m, n) :: m.Val(n)
  }

  predicate Alive(m: Memory, n: nat) {
    n in m.linked && n != HEAD && n != TAIL && m.Deleted(n) == 0
  }

  // At most one unclaimed linked node per value.
  lemma AliveUnique(m: Memory, chain: seq<nat>, a: nat, b: nat)
    requires MemOk(m, chain) && Alive(m, a) && Alive(m, b) && m.Val(a) == m.Val(b)
    ensures a == b
  {
    assert NodeOk(m, a) && NodeOk(m, b);
    var i :| 0 <= i < |chain| && chain[i] == a;
    var j :| 0 <= j < |chain| && chain[j] == b;
    if i < j { ChainSorted(m, chain, i, j); }
    if j < i { ChainSorted(m, chain, j, i); }
  }

  lemma SameChain(m: Memory, m': Memory, chain: seq<nat>)
    requires ChainOk(m, chain) && m'.linked == m.linked
    requires forall n :: n in m.linked ==> m'.Next(n).to == m.Next(n).to && (m.Next(n).marked ==> m'.Next(n).marked)
    ensures ChainOk(m', chain)
  {
    forall i | 0 <= i < |chain| - 1 ensures Leads(m', chain, i) {
      assert Leads(m, chain, i);
    }
  }

  lemma SameValues(m: Memory, m': Memory)
    requires m'.linked == m.linked
    requires forall n :: n in m.linked ==> m'.Val(n) == m.Val(n) && m'.Deleted(n) == m.Deleted(n)
    ensures Values(m') == Values(m)
  {
    assert forall k :: Alive(m', k) <==> Alive(m, k);
  }

  // ---------- private changes ----------

  lemma AllocEffect(m: Memory, chain: seq<nat>, n: nat, v: nat, m': Memory)
    requires MemOk(m, chain) && n != NULL && n !in m.nodes
    requires m' == m.(nodes := m.nodes[n := Node(v, Link(NULL, false), 0)])
    ensures MemOk(m', chain) && Guarantee(m, m', {}) && n !in m'.linked
    ensures Values(m') == Values(m)
  {
    hide ChainOk, Values, Alive;
    forall k {:trigger NodeOk(m', k)} | k in m.linked ensures NodeOk(m', k) {
      assert NodeOk(m, k);
    }
    assert n !in m.linked by { assert n in m.linked ==> NodeOk(m, n); }
    SameChain(m, m', chain);
    SameValues(m, m');
  }

  lemma StoreEffect(m: Memory, chain: seq<nat>, n: nat, l: Link)
    requires MemOk(m, chain) && n in m.nodes && n !in m.linked
    ensures MemOk(m.SetNext(n, l), chain) && Guarantee(m, m.SetNext(n, l), {n})
    ensures Values(m.SetNext(n, l)) == Values(m)
  {
    hide ChainOk, Values, Alive;
    var m' := m.SetNext(n, l);
    forall k {:trigger NodeOk(m', k)} | k in m.linked ensures NodeOk(m', k) {
      assert NodeOk(m, k);
    }
    SameChain(m, m', chain);
    SameValues(m, m');
  }

  // ---------- marking ----------

  lemma MarkEffect(m: Memory, chain: seq<nat>, n: nat, m': Memory)
    requires MemOk(m, chain) && Proper(m, n) && m.Deleted(n) > 0 && !m.Next(n).marked
    requires m' == m.SetNext(n, Link(m.Next(n).to, true))
    ensures MemOk(m', chain) && Guarantee(m, m', {})
    ensures Values(m') == Values(m)
  {
    hide ChainOk, Values, Alive;
    assert NodeOk(m, n);
    forall k {:trigger NodeOk(m', k)} | k in m.linked ensures NodeOk(m', k) {
      assert NodeOk(m, k);
    }
    SameChain(m, m', chain);
    SameValues(m, m');
  }

  // ---------- claiming ----------

  lemma BumpEffect(m: Memory, chain: seq<nat>, n: nat, m': Memory)
    requires MemOk(m, chain) && n in m.linked && n in m.nodes && n != HEAD
    requires m' == m.Bump(n)
    ensures MemOk(m', chain) && Guarantee(m, m', {})
    ensures Alive(m, n) ==> m.Val(n) in Values(m) && Values(m') == Values(m) - {m.Val(n)}
    ensures !Alive(m, n) ==> Values(m') == Values(m)
  {
    BumpValues(m, chain, n, m');
    BumpGuarantee(m, n, m');
    hide Guarantee, ChainOk, Values, Alive;
    assert NodeOk(m, n);
    forall k {:trigger NodeOk(m', k)} | k in m.linked ensures NodeOk(m', k) {
      assert NodeOk(m, k);
    }
    SameChain(m, m', chain);
  }

  lemma BumpGuarantee(m: Memory, n: nat, m': Memory)
    requires n in m.linked && n in m.nodes && m' == m.Bump(n)
    ensures Guarantee(m, m', {})
  {
  }

  lemma BumpValues(m: Memory, chain: seq<nat>, n: nat, m': Memory)
    requires MemOk(m, chain) && n in m.linked && n in m.nodes && n != HEAD
    requires m' == m.Bump(n)
    ensures Alive(m, n) ==> m.Val(n) in Values(m) && Values(m') == Values(m) - {m.Val(n)}
    ensures !Alive(m, n) ==> Values(m') == Values(m)
  {
    hide MemOk;
    assert forall k :: m'.Val(k) == m.Val(k) && (Alive(m', k) <==> Alive(m, k) && k != n);
    if Alive(m, n) {
      forall k | Alive(m', k) ensures m'.Val(k) != m.Val(n) {
        if m'.Val(k) == m.Val(n) { AliveUnique(m, chain, k, n); }
      }
      forall v | v in Values(m) && v != m.Val(n) ensures v in Values(m') {
        var k :| k in m.linked && Alive(m, k) && m.Val(k) == v;
        assert Alive(m', k);
      }
    }
  }

  // ---------- linking ----------

  // The node lands between neighbours on the chain, so its value was absent.
  lemma LinkEffect(m: Memory, chain: seq<nat>, job: Job, pred: nat, succ: nat, m': Memory) returns (chain': seq<nat>)
    requires MemOk(m, chain) && LocalOk(m, AddLink(job, pred, succ)) && m.Next(pred) == Link(succ, false)
    requires pred in m.nodes
    requires m' == m.SetNext(pred, Link(job.new_, false)).(linked := m.linked + {job.new_})
    ensures MemOk(m', chain') && Guarantee(m, m', {job.new_})
    ensures job.v !in Values(m) && Values(m') == Values(m) + {job.v}
  {
    assert NodeOk(m, pred);
    var i: nat :| i < |chain| && chain[i] == pred;
    assert Leads(m, chain, i);
    chain' := chain[..i + 1] + [job.new_] + chain[i + 1..];
    LinkedChain(m, chain, job, pred, succ, m', i);
    hide NodeOk, ChainOk, Guarantee, Values, Alive;
    AbsentBetween(m, chain, i, job.v);
    LinkedValues(m, job, pred, succ, m');
    LinkedNodes(m, job, pred, succ, m');
    LinkedGuarantee(m, job, pred, succ, m');
  }

  lemma LinkedNodes(m: Memory, job: Job, pred: nat, succ: nat, m': Memory)
    requires AllOk(m) && LocalOk(m, AddLink(job, pred, succ)) && m.Next(pred) == Link(succ, false)
    requires pred in m.nodes
    requires m' == m.SetNext(pred, Link(job.new_, false)).(linked := m.linked + {job.new_})
    ensures AllOk(m')
  {
    forall k {:trigger NodeOk(m', k)} | k in m'.linked ensures NodeOk(m', k) {
      assert k in m.linked ==> NodeOk(m, k);
    }
  }

  lemma LinkedGuarantee(m: Memory, job: Job, pred: nat, succ: nat, m': Memory)
    requires LocalOk(m, AddLink(job, pred, succ)) && m.Next(pred) == Link(succ, false)
    requires pred in m.nodes
    requires m' == m.SetNext(pred, Link(job.new_, false)).(linked := m.linked + {job.new_})
    ensures Guarantee(m, m', {job.new_})
  {
    assert Moved(m, m', pred);
  }

  lemma LinkedValues(m: Memory, job: Job, pred: nat, succ: nat, m': Memory)
    requires LocalOk(m, AddLink(job, pred, succ)) && pred in m.nodes && HEAD in m.linked && TAIL in m.linked
    requires m' == m.SetNext(pred, Link(job.new_, false)).(linked := m.linked + {job.new_})
    ensures Values(m') == Values(m) + {job.v}
  {
    assert Alive(m', job.new_) && m'.Val(job.new_) == job.v;
    assert forall k :: m'.Val(k) == m.Val(k) && (k != job.new_ ==> (Alive(m', k) <==> Alive(m, k)));
  }

  lemma LinkedChain(m: Memory, chain: seq<nat>, job: Job, pred: nat, succ: nat, m': Memory, i: nat)
    requires MemOk(m, chain) && LocalOk(m, AddLink(job, pred, succ)) && m.Next(pred) == Link(succ, false)
    requires pred in m.nodes && i < |chain| - 1 && chain[i] == pred
    requires m' == m.SetNext(pred, Link(job.new_, false)).(linked := m.linked + {job.new_})
    ensures ChainOk(m', chain[..i + 1] + [job.new_] + chain[i + 1..])
  {
    var c := chain[..i + 1] + [job.new_] + chain[i + 1..];
    assert Leads(m, chain, i);
    forall j | 0 <= j < |c| - 1 ensures Leads(m', c, j) {
      if j < i {
        ChainSorted(m, chain, j, i);
        assert Leads(m, chain, j) && c[j] == chain[j] && c[j + 1] == chain[j + 1];
      } else if j > i + 1 {
        ChainSorted(m, chain, i, j - 1);
        assert Leads(m, chain, j - 1) && c[j] == chain[j - 1] && c[j + 1] == chain[j];
      }
    }
    forall n | n in m'.linked && !m'.Next(n).marked ensures n in c {
      if n == job.new_ { assert c[i + 1] == n; } else { assert n in chain[..i + 1] + chain[i + 1..]; }
    }
  }

  // Between two neighbours on the chain there is no room for a value.
  lemma AbsentBetween(m: Memory, chain: seq<nat>, i: nat, v: nat)
    requires MemOk(m, chain) && i < |chain| - 1 && Rank(m, chain[i]) < v < Rank(m, chain[i + 1])
    ensures v !in Values(m)
  {
    forall k | k in m.linked && Alive(m, k) ensures m.Val(k) != v {
      assert NodeOk(m, k);
      var j :| 0 <= j < |chain| && chain[j] == k;
      if j < i { ChainSorted(m, chain, j, i); }
      if j > i + 1 { ChainSorted(m, chain, i + 1, j); }
    }
  }

  // ---------- unlinking ----------

  // A frozen path that starts on the chain stays on it.
  lemma {:induction false} FrozenOnChain(m: Memory, chain: seq<nat>, i: nat, p: seq<nat>, b: nat, j: nat)
    requires MemOk(m, chain) && i < |chain| && Frozen(m, p, chain[i], b) && j < |p|
    ensures i + j < |chain| && chain[i + j] == p[j]
  {
    if j > 0 {
      FrozenOnChain(m, chain, i, p, b, j - 1);
      assert FrozenAt(m, p, j - 1) && NodeOk(m, p[j - 1]);
      assert i + j - 1 < |chain| - 1 && Leads(m, chain, i + j - 1);
    }
  }

  // The swung pointer skips nodes that are all marked.
  lemma SnipEffect(m: Memory, chain: seq<nat>, left: nat, leftNext: nat, right: nat, m': Memory) returns (chain': seq<nat>)
    requires MemOk(m, chain) && left in m.linked && left in m.nodes && left != TAIL
    requires m.Next(left) == Link(leftNext, false) && Skips(m, leftNext, right) && right != HEAD
    requires m' == m.SetNext(left, Link(right, false))
    ensures MemOk(m', chain') && Guarantee(m, m', {})
    ensures Values(m') == Values(m)
  {
    var i :| 0 <= i < |chain| && chain[i] == left;
    var p :| Frozen(m, p, leftNext, right);
    var e := i + |p|;
    assert Leads(m, chain, i);
    FrozenOnChain(m, chain, i + 1, p, right, |p| - 1);
    ChainSorted(m, chain, i, e);
    chain' := chain[..i + 1] + chain[e..];
    SnippedChain(m, chain, i, p, right, m');
    SnippedNodes(m, left, leftNext, right, m');
    SameValues(m, m');
  }

  lemma SnippedNodes(m: Memory, left: nat, leftNext: nat, right: nat, m': Memory)
    requires AllOk(m) && left in m.linked && left in m.nodes && left != TAIL
    requires m.Next(left) == Link(leftNext, false) && Skips(m, leftNext, right) && right != HEAD
    requires right in m.linked && Rank(m, left) < Rank(m, right)
    requires m' == m.SetNext(left, Link(right, false))
    ensures AllOk(m') && Guarantee(m, m', {})
  {
    hide Skips;
    assert Moved(m, m', left);
    forall k {:trigger NodeOk(m', k)} | k in m'.linked ensures NodeOk(m', k) {
      assert NodeOk(m, k);
    }
  }

  lemma OffChain(m: Memory, chain: seq<nat>, i: nat, p: seq<nat>, right: nat, k: nat)
    requires MemOk(m, chain) && i < k < i + |p| < |chain| && Frozen(m, p, chain[i + 1], right)
    ensures m.Next(chain[k]).marked
  {
    FrozenOnChain(m, chain, i + 1, p, right, k - i - 1);
    assert FrozenAt(m, p, k - i - 1);
  }

  lemma SnippedChain(m: Memory, chain: seq<nat>, i: nat, p: seq<nat>, right: nat, m': Memory)
    requires MemOk(m, chain) && i < |chain| - 1 && chain[i] in m.nodes
    requires Frozen(m, p, chain[i + 1], right) && i + |p| < |chain| && chain[i + |p|] == right
    requires m' == m.SetNext(chain[i], Link(right, false))
    ensures ChainOk(m', chain[..i + 1] + chain[i + |p|..])
  {
    var e := i + |p|;
    var c := chain[..i + 1] + chain[e..];
    forall j | 0 <= j < |c| - 1 ensures Leads(m', c, j) {
      if j < i {
        ChainSorted(m, chain, j, i);
        assert Leads(m, chain, j) && c[j] == chain[j] && c[j + 1] == chain[j + 1];
      } else if j > i {
        var k := e + (j - i - 1);
        ChainSorted(m, chain, i, k);
        assert Leads(m, chain, k) && c[j] == chain[k] && c[j + 1] == chain[k + 1];
      }
    }
    forall n | n in m'.linked && !m'.Next(n).marked ensures n in c {
      if n == chain[i] { assert c[i] == n; } else {
        var k :| 0 <= k < |chain| && chain[k] == n;
        assert k <= i || k >= e by {
          if i < k < e { OffChain(m, chain, i, p, right, k); }
        }
        if k <= i { assert c[k] == n; } else { assert c[k - e + i + 1] == n; }
      }
    }
  }
}
