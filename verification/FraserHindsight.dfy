// A "not found" of fraser_remove or fraser_find is right in hindsight: at some moment
// during the call the value was absent.

module FraserHindsight {
  import A = AtomicSet
  import opened FraserModel
  import opened FraserInvariant
  import opened FraserEffects
  import opened FraserRefinement
  import opened FraserRuns

  // ---------- reachability on the bottom level ----------

  ghost predicate ReachesIn(m: Memory, a: nat, x: nat, k: nat)
    decreases k
  {
    if k == 0 then a == x else a in m.linked && a != TAIL && ReachesIn(m, m.Next(a).to, x, k - 1)
  }

  ghost predicate Reaches(m: Memory, a: nat, x: nat) {
    exists k: nat :: ReachesIn(m, a, x, k)
  }

  lemma ReachesNext(m: Memory, a: nat, x: nat)
    requires Reaches(m, a, x) && a != x
    ensures Reaches(m, m.Next(a).to, x)
  {
    var k: nat :| ReachesIn(m, a, x, k);
    assert ReachesIn(m, m.Next(a).to, x, k - 1);
  }

  lemma {:induction false} ReachesRank(m: Memory, a: nat, x: nat, k: nat)
    requires AllOk(m) && a in m.linked && ReachesIn(m, a, x, k)
    ensures a == x || Rank(m, a) < Rank(m, x)
    decreases k
  {
    if k > 0 {
      assert NodeOk(m, a);
      ReachesRank(m, m.Next(a).to, x, k - 1);
    }
  }

  lemma {:induction false} ChainReaches(m: Memory, chain: seq<nat>, i: nat, j: nat)
    requires MemOk(m, chain) && i <= j < |chain|
    ensures ReachesIn(m, chain[i], chain[j], j - i)
    decreases j - i
  {
    if i < j {
      ChainNext(m, chain, i);
      ChainSorted(m, chain, i, |chain| - 1);
      ChainReaches(m, chain, i + 1, j);
    }
  }

  // Marked nodes on the way to an unmarked node can be skipped.
  lemma {:induction false} FrozenReaches(m: Memory, q: seq<nat>, a: nat, b: nat, x: nat, k: nat, i: nat) returns (k': nat)
    requires Frozen(m, q, a, b) && !m.Next(x).marked && i < |q| && ReachesIn(m, q[i], x, k)
    ensures k' <= k && ReachesIn(m, b, x, k')
    decreases |q| - i
  {
    if i == |q| - 1 {
      k' := k;
    } else {
      assert FrozenAt(m, q, i);
      k' := FrozenReaches(m, q, a, b, x, k - 1, i + 1);
    }
  }

  // No step of any thread cuts an unmarked node off from a node that leads to it.
  lemma {:induction false} ReachKept(m: Memory, m': Memory, mine: set<nat>, a: nat, x: nat, k: nat) returns (k': nat)
    requires Guarantee(m, m', mine) && TAIL in m.linked && !m.Next(x).marked && ReachesIn(m, a, x, k)
    ensures ReachesIn(m', a, x, k')
    decreases k
  {
    if k == 0 {
      k' := 0;
    } else {
      var b, b' := m.Next(a).to, m'.Next(a).to;
      assert Moved(m, m', a);
      if b' == b {
        var r := ReachKept(m, m', mine, b, x, k - 1);
        k' := r + 1;
      } else if b' !in m.linked && b' in m'.linked && m'.Next(b').to == b {
        var r := ReachKept(m, m', mine, b, x, k - 1);
        assert ReachesIn(m', b', x, r + 1);
        k' := r + 2;
      } else {
        var q :| Frozen(m, q, b, b');
        var shorter := FrozenReaches(m, q, b, b', x, k - 1, 0);
        var r := ReachKept(m, m', mine, b', x, shorter);
        k' := r + 1;
      }
    }
  }

  // ---------- what a searching thread knows about a present value ----------

  // The node that holds v.
  ghost predicate Holder(m: Memory, v: nat, x: nat) {
    Alive(m, x) && m.Val(x) == v
  }

  ghost predicate Ahead(m: Memory, a: nat, v: nat) {
    exists x :: Holder(m, v, x) && Reaches(m, a, x)
  }

  predicate Seeks(m: Memory, l: Local, v: nat) {
    PhaseOf(m, l) == A.Called(A.Remove(v)) || PhaseOf(m, l) == A.Called(A.Contains(v))
  }

  ghost predicate Tracks(m: Memory, l: Local, v: nat) {
    match l
    case ReadRight(_, _, _, right) => Ahead(m, right, v)
    case Snip(_, _, _, right) => Ahead(m, right, v)
    case FindFlag(_, node) => Alive(m, node)
    case TakeFlag(_, node) => Alive(m, node)
    case TakeClaim(_, node) => Alive(m, node)
    case _ => true
  }

  // A thread that cannot miss v any more unless v disappears.
  ghost predicate Honest(m: Memory, l: Local, v: nat) {
    || (Seeks(m, l, v) && Tracks(m, l, v))
    || (PhaseOf(m, l).Performed? && PhaseOf(m, l).reply != A.Missed)
  }

  lemma HolderOf(m: Memory, v: nat) returns (x: nat)
    requires v in Values(m)
    ensures Holder(m, v, x)
  {
    x :| x in m.linked && Alive(m, x) && m.Val(x) == v;
  }

  lemma HolderUnmarked(m: Memory, v: nat, x: nat)
    requires AllOk(m) && Holder(m, v, x)
    ensures !m.Next(x).marked && x in m.linked
  {
    assert NodeOk(m, x);
  }

  // While v stays present its node stays the same.
  lemma HolderKept(m: Memory, chain: seq<nat>, m': Memory, mine: set<nat>, v: nat, x: nat)
    requires MemOk(m, chain) && Guarantee(m, m', mine) && Holder(m, v, x) && v in Values(m')
    ensures Holder(m', v, x)
  {
    HolderUnmarked(m, v, x);
    InNodes(m, x);
    var y := HolderOf(m', v);
    if m'.linked == m.linked {
      InNodes(m, y);
      assert Holder(m, v, y);
      AliveUnique(m, chain, x, y);
    }
  }

  lemma AheadKept(m: Memory, chain: seq<nat>, m': Memory, mine: set<nat>, a: nat, v: nat)
    requires MemOk(m, chain) && Guarantee(m, m', mine) && Ahead(m, a, v) && v in Values(m')
    ensures Ahead(m', a, v)
  {
    hide Holder, Guarantee;
    var x :| Holder(m, v, x) && Reaches(m, a, x);
    HolderUnmarked(m, v, x);
    HolderKept(m, chain, m', mine, v, x);
    var k: nat :| ReachesIn(m, a, x, k);
    var k' := ReachKept(m, m', mine, a, x, k);
  }

  lemma AliveKept(m: Memory, chain: seq<nat>, m': Memory, mine: set<nat>, n: nat)
    requires MemOk(m, chain) && Guarantee(m, m', mine) && Alive(m, n) && m.Val(n) in Values(m')
    ensures Alive(m', n)
  {
    assert Holder(m, m.Val(n), n);
    HolderKept(m, chain, m', mine, m.Val(n), n);
  }

  // Another thread moves.
  lemma OtherHonest(m: Memory, chain: seq<nat>, m': Memory, mine: set<nat>, l: Local, v: nat)
    requires MemOk(m, chain) && LocalOk(m, l) && Guarantee(m, m', mine)
    requires Honest(m, l, v) && v in Values(m')
    ensures Honest(m', l, v)
  {
    hide Guarantee, Values, Alive, Ahead, AllOk, ChainOk, PhaseOf;
    PhaseKept(m, m', mine, l);
    if Seeks(m, l, v) && Tracks(m, l, v) {
      TracksKept(m, chain, m', mine, l, v);
    }
  }

  lemma TracksKept(m: Memory, chain: seq<nat>, m': Memory, mine: set<nat>, l: Local, v: nat)
    requires MemOk(m, chain) && LocalOk(m, l) && Guarantee(m, m', mine)
    requires Seeks(m, l, v) && Tracks(m, l, v) && v in Values(m')
    ensures Tracks(m', l, v)
  {
    hide Guarantee, Values, Alive, Ahead, AllOk, ChainOk;
    if l.ReadRight? || l.Snip? { AheadKept(m, chain, m', mine, l.right, v); }
    else if l.FindFlag? || l.TakeFlag? || l.TakeClaim? { AliveKept(m, chain, m', mine, l.node); }
  }

  // ---------- the thread's own step ----------

  // The unmarked node from which the search starts leads to the node that holds v.
  lemma LeftAhead(m: Memory, chain: seq<nat>, left: nat, v: nat)
    requires MemOk(m, chain) && left in m.linked && !m.Next(left).marked && Rank(m, left) < v && v in Values(m)
    ensures Ahead(m, m.Next(left).to, v)
  {
    var x := HolderOf(m, v);
    HolderUnmarked(m, v, x);
    var i: nat :| i < |chain| && chain[i] == left;
    var j: nat :| j < |chain| && chain[j] == x;
    if j < i { ChainSorted(m, chain, j, i); }
    ChainReaches(m, chain, i, j);
    assert Reaches(m, left, x);
    ReachesNext(m, left, x);
  }

  lemma AheadNext(m: Memory, a: nat, v: nat)
    requires AllOk(m) && a in m.linked && Ahead(m, a, v) && (m.Next(a).marked || m.Val(a) != v)
    ensures Ahead(m, m.Next(a).to, v)
  {
    var x :| Holder(m, v, x) && Reaches(m, a, x);
    HolderUnmarked(m, v, x);
    ReachesNext(m, a, x);
  }

  // Where the search stops it has found v.
  lemma StopsAt(m: Memory, a: nat, v: nat)
    requires AllOk(m) && a in m.linked && a != HEAD && Ahead(m, a, v) && m.Val(a) >= v
    ensures Holder(m, v, a)
  {
    var x :| Holder(m, v, x) && Reaches(m, a, x);
    var k: nat :| ReachesIn(m, a, x, k);
    ReachesRank(m, a, x, k);
  }

  lemma SearchHonest(m: Memory, chain: seq<nat>, l: Local, c: Choice, v: nat)
    requires MemOk(m, chain) && LocalOk(m, l) && Seeks(m, l, v) && Tracks(m, l, v) && v in Values(m)
    requires (l.ReadLeft? && !m.Next(l.left).marked) || l.ReadRight?
    requires Exec(m, l, c).Next?
    ensures Honest(m, Exec(m, l, c).l, v)
  {
    hide ChainOk, Values, Ahead, Skips, NodeOk;
    if l.ReadLeft? { LeftAhead(m, chain, l.left, v); }
    if l.ReadRight? && (m.Next(l.right).marked || m.Val(l.right) != v) { AheadNext(m, l.right, v); }
  }

  lemma SnipHonest(m: Memory, chain: seq<nat>, l: Local, v: nat, o: Outcome)
    requires MemOk(m, chain) && LocalOk(m, l) && l.Snip? && Seeks(m, l, v) && Tracks(m, l, v)
    requires o == DoSnip(m, l.job, l.left, l.leftNext, l.right) && o.Next? && v in Values(o.m)
    ensures Honest(o.m, o.l, v)
  {
    hide ChainOk, Values, Ahead, Skips, NodeOk;
    StopsAt(m, l.right, v);
    if o.m != m {
      assert o.m.Deleted(l.right) == m.Deleted(l.right);
    }
  }

  lemma ReadHonest(m: Memory, chain: seq<nat>, l: Local, c: Choice, v: nat)
    requires MemOk(m, chain) && LocalOk(m, l) && Seeks(m, l, v) && Tracks(m, l, v)
    requires l.Arrive? || (l.ReadLeft? && m.Next(l.left).marked) || l.FindFlag? || l.TakeFlag? || l.TakeClaim?
    requires Exec(m, l, c).Next?
    ensures Honest(Exec(m, l, c).m, Exec(m, l, c).l, v)
  {
    hide ChainOk, Values, Ahead, Skips, NodeOk;
  }

  lemma OwnHonest(m: Memory, chain: seq<nat>, l: Local, c: Choice, o: Outcome, chain': seq<nat>, mine: set<nat>, v: nat)
    requires MemOk(m, chain) && LocalOk(m, l) && o == Exec(m, l, c) && Advanced(m, l, c, o, chain', mine)
    requires Honest(m, l, v) && !l.Leaving? && v in Values(m) && v in Values(o.m)
    ensures Honest(o.m, o.l, v)
  {
    hide MemOk, LocalOk, Exec, Values, Guarantee, Tracks, PrivateNode;
    if Seeks(m, l, v) && Tracks(m, l, v) {
      SeeksWhere(m, l, v);
      if (l.ReadLeft? && !m.Next(l.left).marked) || l.ReadRight? { SearchHonest(m, chain, l, c, v); SameMemory(m, l, c); }
      else if l.Snip? { SnipIs(m, l, c); SnipHonest(m, chain, l, v, o); }
      else { ReadHonest(m, chain, l, c, v); }
    }
  }

  lemma SeeksWhere(m: Memory, l: Local, v: nat)
    requires Seeks(m, l, v) && LocalOk(m, l)
    ensures l.Arrive? || l.ReadLeft? || l.ReadRight? || l.Snip? || l.FindFlag? || l.TakeFlag? || l.TakeClaim?
  {
  }

  lemma SameMemory(m: Memory, l: Local, c: Choice)
    requires (l.ReadLeft? || l.ReadRight?) && Exec(m, l, c).Next?
    ensures Exec(m, l, c).m == m
  {
  }

  lemma SnipIs(m: Memory, l: Local, c: Choice)
    requires l.Snip?
    ensures Exec(m, l, c) == DoSnip(m, l.job, l.left, l.leftNext, l.right)
  {
  }

  // ---------- runs ----------

  lemma StepHonest(s: Machine, chain: seq<nat>, u: nat, c: Choice, s': Machine, t: nat, v: nat)
    requires Inv(s, chain) && Step(s, u, c, s') && t in s.threads
    requires Honest(s.mem, s.threads[t], v) && !(u == t && s.threads[t].Leaving?)
    requires v in Values(s.mem) && v in Values(s'.mem)
    ensures t in s'.threads && Honest(s'.mem, s'.threads[t], v)
  {
    hide MemOk, LocalOk, Exec, Values, Guarantee, Honest, ChoiceOk;
    var chain', mine := ThreadStep(s.mem, chain, s.threads[u], c);
    if u != t {
      if s.threads[u] == NaiveEnd(NULL) { Unchanged(s.mem); mine := {}; }
      OtherHonest(s.mem, chain, s'.mem, mine, s.threads[t], v);
    } else {
      NotBehindTail(s.mem, s.threads[t], v);
      OwnHonest(s.mem, chain, s.threads[t], c, Exec(s.mem, s.threads[t], c), chain', mine, v);
    }
  }

  lemma NotBehindTail(m: Memory, l: Local, v: nat)
    requires Honest(m, l, v)
    ensures l != NaiveEnd(NULL)
  {
  }

  // Thread t is inside one call from state i + 1 to state j.
  predicate Inside(r: Run, t: nat, i: nat, j: nat)
    requires i < j < |r.states|
  {
    forall k :: i < k <= j ==> t in r.states[k].threads && r.states[k].threads[t] != Outside
  }

  lemma {:induction false} StaysHonest(r: Run, t: nat, i: nat, j: nat, v: nat)
    requires r.Valid() && i < j < |r.states| && r.who[i] == t && r.Pc(i) == Outside && t in r.states[i].threads
    requires r.choices[i].op == A.Remove(v) || r.choices[i].op == A.Contains(v)
    requires Inside(r, t, i, j)
    requires forall k :: i < k <= j ==> v in Values(r.states[k].mem)
    ensures Honest(r.states[j].mem, r.states[j].threads[t], v)
    decreases j - i
  {
    hide Step, Init, Values, Honest, Inv;
    if j == i + 1 {
      FirstHonest(r.states[i], t, r.choices[i], r.states[j], v);
    } else {
      StaysHonest(r, t, i, j - 1, v);
      var chain := RunInv(r, j - 1);
      StillInside(r.states[j - 1], r.who[j - 1], r.choices[j - 1], r.states[j], t);
      StepHonest(r.states[j - 1], chain, r.who[j - 1], r.choices[j - 1], r.states[j], t, v);
    }
  }

  lemma FirstHonest(s: Machine, t: nat, c: Choice, s': Machine, v: nat)
    requires Step(s, t, c, s') && s.threads[t] == Outside && (c.op == A.Remove(v) || c.op == A.Contains(v))
    ensures Honest(s'.mem, s'.threads[t], v)
  {
  }

  lemma StillInside(s: Machine, u: nat, c: Choice, s': Machine, t: nat)
    requires Step(s, u, c, s') && t in s.threads && t in s'.threads && s'.threads[t] != Outside
    ensures !(u == t && s.threads[t].Leaving?)
  {
  }

  // A call of fraser_remove or fraser_find for v that starts at state i and is about to
  // answer 0 at state j: at some state in between v was not in the set.
  lemma MissedWasAbsent(r: Run, t: nat, i: nat, j: nat, v: nat)
    requires r.Valid() && i < j < |r.states| && r.who[i] == t && r.Pc(i) == Outside && t in r.states[i].threads
    requires r.choices[i].op == A.Remove(v) || r.choices[i].op == A.Contains(v)
    requires Inside(r, t, i, j)
    requires r.states[j].threads[t] == Leaving(A.Missed)
    ensures exists k :: i < k <= j && v !in Values(r.states[k].mem)
  {
    hide Step, Init, Values;
    if forall k :: i < k <= j ==> v in Values(r.states[k].mem) {
      StaysHonest(r, t, i, j, v);
    }
  }
}
