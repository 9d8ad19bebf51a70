// fraser_insert, fraser_remove and fraser_find run alone: they return, and with the right answer.

module FraserSearch {
  import A = AtomicSet
  import opened FraserModel
  import opened FraserInvariant
  import opened FraserEffects
  import opened FraserRefinement
  import opened FraserAlone
  import opened FraserSpray

  // The steps of cs are allowed, and a search enters the bottom level at a node that is not marked:
  // otherwise it starts again.
  predicate Clean(m: Memory, l: Local, cs: seq<Choice>)
    decreases |cs|
  {
    cs == [] || l.Leaving? ||
    (ChoiceOk(m, l, cs[0]) && (l.Arrive? ==> !m.Next(cs[0].node).marked) &&
      match Exec(m, l, cs[0])
      case Fault => true
      case Next(m', l') => Clean(m', l', cs[1..]))
  }

  lemma Turn(m: Memory, l: Local, cs: seq<Choice>, m': Memory, l': Local)
    requires cs != [] && !l.Leaving? && Clean(m, l, cs) && Exec(m, l, cs[0]) == Next(m', l')
    ensures Solo(m, l, cs) == Solo(m', l', cs[1..]) && Clean(m', l', cs[1..])
    ensures ChoiceOk(m, l, cs[0]) && (l.Arrive? ==> !m.Next(cs[0].node).marked)
  {
    hide Exec, ChoiceOk;
  }

  // ---------- the search ----------

  // left and right are neighbours on the bottom level, and v belongs between them or at right.
  ghost predicate Adjacent(m: Memory, left: nat, right: nat, v: nat) {
    && left in m.linked && left != TAIL && Rank(m, left) < v
    && right in m.linked && right != HEAD && v <= m.Val(right)
    && m.Next(left) == Link(right, false) && !m.Next(right).marked
  }

  // What a search leaves alone.
  ghost predicate Searched(m: Memory, m': Memory) {
    && m'.linked == m.linked && Values(m') == Values(m)
    && (forall n :: m'.Deleted(n) == m.Deleted(n) && m'.Val(n) == m.Val(n))
    && (forall n :: m'.Next(n).marked <==> m.Next(n).marked)
  }

  ghost predicate AtRight(m: Memory, job: Job, left: nat, leftNext: nat, right: nat) {
    LocalOk(m, ReadRight(job, left, leftNext, right)) && m.Next(left) == Link(leftNext, false)
  }

  lemma SnipAlone(m: Memory, chain: seq<nat>, job: Job, left: nat, leftNext: nat, right: nat) returns (m': Memory, chain': seq<nat>)
    requires MemOk(m, chain) && LocalOk(m, Snip(job, left, leftNext, right)) && m.Next(left) == Link(leftNext, false)
    requires !m.Next(right).marked
    ensures DoSnip(m, job, left, leftNext, right) == Found(m', job, left, right)
    ensures MemOk(m', chain') && LocalOk(m', Found(m', job, left, right).l) && Searched(m, m') && Adjacent(m', left, right, Target(job))
  {
    var c := Choice(A.DeleteMin, 0, false);
    var l := Snip(job, left, leftNext, right);
    assert NodeOk(m, left) && NodeOk(m, right);
    chain' := SnipStep(m, chain, l, c);
    m' := DoSnip(m, job, left, leftNext, right).m;
    SnipNow(m, job, left, leftNext, right);
    hide Values, ChainOk, Skips, JobOk, Guarantee, Adjacent, Searched;
    SnipSearched(m, left, right, m');
    SnipAdjacent(m, job, left, leftNext, right, m');
  }

  // The pointer has not changed, so the swap succeeds if one is needed.
  lemma SnipNow(m: Memory, job: Job, left: nat, leftNext: nat, right: nat)
    requires left in m.nodes && m.Next(left) == Link(leftNext, false)
    ensures DoSnip(m, job, left, leftNext, right) == Found(DoSnip(m, job, left, leftNext, right).m, job, left, right)
    ensures var m' := DoSnip(m, job, left, leftNext, right).m; m' == m || m' == m.SetNext(left, Link(right, false))
    ensures DoSnip(m, job, left, leftNext, right).m.Next(left) == Link(right, false)
  {
  }

  lemma SnipSearched(m: Memory, left: nat, right: nat, m': Memory)
    requires left in m.nodes && !m.Next(left).marked && (m' == m || m' == m.SetNext(left, Link(right, false)))
    ensures Searched(m, m')
  {
    SameValues(m, m');
  }

  lemma SnipAdjacent(m: Memory, job: Job, left: nat, leftNext: nat, right: nat, m': Memory)
    requires LocalOk(m, Snip(job, left, leftNext, right)) && !m.Next(right).marked && left in m.nodes && right in m.nodes
    requires (m' == m || m' == m.SetNext(left, Link(right, false))) && m'.Next(left) == Link(right, false)
    ensures Adjacent(m', left, right, Target(job))
  {
    hide Skips, JobOk;
  }

  lemma SnipIs(m: Memory, l: Local, c: Choice)
    requires l.Snip?
    ensures Exec(m, l, c) == DoSnip(m, l.job, l.left, l.leftNext, l.right)
  {
  }

  lemma FoundGoes(m: Memory, job: Job, left: nat, right: nat)
    ensures Found(m, job, left, right).Next? && Found(m, job, left, right).m == m
  {
  }

  // One read of the search: it goes on to the next node, or stops in front of this one.
  lemma RightGoes(m: Memory, chain: seq<nat>, l: Local, c: Choice)
    requires MemOk(m, chain) && l.ReadRight? && AtRight(m, l.job, l.left, l.leftNext, l.right)
    ensures var o := Exec(m, l, c);
      && o.Next? && o.m == m
      && ((o.l == Snip(l.job, l.left, l.leftNext, l.right) && !m.Next(l.right).marked && LocalOk(m, o.l))
          || (o.l.ReadRight? && o.l.job == l.job && o.l.right == m.Next(l.right).to && l.right != TAIL
              && AtRight(m, l.job, o.l.left, o.l.leftNext, o.l.right)))
  {
    InMemory(m, chain, l.right);
    assert NodeOk(m, TAIL) && NodeOk(m, l.right);
    ReadRightStep(m, chain, l, c);
    TargetBelow(m, l.job);
    hide ChainOk, Skips, JobOk, Values, Guarantee;
  }

  lemma Closer(m: Memory, chain: seq<nat>, n: nat)
    requires MemOk(m, chain) && n in m.linked && n != TAIL
    ensures |Above(m, m.Next(n).to)| < |Above(m, n)|
  {
    AboveLess(m, n);
  }

  lemma {:induction false} RightAlone(m: Memory, chain: seq<nat>, job: Job, left: nat, leftNext: nat, right: nat, cs: seq<Choice>)
    returns (n: nat, p: nat, s: nat, m': Memory, chain': seq<nat>)
    requires MemOk(m, chain) && AtRight(m, job, left, leftNext, right)
    requires Clean(m, ReadRight(job, left, leftNext, right), cs) && |cs| >= |Above(m, right)| + 2
    ensures n <= |Above(m, right)| + 2 && n <= |cs|
    ensures MemOk(m', chain') && Searched(m, m') && Adjacent(m', p, s, Target(job))
    ensures Found(m', job, p, s).Next? && Found(m', job, p, s).m == m' && LocalOk(m', Found(m', job, p, s).l)
    ensures Solo(m, ReadRight(job, left, leftNext, right), cs) == Solo(m', Found(m', job, p, s).l, cs[n..])
    ensures Clean(m', Found(m', job, p, s).l, cs[n..])
    decreases |Above(m, right)|
  {
    var l := ReadRight(job, left, leftNext, right);
    RightGoes(m, chain, l, cs[0]);
    var l1 := Exec(m, l, cs[0]).l;
    hide Exec, AtRight, LocalOk, MemOk, Adjacent, Searched, Above, Clean, Solo, Found;
    Turn(m, l, cs, m, l1);
    if l1.Snip? {
      m', chain' := SnipAlone(m, chain, job, left, leftNext, right);
      FoundGoes(m', job, left, right);
      assert Exec(m, l1, cs[1..][0]) == Found(m', job, left, right) by { SnipIs(m, l1, cs[1..][0]); }
      Turn(m, l1, cs[1..], m', Found(m', job, left, right).l);
      n, p, s := 2, left, right;
      assert cs[1..][1..] == cs[2..];
    } else {
      Closer(m, chain, right);
      var k;
      k, p, s, m', chain' := RightAlone(m, chain, job, l1.left, l1.leftNext, l1.right, cs[1..]);
      n := k + 1;
      assert cs[1..][k..] == cs[n..];
    }
  }

  // A whole search, from the choice of where to enter the bottom level.
  lemma SearchAlone(m: Memory, chain: seq<nat>, job: Job, cs: seq<Choice>)
    returns (n: nat, p: nat, s: nat, m': Memory, chain': seq<nat>)
    requires MemOk(m, chain) && JobOk(m, job) && Clean(m, Arrive(job), cs) && |cs| >= |m.linked| + 4
    ensures n <= |m.linked| + 4 && n <= |cs|
    ensures MemOk(m', chain') && Searched(m, m') && Adjacent(m', p, s, Target(job))
    ensures Found(m', job, p, s).Next? && Found(m', job, p, s).m == m' && LocalOk(m', Found(m', job, p, s).l)
    ensures Solo(m, Arrive(job), cs) == Solo(m', Found(m', job, p, s).l, cs[n..])
    ensures Clean(m', Found(m', job, p, s).l, cs[n..])
  {
    var left := cs[0].node;
    Enters(m, chain, job, cs[0], cs[1]);
    Turn(m, Arrive(job), cs, m, ReadLeft(job, left));
    assert cs[1..][0] == cs[1] && cs[1..][1..] == cs[2..];
    var next := m.Next(left).to;
    Turn(m, ReadLeft(job, left), cs[1..], m, ReadRight(job, left, next, next));
    AboveBound(m, next);
    hide Exec, AtRight, LocalOk, MemOk, Adjacent, Searched, Above, Clean, Solo, Found;
    var k;
    k, p, s, m', chain' := RightAlone(m, chain, job, left, next, next, cs[2..]);
    n := k + 2;
    assert cs[2..][k..] == cs[n..];
  }

  lemma Enters(m: Memory, chain: seq<nat>, job: Job, c: Choice, c': Choice)
    requires MemOk(m, chain) && JobOk(m, job) && ChoiceOk(m, Arrive(job), c) && !m.Next(c.node).marked
    ensures Exec(m, Arrive(job), c) == Next(m, ReadLeft(job, c.node))
    ensures var next := m.Next(c.node).to;
      Exec(m, ReadLeft(job, c.node), c') == Next(m, ReadRight(job, c.node, next, next)) && AtRight(m, job, c.node, next, next)
  {
    TargetBelow(m, job);
    assert NodeOk(m, TAIL) && NodeOk(m, c.node);
    ReadLeftStep(m, chain, ReadLeft(job, c.node), c');
    hide ChainOk, Skips, Values, Guarantee;
  }

  // n is the first node, the tail included, that is not marked and holds no smaller value than v.
  ghost predicate FirstFrom(m: Memory, v: nat, n: nat) {
    && n in m.linked && n != HEAD && m.Val(n) >= v && !m.Next(n).marked
    && forall x :: x in m.linked && x != HEAD && m.Val(x) >= v && !m.Next(x).marked ==> x == n || m.Val(n) < m.Val(x)
  }

  lemma RightIsFirst(m: Memory, chain: seq<nat>, left: nat, right: nat, v: nat)
    requires MemOk(m, chain) && Adjacent(m, left, right, v)
    ensures FirstFrom(m, v, right)
  {
    hide MemOk;
    forall x | x in m.linked && x != HEAD && m.Val(x) >= v && !m.Next(x).marked ensures x == right || m.Val(right) < m.Val(x) {
      FirstBehind(m, chain, left, right, v, x);
    }
  }

  lemma FirstBehind(m: Memory, chain: seq<nat>, left: nat, right: nat, v: nat, y: nat)
    requires MemOk(m, chain) && Adjacent(m, left, right, v) && y in m.linked && y != HEAD && !m.Next(y).marked && m.Val(y) >= v
    ensures y == right || m.Val(y) > m.Val(right)
  {
    assert NodeOk(m, y) && NodeOk(m, right);
    var i: nat :| i < |chain| && chain[i] == left;
    var j: nat :| j < |chain| && chain[j] == y;
    if i >= |chain| - 1 { TailLast2(m, chain, i); }
    ChainNext(m, chain, i);
    if j < i { ChainSorted(m, chain, j, i); }
    if i + 1 < j { ChainSorted(m, chain, i + 1, j); }
  }

  lemma TailLast2(m: Memory, chain: seq<nat>, i: nat)
    requires MemOk(m, chain) && i == |chain| - 1
    ensures chain[i] == TAIL
  {
  }

  // So v is present exactly if right holds it unclaimed.
  lemma PresentExactly(m: Memory, chain: seq<nat>, left: nat, right: nat, v: nat)
    requires MemOk(m, chain) && Adjacent(m, left, right, v) && v < VAL_MAX
    ensures v in Values(m) <==> m.Val(right) == v && m.Deleted(right) == 0
  {
    assert NodeOk(m, right) && NodeOk(m, TAIL);
    if v in Values(m) {
      var y :| y in m.linked && Alive(m, y) && m.Val(y) == v;
      assert NodeOk(m, y);
      FirstBehind(m, chain, left, right, v, y);
    }
    if m.Val(right) == v && m.Deleted(right) == 0 { assert Alive(m, right); }
  }

  // ---------- fraser_find ----------

  // fraser_find, run alone, says whether the value is present.
  lemma ContainsAlone(m: Memory, chain: seq<nat>, v: nat, cs: seq<Choice>)
    requires MemOk(m, chain) && v < VAL_MAX && Clean(m, Begin(A.Contains(v)), cs) && |cs| >= |m.linked| + 5
    ensures var o := Solo(m, Begin(A.Contains(v)), cs);
      o.Next? && o.l == Leaving(if v in Values(m) then A.Present else A.Missed) && Values(o.m) == Values(m)
  {
    hide Values, MemOk, Solo, Clean;
    var job := Take(A.Contains(v));
    var n, p, s, m', chain' := SearchAlone(m, chain, job, cs);
    PresentExactly(m', chain', p, s, v);
    if m'.Val(s) == v {
      RightKnown(m', chain', p, s, v);
      Turn(m', FindFlag(A.Contains(v), s), cs[n..], m', Leaving(if m'.Deleted(s) == 0 then A.Present else A.Missed));
      LeavingStays(m', if m'.Deleted(s) == 0 then A.Present else A.Missed, cs[n..][1..]);
    } else {
      LeavingStays(m', A.Missed, cs[n..]);
    }
  }

  lemma LeavingStays(m: Memory, reply: A.Reply, cs: seq<Choice>)
    ensures Solo(m, Leaving(reply), cs) == Next(m, Leaving(reply))
  {
  }

  lemma RightKnown(m: Memory, chain: seq<nat>, left: nat, right: nat, v: nat)
    requires MemOk(m, chain) && Adjacent(m, left, right, v)
    ensures right in m.nodes && right != HEAD && (right != TAIL ==> Proper(m, right) && m.Val(right) < VAL_MAX)
    ensures m.Next(right) == Link(NULL, false) <==> right == TAIL
    ensures m.Val(TAIL) == VAL_MAX
  {
    assert NodeOk(m, right) && NodeOk(m, TAIL);
    InMemory(m, chain, right);
  }

  // ---------- fraser_remove ----------

  // Marking the claimed node's pointer takes two steps, or one if it is marked already.
  lemma MarkAlone(m: Memory, chain: seq<nat>, node: nat, after: After, cs: seq<Choice>)
    returns (n: nat, m': Memory, l': Local)
    requires MemOk(m, chain) && Proper(m, node) && m.Deleted(node) > 0
    requires after.Again? || after.Sweeping?
    requires Clean(m, MarkRead(node, after), cs) && |cs| >= 2
    ensures n <= 2 && m'.linked == m.linked && MemOk(m', chain) && m'.Next(node).marked && Values(m') == Values(m)
    ensures l' == (if after.Again? then Arrive(after.job) else Arrive(Sweep(m.Val(node), after.reply)))
    ensures Solo(m, MarkRead(node, after), cs) == Solo(m', l', cs[n..]) && Clean(m', l', cs[n..])
    ensures m'.Val(node) == m.Val(node) && m'.Deleted(node) == m.Deleted(node) && Guarantee(m, m', {})
  {
    InMemory(m, chain, node);
    l' := if after.Again? then Arrive(after.job) else Arrive(Sweep(m.Val(node), after.reply));
    if m.Next(node).marked {
      Unchanged(m);
      n, m' := 1, m;
      hide MemOk, Values, Guarantee;
      Turn(m, MarkRead(node, after), cs, m, l');
    } else {
      var seen := m.Next(node).to;
      m' := m.SetNext(node, Link(seen, true));
      MarkEffect(m, chain, node, m');
      n := 2;
      hide MemOk, Values, Guarantee;
      Turn(m, MarkRead(node, after), cs, m, MarkCas(node, seen, after));
      Turn(m, MarkCas(node, seen, after), cs[1..], m', l');
      assert cs[1..][1..] == cs[2..];
    }
  }

  // The search that unlinks the claimed node, and the return.
  lemma SweepAlone(m: Memory, chain: seq<nat>, v: nat, reply: A.Reply, cs: seq<Choice>)
    requires MemOk(m, chain) && v < VAL_MAX && Clean(m, Arrive(Sweep(v, reply)), cs) && |cs| >= |m.linked| + 4
    ensures var o := Solo(m, Arrive(Sweep(v, reply)), cs); o.Next? && o.l == Leaving(reply) && Values(o.m) == Values(m)
  {
    hide Values, MemOk, Solo, Clean;
    var n, p, s, m', chain' := SearchAlone(m, chain, Sweep(v, reply), cs);
    LeavingStays(m', reply, cs[n..]);
  }

  // From the test of the flag on.
  lemma TakeAlone(m: Memory, chain: seq<nat>, op: A.Op, node: nat, cs: seq<Choice>)
    requires MemOk(m, chain) && Proper(m, node) && m.Val(node) < VAL_MAX
    requires Clean(m, TakeFlag(op, node), cs) && |cs| >= |m.linked| + 8
    ensures var o := Solo(m, TakeFlag(op, node), cs);
      if m.Deleted(node) > 0 then o == Next(m, Leaving(A.Missed))
      else o.Next? && o.l == Leaving(A.Removed(m.Val(node))) && Values(o.m) == Values(m) - {m.Val(node)}
  {
    if m.Deleted(node) > 0 {
      Turn(m, TakeFlag(op, node), cs, m, Leaving(A.Missed));
    } else {
      var v := m.Val(node);
      var m1, after := m.Bump(node), Sweeping(A.Removed(v));
      BumpEffect(m, chain, node, m1);
      assert Alive(m, node);
      hide Values, MemOk, Guarantee, Solo, Clean, ChoiceOk;
      Turn(m, TakeFlag(op, node), cs, m, TakeClaim(op, node));
      Turn(m, TakeClaim(op, node), cs[1..], m1, MarkRead(node, after));
      var n, m2, l2 := MarkAlone(m1, chain, node, after, cs[1..][1..]);
      SweepAlone(m2, chain, v, A.Removed(v), cs[1..][1..][n..]);
    }
  }

  // fraser_remove, run alone, takes the value if it is present, and changes nothing otherwise.
  lemma RemoveAlone(m: Memory, chain: seq<nat>, v: nat, cs: seq<Choice>)
    requires MemOk(m, chain) && v < VAL_MAX && Clean(m, Begin(A.Remove(v)), cs) && |cs| >= 2 * |m.linked| + 12
    ensures var o := Solo(m, Begin(A.Remove(v)), cs);
      o.Next? && o.l == Leaving(if v in Values(m) then A.Removed(v) else A.Missed) && Values(o.m) == Values(m) - {v}
  {
    hide Values, MemOk, Solo, Clean;
    var job := Take(A.Remove(v));
    var n, p, s, m', chain' := SearchAlone(m, chain, job, cs);
    PresentExactly(m', chain', p, s, v);
    RightKnown(m', chain', p, s, v);
    if m'.Val(s) == v {
      TakeAlone(m', chain', A.Remove(v), s, cs[n..]);
    } else {
      LeavingStays(m', A.Missed, cs[n..]);
    }
  }

  // fraser_remove with remove_succ, run alone, looks at the first unmarked node not below v: it takes
  // its value unless the node is the tail or already claimed, and exactly then it returns 0.
  lemma RemoveSuccAlone(m: Memory, chain: seq<nat>, v: nat, cs: seq<Choice>) returns (s: nat)
    requires MemOk(m, chain) && v < VAL_MAX && Clean(m, Begin(A.RemoveSucc(v)), cs) && |cs| >= 2 * |m.linked| + 13
    ensures FirstFrom(m, v, s)
    ensures var o := Solo(m, Begin(A.RemoveSucc(v)), cs);
      if s == TAIL || m.Deleted(s) > 0 then o.Next? && o.l == Leaving(A.Missed) && Values(o.m) == Values(m)
      else o.Next? && o.l == Leaving(A.Removed(m.Val(s))) && Alive(m, s) && Values(o.m) == Values(m) - {m.Val(s)}
  {
    hide Values, MemOk, Solo, Clean;
    var job := Take(A.RemoveSucc(v));
    var n, p, m', chain';
    n, p, s, m', chain' := SearchAlone(m, chain, job, cs);
    RightKnown(m', chain', p, s, v);
    RightIsFirst(m', chain', p, s, v);
    if s == TAIL {
      Turn(m', TakeEnd(A.RemoveSucc(v), s), cs[n..], m', Leaving(A.Missed));
      LeavingStays(m', A.Missed, cs[n..][1..]);
    } else {
      Turn(m', TakeEnd(A.RemoveSucc(v), s), cs[n..], m', TakeFlag(A.RemoveSucc(v), s));
      TakeAlone(m', chain', A.RemoveSucc(v), s, cs[n..][1..]);
    }
  }

  // ---------- fraser_insert ----------

  lemma AddedAlone(m: Memory, chain: seq<nat>, job: Job, p: nat, s: nat, cs: seq<Choice>)
    requires MemOk(m, chain) && job.Add? && LocalOk(m, AddStore(job, p, s)) && Adjacent(m, p, s, job.v)
    requires Clean(m, AddStore(job, p, s), cs) && |cs| >= 2
    ensures var o := Solo(m, AddStore(job, p, s), cs); o.Next? && o.l == Leaving(A.Added) && job.v !in Values(m) && Values(o.m) == Values(m) + {job.v}
  {
    var m1 := m.SetNext(job.new_, Link(s, false));
    var m2 := m1.SetNext(p, Link(job.new_, false)).(linked := m1.linked + {job.new_});
    StoreThen(m, chain, job, p, s, m1, m2, cs[0]);
    hide MemOk, Values, LocalOk, Adjacent;
    Turn(m, AddStore(job, p, s), cs, m1, AddLink(job, p, s));
    Turn(m1, AddLink(job, p, s), cs[1..], m2, Leaving(A.Added));
    LeavingStays(m2, A.Added, cs[1..][1..]);
  }

  lemma StoreThen(m: Memory, chain: seq<nat>, job: Job, p: nat, s: nat, m1: Memory, m2: Memory, c: Choice)
    requires MemOk(m, chain) && job.Add? && LocalOk(m, AddStore(job, p, s)) && Adjacent(m, p, s, job.v)
    requires job.new_ in m.nodes && m1 == m.SetNext(job.new_, Link(s, false)) && p in m1.nodes
    requires m2 == m1.SetNext(p, Link(job.new_, false)).(linked := m1.linked + {job.new_})
    ensures m1.Next(p) == Link(s, false) && job.v !in Values(m) && Values(m2) == Values(m) + {job.v}
  {
    StoreEffect(m, chain, job.new_, Link(s, false));
    assert p != job.new_;
    hide Values, Guarantee, Skips;
    var _ := LinkEffect(m1, chain, job, p, s, m2);
    PresentExactly(m, chain, p, s, job.v);
  }

  // The value taken is the least present one not below v.
  lemma SuccIsLeast(m: Memory, chain: seq<nat>, v: nat, s: nat, w: nat)
    requires MemOk(m, chain) && FirstFrom(m, v, s) && w in Values(m) && w >= v
    ensures m.Val(s) <= w
  {
    var y :| y in m.linked && Alive(m, y) && m.Val(y) == w;
    assert NodeOk(m, y);
  }

  // But a claimed node that is not marked yet hides the values behind it: remove-successor misses 7
  // although it is there.
  lemma SuccHidden() returns (m: Memory, chain: seq<nat>)
    ensures MemOk(m, chain) && 7 in Values(m) && FirstFrom(m, 3, 3) && m.Deleted(3) > 0
  {
    m := Memory(map[HEAD := Node(VAL_MIN, Link(3, false), 0), 3 := Node(5, Link(4, false), 1), 4 := Node(7, Link(TAIL, false), 0),
                    TAIL := Node(VAL_MAX, Link(NULL, false), 0)], {HEAD, TAIL, 3, 4});
    chain := [HEAD, 3, 4, TAIL];
    assert NodeOk(m, HEAD) && NodeOk(m, 3) && NodeOk(m, 4) && NodeOk(m, TAIL);
    assert Leads(m, chain, 0) && Leads(m, chain, 1) && Leads(m, chain, 2);
    assert Alive(m, 4) && m.Val(4) == 7;
  }

  // One search of an insertion and what follows it, if no claimed node with the value is in the way.
  lemma TryAlone(m: Memory, chain: seq<nat>, job: Job, cs: seq<Choice>)
    requires MemOk(m, chain) && job.Add? && JobOk(m, job) && Clean(m, Arrive(job), cs) && |cs| >= |m.linked| + 6
    requires forall x :: x in m.linked && m.Val(x) == job.v && m.Deleted(x) > 0 ==> m.Next(x).marked
    ensures var o := Solo(m, Arrive(job), cs);
      o.Next? && o.l == Leaving(if job.v in Values(m) then A.Refused else A.Added) && Values(o.m) == Values(m) + {job.v}
  {
    hide Values, MemOk, Solo, Clean, JobOk;
    var n, p, s, m', chain' := SearchAlone(m, chain, job, cs);
    TargetIs(m, job);
    PresentExactly(m', chain', p, s, job.v);
    RightKnown(m', chain', p, s, job.v);
    if m'.Val(s) == job.v {
      Turn(m', AddFlag(job, s), cs[n..], m', Leaving(A.Refused));
      LeavingStays(m', A.Refused, cs[n..][1..]);
      assert Values(m) + {job.v} == Values(m);
    } else {
      AddedAlone(m', chain', job, p, s, cs[n..]);
    }
  }

  lemma TargetIs(m: Memory, job: Job)
    requires JobOk(m, job) && job.Add?
    ensures Target(job) == job.v < VAL_MAX
  {
  }

  // From the search on; a claimed node with the value is marked, and passed the second time.
  lemma AddAlone(m: Memory, chain: seq<nat>, job: Job, cs: seq<Choice>)
    requires MemOk(m, chain) && job.Add? && JobOk(m, job) && Clean(m, Arrive(job), cs) && |cs| >= 2 * |m.linked| + 13
    ensures var o := Solo(m, Arrive(job), cs);
      o.Next? && o.l == Leaving(if job.v in Values(m) then A.Refused else A.Added) && Values(o.m) == Values(m) + {job.v}
  {
    hide Values, MemOk, Solo, Clean, JobOk;
    var n, p, s, m', chain' := SearchAlone(m, chain, job, cs);
    TargetIs(m, job);
    PresentExactly(m', chain', p, s, job.v);
    RightKnown(m', chain', p, s, job.v);
    if m'.Val(s) != job.v {
      AddedAlone(m', chain', job, p, s, cs[n..]);
    } else if m'.Deleted(s) == 0 {
      Turn(m', AddFlag(job, s), cs[n..], m', Leaving(A.Refused));
      LeavingStays(m', A.Refused, cs[n..][1..]);
      assert Values(m) + {job.v} == Values(m);
    } else {
      Turn(m', AddFlag(job, s), cs[n..], m', MarkRead(s, Again(job)));
      AgainAlone(m', chain', job, p, s, cs[n..][1..]);
    }
  }

  // fraser_insert, run alone, adds the value if it is absent and changes nothing otherwise.
  lemma InsertAlone(m: Memory, chain: seq<nat>, v: nat, cs: seq<Choice>)
    requires MemOk(m, chain) && v < VAL_MAX && Clean(m, Begin(A.Insert(v)), cs) && |cs| >= 2 * |m.linked| + 14
    ensures var o := Solo(m, Begin(A.Insert(v)), cs);
      o.Next? && o.l == Leaving(if v in Values(m) then A.Refused else A.Added) && Values(o.m) == Values(m) + {v}
  {
    var n := cs[0].node;
    assert ChoiceOk(m, InsAlloc(v), cs[0]);
    var m' := m.(nodes := m.nodes[n := Node(v, Link(NULL, false), 0)]);
    AllocEffect(m, chain, n, v, m');
    hide Values, MemOk, Guarantee, Solo, Clean;
    Turn(m, InsAlloc(v), cs, m', Arrive(Add(v, n)));
    AddAlone(m', chain, Add(v, n), cs[1..]);
  }

  lemma AgainAlone(m: Memory, chain: seq<nat>, job: Job, p: nat, s: nat, cs: seq<Choice>)
    requires MemOk(m, chain) && job.Add? && JobOk(m, job) && Adjacent(m, p, s, job.v) && m.Val(s) == job.v && m.Deleted(s) > 0
    requires Proper(m, s) && Clean(m, MarkRead(s, Again(job)), cs) && |cs| >= |m.linked| + 8
    ensures var o := Solo(m, MarkRead(s, Again(job)), cs);
      o.Next? && o.l == Leaving(if job.v in Values(m) then A.Refused else A.Added) && Values(o.m) == Values(m) + {job.v}
  {
    hide Values, MemOk, Solo, Clean;
    var n, m', l' := MarkAlone(m, chain, s, Again(job), cs);
    OnlyOne(m, chain, job, p, s, m');
    TryAlone(m', chain, job, cs[n..]);
  }

  lemma OnlyOne(m: Memory, chain: seq<nat>, job: Job, p: nat, s: nat, m': Memory)
    requires job.Add? && JobOk(m, job) && MemOk(m, chain) && Adjacent(m, p, s, job.v) && m.Val(s) == job.v
    requires MemOk(m', chain) && Guarantee(m, m', {}) && m'.linked == m.linked && m'.Next(s).marked
    ensures forall x :: x in m'.linked && m'.Val(x) == job.v && m'.Deleted(x) > 0 ==> m'.Next(x).marked
    ensures JobOk(m', job)
  {
    JobKept(m, m', {}, job);
    forall x | x in m'.linked && m'.Val(x) == job.v && m'.Deleted(x) > 0 ensures m'.Next(x).marked {
      LinkedKept(m, m', {}, x);
      assert NodeOk(m', HEAD);
      if !m.Next(x).marked { FirstBehind(m, chain, p, s, job.v, x); }
    }
  }

  // ---------- naive_delete_min ----------

  lemma {:induction false} NaiveReaches(m: Memory, chain: seq<nat>, l: Local, i: nat, cs: seq<Choice>) returns (n: nat, f: nat)
    requires MemOk(m, chain) && At(m, chain, l, i) && Clean(m, l, cs) && |cs| >= Need(chain, l, i) && Values(m) != {}
    ensures n <= Need(chain, l, i) && n <= |cs| && Alive(m, f) && f in m.nodes && Least(Values(m), m.Val(f))
    ensures Solo(m, l, cs) == Solo(m.Bump(f), NaiveTail(f), cs[n..]) && Clean(m.Bump(f), NaiveTail(f), cs[n..])
    decreases |cs|
  {
    hide MemOk, Exec, ChoiceOk, Values, Clean, Solo, Least;
    Some(chain, l, i, m);
    if l.NaiveClaim? {
      f := ClaimsAlive(m, chain, l, i, cs[0]);
      n := 1;
      Turn(m, l, cs, m.Bump(f), NaiveTail(f));
    } else {
      var l', i' := NaiveTurn(m, chain, l, i, cs[0]);
      WalkPc(l, l', chain, i, m, i');
      Turn(m, l, cs, m, l');
      var k;
      k, f := NaiveReaches(m, chain, l', i', cs[1..]);
      n := k + 1;
      assert cs[1..][k..] == cs[n..];
    }
  }

  lemma Some(chain: seq<nat>, l: Local, i: nat, m: Memory)
    requires At(m, chain, l, i)
    ensures Need(chain, l, i) > 0 && (l.NaiveNext? || l.NaiveEnd? || l.NaiveFlag? || l.NaiveClaim?)
  {
  }

  lemma WalkPc(l: Local, l': Local, chain: seq<nat>, i: nat, m: Memory, i': nat)
    requires At(m, chain, l, i) && At(m, chain, l', i')
    ensures !l.Leaving? && !l.Arrive?
  {
  }

  lemma ClaimsAlive(m: Memory, chain: seq<nat>, l: Local, i: nat, c: Choice) returns (f: nat)
    requires MemOk(m, chain) && At(m, chain, l, i) && l.NaiveClaim? && Values(m) != {}
    ensures Alive(m, f) && f in m.nodes && Least(Values(m), m.Val(f)) && Exec(m, l, c) == Next(m.Bump(f), NaiveTail(f))
  {
    f := l.first;
    if f == TAIL {
      ClaimsTail(m, chain, l, i);
      NothingAlive(m, chain);
    } else {
      ClaimsNode(m, chain, l, i);
      FirstAlive(m, chain, i);
      assert NodeOk(m, f);
    }
  }

  lemma PerhapsAlone(m: Memory, chain: seq<nat>, node: nat, reply: A.Reply, cs: seq<Choice>)
    requires MemOk(m, chain) && Proper(m, node) && m.Deleted(node) > 0
    requires Clean(m, MarkRead(node, Perhaps(reply)), cs) && |cs| >= |m.linked| + 6
    ensures var o := Solo(m, MarkRead(node, Perhaps(reply)), cs); o.Next? && o.l == Leaving(reply) && Values(o.m) == Values(m)
  {
    InMemory(m, chain, node);
    ValBelow(m, chain, node);
    hide MemOk, Values, Clean, Solo;
    if m.Next(node).marked {
      var l' := Continue(m, node, Perhaps(reply), cs[0].coin);
      Turn(m, MarkRead(node, Perhaps(reply)), cs, m, l');
      ContinueAlone(m, chain, node, reply, l', cs[1..]);
    } else {
      Turn(m, MarkRead(node, Perhaps(reply)), cs, m, MarkCas(node, m.Next(node).to, Perhaps(reply)));
      PerhapsMarks(m, chain, node, reply, cs[1..]);
    }
  }

  lemma ValBelow(m: Memory, chain: seq<nat>, node: nat)
    requires MemOk(m, chain) && Proper(m, node)
    ensures m.Val(node) < VAL_MAX
  {
    assert NodeOk(m, node);
  }

  lemma PerhapsMarks(m: Memory, chain: seq<nat>, node: nat, reply: A.Reply, cs: seq<Choice>)
    requires MemOk(m, chain) && Proper(m, node) && m.Deleted(node) > 0 && !m.Next(node).marked && m.Val(node) < VAL_MAX
    requires Clean(m, MarkCas(node, m.Next(node).to, Perhaps(reply)), cs) && |cs| >= |m.linked| + 5
    ensures var o := Solo(m, MarkCas(node, m.Next(node).to, Perhaps(reply)), cs); o.Next? && o.l == Leaving(reply) && Values(o.m) == Values(m)
  {
    var seen := m.Next(node).to;
    var m' := m.SetNext(node, Link(seen, true));
    MarkEffect(m, chain, node, m');
    hide MemOk, Values, Guarantee, Clean, Solo;
    var l' := Continue(m', node, Perhaps(reply), cs[0].coin);
    Turn(m, MarkCas(node, seen, Perhaps(reply)), cs, m', l');
    ContinueAlone(m', chain, node, reply, l', cs[1..]);
  }

  lemma ContinueAlone(m: Memory, chain: seq<nat>, node: nat, reply: A.Reply, l: Local, cs: seq<Choice>)
    requires MemOk(m, chain) && m.Val(node) < VAL_MAX && (l == Arrive(Sweep(m.Val(node), reply)) || l == Leaving(reply))
    requires Clean(m, l, cs) && |cs| >= |m.linked| + 4
    ensures var o := Solo(m, l, cs); o.Next? && o.l == Leaving(reply) && Values(o.m) == Values(m)
  {
    hide MemOk, Values;
    if l.Leaving? { LeavingStays(m, reply, cs); } else { SweepAlone(m, chain, m.Val(node), reply, cs); }
  }

  // And so naive_delete_min, run alone where a value is present, returns the least one.
  lemma NaiveReturns(m: Memory, chain: seq<nat>, cs: seq<Choice>) returns (v: nat)
    requires MemOk(m, chain) && Values(m) != {}
    requires Clean(m, Begin(A.DeleteMin), cs) && |cs| >= 3 * |chain| + |m.linked| + 8
    ensures Least(Values(m), v)
    ensures var o := Solo(m, Begin(A.DeleteMin), cs); o.Next? && o.l == Leaving(A.Removed(v)) && Values(o.m) == Values(m) - {v}
  {
    assert At(m, chain, NaiveNext(HEAD), 0);
    hide At, Solo, Clean, Values, Least;
    var n, f := NaiveReaches(m, chain, NaiveNext(HEAD), 0, cs);
    v := m.Val(f);
    var m1 := m.Bump(f);
    BumpEffect(m, chain, f, m1);
    NotLast(m, chain, f, m1);
    hide MemOk, Guarantee;
    Turn(m1, NaiveTail(f), cs[n..], m1, MarkRead(f, Perhaps(A.Removed(v))));
    PerhapsAlone(m1, chain, f, A.Removed(v), cs[n..][1..]);
  }

  lemma NotLast(m: Memory, chain: seq<nat>, f: nat, m1: Memory)
    requires MemOk(m, chain) && Alive(m, f) && f in m.nodes && m1 == m.Bump(f)
    ensures f in m.linked && Proper(m1, f) && m1.Deleted(f) > 0 && m1.Next(f) != Link(NULL, false) && m1.Val(f) == m.Val(f)
    ensures m1.linked == m.linked
  {
    InMemory(m, chain, f);
  }
}
