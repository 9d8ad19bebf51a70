// What one step of a thread may do to the rest of the world, and that no thread's
// condition is disturbed by it.

module PrioqStability {
  import opened PrioqModel
  import opened PrioqInvariant

  // Nodes keep their key, value and height; inserting is only cleared; pointers are
  // never emptied; marks stay, and a marked pointer of a node other than the head stays put.
  ghost predicate NodeKept(m: Memory, m': Memory, n: nat) {
    n in m.nodes ==>
      && n in m'.nodes
      && m'.nodes[n].key == m.nodes[n].key
      && m'.nodes[n].val == m.nodes[n].val
      && m'.nodes[n].level == m.nodes[n].level
      && |m'.nodes[n].next| == |m.nodes[n].next|
      && (m'.nodes[n].inserting ==> m.nodes[n].inserting)
      && (m.Next(n, 0).Marked() ==> m'.Next(n, 0).Marked() && (n != HEAD ==> m'.Next(n, 0) == m.Next(n, 0)))
  }

  ghost predicate LinkKept(m: Memory, m': Memory, n: nat, i: nat) {
    m.Next(n, i).Link? ==> m'.Next(n, i).Link?
  }

  // Deleted nodes stay deleted in the same order, linked nodes stay linked, the head
  // only moves forward.
  ghost predicate HistoryKept(g: History, g': History) {
    && (forall n :: n in g.pos ==> n in g'.pos && g'.pos[n] == g.pos[n])
    && (forall n :: g.Linked(n) ==> g'.Linked(n))
    && |g.dead| <= |g'.dead|
    && (forall j :: 0 <= j < |g.dead| ==> g'.dead[j] == g.dead[j])
    && |g.claim| <= |g'.claim|
  }

  // No other thread's debts change.
  ghost predicate ClaimsKept(g: History, g': History, t: nat) {
    forall j, u :: 0 <= j < |g'.claim| && u != t ==>
      (g'.claim[j] == Some(u) <==> j < |g.claim| && g.claim[j] == Some(u))
  }

  // A level-0 pointer that has left a linked node never leads to it unmarked again,
  // and one that led to a proper node never leads to the tail.
  ghost predicate PointerKept(m: Memory, g: History, m': Memory, p: nat) {
    p == HEAD || g.Linked(p) ==>
      && (forall q :: (q == TAIL || g.Linked(q)) && m.Next(p, 0) != Link(q, false) ==> m'.Next(p, 0) != Link(q, false))
      && ((p == HEAD || p in g.pos) && NotAtTail(m, p) ==> NotAtTail(m', p))
  }

  // Unlinked nodes other than the thread's own are left alone.
  ghost predicate PrivateKept(m: Memory, g: History, m': Memory, g': History, mine: Option<nat>, n: nat) {
    n in m.nodes && !g.Linked(n) && n != HEAD && n != TAIL && mine != Some(n) ==>
      && n in m'.nodes && m'.nodes[n] == m.nodes[n]
      && !g'.Linked(n)
      && (n in m'.freed ==> n in m.freed)
  }

  ghost predicate Guarantee(m: Memory, g: History, m': Memory, g': History, t: nat, mine: Option<nat>) {
    && (forall n :: NodeKept(m, m', n))
    && (forall n, i :: LinkKept(m, m', n, i))
    && HistoryKept(g, g')
    && ClaimsKept(g, g', t)
    && (forall p :: PointerKept(m, g, m', p))
    && (forall n :: PrivateKept(m, g, m', g', mine, n))
  }

  lemma HasLevelStable(m: Memory, g: History, m': Memory, g': History, n: nat, i: nat)
    requires forall n, i :: LinkKept(m, m', n, i)
    requires HistoryKept(g, g')
    requires HasLevel(m, g, n, i)
    ensures HasLevel(m', g', n, i)
  {
    assert LinkKept(m, m', n, i);
  }

  lemma ArrivedStable(m: Memory, g: History, m': Memory, g': History, k: nat, n: nat)
    requires NodesOk(m, g)
    requires forall n :: NodeKept(m, m', n)
    requires HistoryKept(g, g')
    requires Arrived(m, g, k, n)
    ensures Arrived(m', g', k, n)
  {
    if n != HEAD {
      assert NodeOk(m, n);
      assert NodeKept(m, m', n);
    }
  }

  lemma PredStable(m: Memory, g: History, m': Memory, g': History, k: nat, n: nat, i: nat)
    requires NodesOk(m, g)
    requires forall n :: NodeKept(m, m', n)
    requires forall n, i :: LinkKept(m, m', n, i)
    requires HistoryKept(g, g')
    requires PredOk(m, g, k, n, i)
    ensures PredOk(m', g', k, n, i)
  {
    ArrivedStable(m, g, m', g', k, n);
    assert LinkKept(m, m', n, i);
  }

  lemma KeyStable(m: Memory, g: History, m': Memory, n: nat)
    requires SentinelsOk(m) && NodesOk(m, g)
    requires forall n :: NodeKept(m, m', n)
    requires n == TAIL || g.Linked(n)
    ensures m'.Key(n) == m.Key(n)
  {
    if n != TAIL { assert NodeOk(m, n); }
    assert NodeKept(m, m', n);
  }

  lemma LocatedStable(m: Memory, g: History, m': Memory, g': History, a: Ins)
    requires SentinelsOk(m) && NodesOk(m, g)
    requires forall n :: NodeKept(m, m', n)
    requires forall n, i :: LinkKept(m, m', n, i)
    requires HistoryKept(g, g')
    requires LocatedOk(m, g, a)
    ensures LocatedOk(m', g', a)
  {
    forall j | j in a.preds ensures PredOk(m', g', a.k, a.preds[j], j) {
      PredStable(m, g, m', g', a.k, a.preds[j], j);
    }
    forall j | j in a.succs ensures SuccOk(m', g', a.k, a.succs[j], j) {
      HasLevelStable(m, g, m', g', a.succs[j], j);
      KeyStable(m, g, m', a.succs[j]);
    }
  }

  lemma NewStable(m: Memory, g: History, m': Memory, g': History, t: nat, mine: Option<nat>, a: Ins, up: nat)
    requires NodesOk(m, g)
    requires Guarantee(m, g, m', g', t, mine)
    requires up == 0 ==> mine != Some(a.new_)
    requires NewOk(m, g, a, up)
    ensures NewOk(m', g', a, up)
  {
    if up == 0 {
      assert PrivateKept(m, g, m', g', mine, a.new_);
      forall j | m'.Next(a.new_, j).Link? ensures j == 0 && !m'.Next(a.new_, j).marked {
        assert m.Next(a.new_, j) == m'.Next(a.new_, j);
      }
    } else {
      assert NodeOk(m, a.new_);
      assert NodeKept(m, m', a.new_);
      assert LinkKept(m, m', a.new_, up - 1);
    }
  }

  lemma MovedOnStable(m: Memory, g: History, m': Memory, g': History, a: Ins)
    requires SentinelsOk(m) && NodesOk(m, g)
    requires forall n :: NodeKept(m, m', n)
    requires forall p :: PointerKept(m, g, m', p)
    requires LocatedOk(m, g, a)
    requires MovedOn(m, a)
    ensures MovedOn(m', a)
  {
    assert PredOk(m, g, a.k, a.preds[0], 0);
    assert SuccOk(m, g, a.k, a.succs[0], 0);
    KeyStable(m, g, m', a.succs[0]);
    assert PointerKept(m, g, m', a.preds[0]);
  }

  lemma LocateStable(m: Memory, g: History, m': Memory, g': History, t: nat, mine: Option<nat>, l: Local)
    requires SentinelsOk(m) && NodesOk(m, g)
    requires Guarantee(m, g, m', g', t, mine)
    requires PrivateNode(l).Some? ==> PrivateNode(l) != mine
    requires l.LocateRead? || l.LocateTest?
    requires InsertOk(m, g, l)
    ensures InsertOk(m', g', l)
  {
    NewStable(m, g, m', g', t, mine, l.a, l.up);
    LocatedStable(m, g, m', g', l.a);
    if PredOk(m, g, l.a.k, l.x, l.i) { PredStable(m, g, m', g', l.a.k, l.x, l.i); }
    if l.LocateTest? { HasLevelStable(m, g, m', g', l.xn, l.i); }
  }

  lemma UnlinkedStable(m: Memory, g: History, m': Memory, g': History, t: nat, mine: Option<nat>, l: Local)
    requires SentinelsOk(m) && NodesOk(m, g)
    requires Guarantee(m, g, m', g', t, mine)
    requires PrivateNode(l).Some? && PrivateNode(l) != mine
    requires l.DupMark? || l.DupSame? || l.Prepare? || l.LinkCas?
    requires InsertOk(m, g, l)
    ensures InsertOk(m', g', l)
  {
    NewStable(m, g, m', g', t, mine, l.a, 0);
    LocatedStable(m, g, m', g', l.a);
    if l.DupMark? || l.DupSame? {
      assert SuccOk(m, g, l.a.k, l.a.succs[0], 0);
      KeyStable(m, g, m', l.a.succs[0]);
    } else {
      MovedOnStable(m, g, m', g', l.a);
      assert PrivateKept(m, g, m', g', mine, l.a.new_);
    }
  }

  lemma UpNewStable(m: Memory, g: History, m': Memory, g': History, a: Ins, i: nat)
    requires NodesOk(m, g) && g.Linked(a.new_)
    requires NodeKept(m, m', a.new_) && LinkKept(m, m', a.new_, i)
    requires HistoryKept(g, g')
    ensures g'.Linked(a.new_)
    ensures LevelLeft(m, a, i) ==> LevelLeft(m', a, i)
    ensures m.Next(a.new_, i).Link? ==> m'.Next(a.new_, i).Link?
  {
    assert NodeOk(m, a.new_);
  }

  lemma UpStable(m: Memory, g: History, m': Memory, g': History, t: nat, mine: Option<nat>, l: Local)
    requires SentinelsOk(m) && NodesOk(m, g)
    requires Guarantee(m, g, m', g', t, mine)
    requires l.UpNew? || l.UpSucc? || l.UpPrepare? || l.UpCas?
    requires InsertOk(m, g, l)
    ensures InsertOk(m', g', l)
  {
    hide LocatedOk, NodeOk, NodeKept, LinkKept, PointerKept, PrivateKept, ClaimsKept, SentinelsOk;
    LocatedStable(m, g, m', g', l.a);
    UpNewStable(m, g, m', g', l.a, l.i);
    UpNewStable(m, g, m', g', l.a, l.i - 1);
  }

  lemma InsertStable(m: Memory, g: History, m': Memory, g': History, t: nat, mine: Option<nat>, l: Local)
    requires SentinelsOk(m) && NodesOk(m, g)
    requires Guarantee(m, g, m', g', t, mine)
    requires PrivateNode(l).Some? ==> PrivateNode(l) != mine
    requires InsertOk(m, g, l)
    ensures InsertOk(m', g', l)
  {
    if l.LocateRead? || l.LocateTest? {
      LocateStable(m, g, m', g', t, mine, l);
    } else if l.DupMark? || l.DupSame? || l.Prepare? || l.LinkCas? {
      UnlinkedStable(m, g, m', g', t, mine, l);
    } else if l.UpNew? || l.UpSucc? || l.UpPrepare? || l.UpCas? {
      UpStable(m, g, m', g', t, mine, l);
    } else if l.DupClear? || l.DupFree? {
      NewStable(m, g, m', g', t, mine, l.a, 0);
    }
  }

  // If the head pointer is back at a marked pointer observed earlier, it never moved.
  lemma HeadUnmoved(m: Memory, g: History, m': Memory, g': History, obs: Link)
    requires MemOk(m, g) && MemOk(m', g')
    requires HistoryKept(g, g')
    requires ObservedOk(g, obs) && obs.marked
    requires m'.Next(HEAD, 0) == obs
    ensures m.Next(HEAD, 0) == obs
  {
  }

  lemma QuietStable(m: Memory, g: History, m': Memory, g': History, obs: Link, b: nat)
    requires MemOk(m, g) && MemOk(m', g')
    requires forall n :: NodeKept(m, m', n)
    requires HistoryKept(g, g')
    requires ObservedOk(g, obs)
    requires Quiet(m, g, obs, b)
    ensures Quiet(m', g', obs, b)
  {
    if m'.Next(HEAD, 0) == obs && obs.Marked() {
      HeadUnmoved(m, g, m', g', obs);
      forall j | g'.pos[obs.node] <= j < b ensures !m'.Inserting(g'.dead[j]) {
        assert NodeOk(m, g.dead[j]) by { assert g.Linked(g.dead[j]); }
        assert NodeKept(m, m', g.dead[j]);
      }
    }
  }

  lemma TraverseStable(m: Memory, g: History, m': Memory, g': History, d: Del)
    requires MemOk(m, g) && MemOk(m', g')
    requires forall n :: NodeKept(m, m', n)
    requires HistoryKept(g, g')
    requires TraverseOk(m, g, d)
    ensures TraverseOk(m', g', d)
  {
    assert d.x == HEAD ==> d.x !in g'.pos by { assert g'.Linked(HEAD) ==> NodeOk(m', HEAD); }
    match d.newhead
    case None => if d.x in g.pos { QuietStable(m, g, m', g', d.obs, g.pos[d.x]); }
    case Some(n) => QuietStable(m, g, m', g', d.obs, g.pos[n]);
  }

  lemma HeadNotDead(m: Memory, g: History)
    requires MemOk(m, g)
    ensures HEAD !in g.pos && TAIL !in g.pos
  {
    assert g.Linked(HEAD) ==> NodeOk(m, HEAD);
    assert g.Linked(TAIL) ==> NodeOk(m, TAIL);
  }

  lemma PassedPredStable(m: Memory, g: History, m': Memory, g': History, n: nat, i: nat)
    requires SentinelsOk(m) && NodesOk(m, g)
    requires forall n :: NodeKept(m, m', n)
    requires forall n, i :: LinkKept(m, m', n, i)
    requires HistoryKept(g, g')
    requires PassedPred(m, g, n, i)
    ensures PassedPred(m', g', n, i)
  {
    if n != HEAD { assert NodeOk(m, n); }
    assert NodeKept(m, m', n);
    assert LinkKept(m, m', n, i);
  }

  lemma FlagStable(m: Memory, g: History, m': Memory, g': History, d: Del, link: Link)
    requires MemOk(m, g) && MemOk(m', g')
    requires forall n :: NodeKept(m, m', n)
    requires forall p :: PointerKept(m, g, m', p)
    requires HistoryKept(g, g')
    requires TraverseOk(m, g, d) && NotAtTail(m, d.x) && ReadOk(g, d, link)
    ensures TraverseOk(m', g', d) && NotAtTail(m', d.x) && ReadOk(g', d, link)
  {
    HeadNotDead(m', g');
    TraverseStable(m, g, m', g', d);
    assert PointerKept(m, g, m', d.x);
  }

  lemma MarkStable(m: Memory, g: History, m': Memory, g': History, d: Del)
    requires MemOk(m, g) && MemOk(m', g')
    requires forall n :: NodeKept(m, m', n)
    requires forall p :: PointerKept(m, g, m', p)
    requires HistoryKept(g, g')
    requires DeleteOk(m, g, DelMark(d))
    ensures DeleteOk(m', g', DelMark(d))
  {
    HeadNotDead(m', g');
    TraverseStable(m, g, m', g', d);
    assert PointerKept(m, g, m', d.x);
    if d.newhead == None && d.x in g.pos { QuietStable(m, g, m', g', d.obs, g.pos[d.x] + 1); }
  }

  lemma RestructureStable(m: Memory, g: History, m': Memory, g': History, l: Local)
    requires SentinelsOk(m) && NodesOk(m, g)
    requires forall n :: NodeKept(m, m', n)
    requires forall n, i :: LinkKept(m, m', n, i)
    requires HistoryKept(g, g')
    requires Restructuring(l)
    requires DeleteOk(m, g, l)
    ensures DeleteOk(m', g', l)
  {
    PassedPredStable(m, g, m', g', l.pred, l.i);
    if !l.ReHead? && !l.ReCas? { HasLevelStable(m, g, m', g', l.h, l.i); }
    if l.ReTest? || l.ReSkip? || l.ReCas? { HasLevelStable(m, g, m', g', l.cur, l.i); }
  }

  lemma DeleteStable(m: Memory, g: History, m': Memory, g': History, t: nat, mine: Option<nat>, l: Local)
    requires MemOk(m, g) && MemOk(m', g')
    requires Guarantee(m, g, m', g', t, mine)
    requires DeleteOk(m, g, l)
    ensures DeleteOk(m', g', l)
  {
    if Restructuring(l) {
      RestructureStable(m, g, m', g', l);
    } else if l.DelFlag? {
      FlagStable(m, g, m', g', l.d, l.link);
    } else if l.DelMark? {
      MarkStable(m, g, m', g', l.d);
    } else if l.DelRead? || l.DelHeadTest? || l.DelSwing? {
      TraverseStable(m, g, m', g', l.d);
    }
  }

  lemma OwesStable(g: History, g': History, t: nat, u: nat, lo: nat, hi: nat)
    requires ClaimsKept(g, g', t) && u != t
    requires |g.claim| <= |g'.claim| && hi <= |g.claim|
    requires Owes(g, u, lo, hi)
    ensures Owes(g', u, lo, hi)
  {
  }

  lemma ClaimStable(g: History, g': History, t: nat, u: nat, l: Local)
    requires HistoryKept(g, g') && ClaimsKept(g, g', t) && u != t
    requires ClaimOk(g, u, l)
    ensures ClaimOk(g', u, l)
  {
    match ClaimStart(l)
    case None => OwesStable(g, g', t, u, 0, 0);
    case Some(c) => OwesStable(g, g', t, u, g.pos[c.0], g.pos[c.1.value]);
  }

  // A step of thread t disturbs no other thread.
  lemma ThreadStable(m: Memory, g: History, m': Memory, g': History, t: nat, mine: Option<nat>, u: nat, l: Local)
    requires MemOk(m, g) && MemOk(m', g')
    requires Guarantee(m, g, m', g', t, mine)
    requires u != t
    requires PrivateNode(l).Some? ==> PrivateNode(l) != mine
    requires ThreadOk(m, g, u, l)
    ensures ThreadOk(m', g', u, l)
  {
    InsertStable(m, g, m', g', t, mine, l);
    DeleteStable(m, g, m', g', t, mine, l);
    ClaimStable(g, g', t, u, l);
  }
}
