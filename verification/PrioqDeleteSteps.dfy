// Each step of deletemin, restructure and the reclamation loop keeps the invariant
// and never faults.

module PrioqDeleteSteps {
  import opened PrioqParams
  import opened PrioqModel
  import opened PrioqInvariant
  import opened PrioqStability
  import opened PrioqEffects
  import opened PrioqLevelZero
  import opened PrioqInsertSteps
  import AtomicQueue

  lemma ObserveStep(m: Memory, g: History)
    requires MemOk(m, g)
    ensures var o := DoDelObserve(m);
            o.Next? && o.m == m && o.l.DelRead? && DeleteOk(m, g, o.l)
  {
    HeadNotDead(m, g);
  }

  // The empty return: when the pointer read at line 318 leads to the tail, nothing is live.
  lemma ReadStep(m: Memory, g: History, d: Del)
    requires MemOk(m, g)
    requires DeleteOk(m, g, DelRead(d))
    ensures var o := DoDelRead(m, d);
            && o.Next? && o.m == m && DeleteOk(m, g, o.l)
            && (o.l.DelFlag? || (o.l == DelDone(0) && Contents(m, g.live) == map[]))
  {
    HeadNotDead(m, g);
    LevelZeroTarget(m, g, d.x);
    if d.x in g.pos { assert m.Next(g.dead[g.pos[d.x]], 0) == g.DeadLink(g.pos[d.x]); }
    if m.Next(d.x, 0).node == TAIL {
      assert |g.live| > 0 ==> g.Linked(g.live[0]) && NodeOk(m, g.live[0]);
      assert KeySet(m, g.live) == {};
    }
  }

  lemma FlagStep(m: Memory, g: History, d: Del, link: Link)
    requires MemOk(m, g)
    requires DeleteOk(m, g, DelFlag(d, link))
    ensures var o := DoDelFlag(m, d, link);
            o.Next? && o.m == m && DeleteOk(m, g, o.l) && (o.l.DelRead? || o.l.DelMark?)
  {
    HeadNotDead(m, g);
    if d.x in g.pos { assert g.Linked(d.x) && NodeOk(m, d.x); }
  }

  // The fetch-and-or found the pointer already marked and changed nothing.
  lemma MarkedAlready(m: Memory, g: History, t: nat, d: Del, maxOffset: int)
    requires MemOk(m, g)
    requires DeleteOk(m, g, DelMark(d))
    requires m.Next(d.x, 0).Marked()
    ensures var o := DoDelMark(m, d, maxOffset);
            o.Next? && o.m == m && o.l.DelRead? && DeleteOk(m, g, o.l)
  {
    HeadNotDead(m, g);
    if d.x in g.pos {
      assert g.Linked(d.x) && NodeOk(m, d.x);
      assert m.Next(g.dead[g.pos[d.x]], 0) == g.DeadLink(g.pos[d.x]);
    }
    assert m.Write(d.x, 0, m.Next(d.x, 0)) == m by {
      assert m.nodes[d.x].next[0 := m.Next(d.x, 0)] == m.nodes[d.x].next;
    }
  }

  // The traversal condition of the winner, once the history includes the node it deleted.
  lemma WonTraverse(m: Memory, g: History, m': Memory, g': History, d: Del, y: nat, d': Del)
    requires MemOk(m, g) && MemOk(m', g')
    requires forall n :: NodeKept(m, m', n)
    requires HistoryKept(g, g') && g'.claim == g.claim
    requires DeleteOk(m, g, DelMark(d))
    requires y in g'.pos && g'.pos[y] == |g.dead|
    requires d.x in g.pos ==> g.pos[d.x] + 1 == |g.dead|
    requires d.x !in g.pos ==> |g.dead| == 0
    requires d' == d.(x := y, newhead := if d.newhead == None then Some(y) else d.newhead)
    ensures WonOk(m', g', d')
  {
    HeadNotDead(m', g');
    match d.newhead
    case Some(n) => QuietStable(m, g, m', g', d.obs, g.pos[n]);
    case None => if d.x in g.pos { QuietStable(m, g, m', g', d.obs, g.pos[d.x] + 1); }
  }

  lemma MarkStep(m: Memory, g: History, t: nat, d: Del, maxOffset: int) returns (g': History)
    requires MemOk(m, g)
    requires DeleteOk(m, g, DelMark(d))
    requires !m.Next(d.x, 0).Marked()
    ensures var o := DoDelMark(m, d, maxOffset);
            && o.Next? && MemOk(o.m, g') && DeleteOk(o.m, g', o.l) && (o.l.DelDone? || o.l.DelHeadTest?)
            && g'.claim == g.claim
            && Guarantee(m, g, o.m, g', t, None)
            && Contents(m, g.live) != map[]
            && AtomicQueue.Perform(Contents(m, g.live), AtomicQueue.DeleteMin, Contents(o.m, g'.live), AtomicQueue.Val(o.l.v))
  {
    HeadNotDead(m, g);
    LevelZeroTarget(m, g, d.x);
    var o := DoDelMark(m, d, maxOffset);
    var y := m.Next(d.x, 0).node;
    var m' := m.Write(d.x, 0, Link(y, true));
    g' := MarkEffect(m, g, m', t, d.x, y);
    assert NodeKept(m, m', y);
    WonTraverse(m, g, m', g', d, y, d.(x := y, newhead := if d.newhead == None then Some(y) else d.newhead));
  }

  lemma HeadTestStep(m: Memory, g: History, d: Del, v: nat)
    requires MemOk(m, g)
    requires DeleteOk(m, g, DelHeadTest(d, v))
    ensures var o := DoDelHeadTest(m, d, v);
            o.Next? && o.m == m && DeleteOk(m, g, o.l) && (o.l == DelDone(v) || o.l == DelSwing(d, v))
  {
  }

  lemma SwingFailStep(m: Memory, g: History, d: Del, v: nat)
    requires MemOk(m, g)
    requires DeleteOk(m, g, DelSwing(d, v))
    requires m.Next(HEAD, 0) != d.obs
    ensures DoDelSwing(m, d, v) == Next(m, DelDone(v))
  {
  }

  lemma SwungOk(m: Memory, g: History, t: nat, d: Del, v: nat)
    requires SentinelsOk(m) && m.Next(HEAD, 0).Marked()
    requires d.obs.Link? && d.newhead.Some?
    requires d.obs.node in g.pos && d.newhead.value in g.pos
    requires g.pos[d.obs.node] <= g.pos[d.newhead.value] <= |g.claim|
    requires Owes(g, t, g.pos[d.obs.node], g.pos[d.newhead.value])
    ensures ThreadOk(m, g, t, ReHead(d, v, NUM_LEVELS - 1, HEAD))
  {
  }

  lemma SwingStep(m: Memory, g: History, t: nat, d: Del, v: nat) returns (g': History)
    requires MemOk(m, g)
    requires ThreadOk(m, g, t, DelSwing(d, v))
    requires m.Next(HEAD, 0) == d.obs
    ensures var o := DoDelSwing(m, d, v);
            && o.Next? && o.l == ReHead(d, v, NUM_LEVELS - 1, HEAD)
            && MemOk(o.m, g') && ThreadOk(o.m, g', t, o.l)
            && Guarantee(m, g, o.m, g', t, None) && SameContents(m, g, o.m, g')
  {
    var m' := m.Write(HEAD, 0, Link(d.newhead.value, true));
    g' := SwingEffect(m, g, m', t, d);
    assert m'.Next(HEAD, 0) == Link(d.newhead.value, true);
    SwungOk(m', g', t, d, v);
  }

  // ---------- restructure ----------

  // The reclamation debt does not change while restructure runs.
  lemma DebtCarried(g: History, t: nat, l: Local, l': Local)
    requires ClaimOk(g, t, l)
    requires ClaimStart(l) == ClaimStart(l') && ClaimStart(l).Some?
    ensures ClaimOk(g, t, l')
  {
  }

  lemma NextLevelStep(m: Memory, g: History, t: nat, l: Local, d: Del, v: nat, i: nat, pred: nat)
    requires MemOk(m, g)
    requires ClaimOk(g, t, l) && d.obs.Link? && ClaimStart(l) == Some((d.obs.node, d.newhead))
    requires PassedPred(m, g, pred, i)
    ensures ThreadOk(m, g, t, ReNextLevel(d, v, i, pred))
    ensures ReNextLevel(d, v, i, pred).ReHead? || ReNextLevel(d, v, i, pred).FreeRead?
    ensures ReNextLevel(d, v, i, pred).v == v
  {
    ReadTarget(m, g, pred, i);
    DebtCarried(g, t, l, ReNextLevel(d, v, i, pred));
  }

  // What the steps of restructure that only read must establish.
  ghost predicate RestructureNext(m: Memory, g: History, t: nat, l: Local, o: Outcome)
    requires Restructuring(l)
  {
    && o.Next? && o.m == m && ThreadOk(m, g, t, o.l)
    && (Restructuring(o.l) || o.l.FreeRead?) && o.l.v == l.v
  }

  lemma ReHeadStep(m: Memory, g: History, t: nat, d: Del, v: nat, i: nat, pred: nat)
    requires MemOk(m, g)
    requires ThreadOk(m, g, t, ReHead(d, v, i, pred))
    ensures RestructureNext(m, g, t, ReHead(d, v, i, pred), DoReHead(m, d, v, i, pred))
  {
    ReadTarget(m, g, HEAD, i);
    DebtCarried(g, t, ReHead(d, v, i, pred), RePred(d, v, i, pred, m.Next(HEAD, i).node));
  }

  lemma RePredStep(m: Memory, g: History, t: nat, d: Del, v: nat, i: nat, pred: nat, h: nat)
    requires MemOk(m, g)
    requires ThreadOk(m, g, t, RePred(d, v, i, pred, h))
    ensures RestructureNext(m, g, t, RePred(d, v, i, pred, h), DoRePred(m, d, v, i, pred, h))
  {
    ReadTarget(m, g, pred, i);
    DebtCarried(g, t, RePred(d, v, i, pred, h), ReTest(d, v, i, pred, h, m.Next(pred, i).node));
  }

  lemma ReTestStep(m: Memory, g: History, t: nat, d: Del, v: nat, i: nat, pred: nat, h: nat, cur: nat)
    requires MemOk(m, g)
    requires ThreadOk(m, g, t, ReTest(d, v, i, pred, h, cur))
    ensures RestructureNext(m, g, t, ReTest(d, v, i, pred, h, cur), DoReTest(m, d, v, i, pred, h, cur))
  {
    CanReadZero(m, g, h, i);
    if m.Next(h, 0).Marked() {
      DebtCarried(g, t, ReTest(d, v, i, pred, h, cur), ReSkip(d, v, i, pred, h, cur));
    } else {
      NextLevelStep(m, g, t, ReTest(d, v, i, pred, h, cur), d, v, i, pred);
    }
  }

  // Restructure moves on only to a node whose level-0 pointer is marked.
  lemma ReSkipStep(m: Memory, g: History, t: nat, d: Del, v: nat, i: nat, pred: nat, h: nat, cur: nat)
    requires MemOk(m, g)
    requires ThreadOk(m, g, t, ReSkip(d, v, i, pred, h, cur))
    ensures RestructureNext(m, g, t, ReSkip(d, v, i, pred, h, cur), DoReSkip(m, d, v, i, pred, h, cur))
  {
    CanReadZero(m, g, cur, i);
    DebtCarried(g, t, ReSkip(d, v, i, pred, h, cur), DoReSkip(m, d, v, i, pred, h, cur).l);
  }

  lemma ReNextStep(m: Memory, g: History, t: nat, d: Del, v: nat, i: nat, pred: nat, h: nat)
    requires MemOk(m, g)
    requires ThreadOk(m, g, t, ReNext(d, v, i, pred, h))
    ensures RestructureNext(m, g, t, ReNext(d, v, i, pred, h), DoReNext(m, d, v, i, pred, h))
  {
    ReadTarget(m, g, pred, i);
    DebtCarried(g, t, ReNext(d, v, i, pred, h), ReSkip(d, v, i, pred, h, m.Next(pred, i).node));
  }

  lemma ReCasStep(m: Memory, g: History, t: nat, d: Del, v: nat, i: nat, pred: nat, h: nat, cur: nat)
    requires MemOk(m, g)
    requires ThreadOk(m, g, t, ReCas(d, v, i, pred, h, cur))
    ensures var o := DoReCas(m, d, v, i, pred, h, cur);
            && o.Next? && MemOk(o.m, g) && ThreadOk(o.m, g, t, o.l) && (o.l.ReHead? || o.l.FreeRead?) && o.l.v == v
            && Guarantee(m, g, o.m, g, t, None) && SameContents(m, g, o.m, g)
  {
    var l := ReCas(d, v, i, pred, h, cur);
    var o := DoReCas(m, d, v, i, pred, h, cur);
    if pred != HEAD { assert NodeOk(m, pred); }
    if m.Next(HEAD, i) == Link(h, false) {
      UpperWrite(m, g, o.m, t, HEAD, i, cur);
      PassedPredStable(m, g, o.m, g, pred, i);
      NextLevelStep(o.m, g, t, l, d, v, i, pred);
    } else {
      DebtCarried(g, t, l, o.l);
      NothingHappened(m, g, t);
    }
  }

  // ---------- reclamation ----------

  lemma FreeReadStep(m: Memory, g: History, t: nat, d: Del, v: nat, cur: nat)
    requires MemOk(m, g)
    requires ThreadOk(m, g, t, FreeRead(d, v, cur))
    ensures var o := DoFreeRead(m, d, v, cur);
            && o.Next? && o.m == m && ThreadOk(m, g, t, o.l) && (o.l == DelDone(v) || (o.l.FreeNode? && o.l.v == v))
  {
    assert g.Linked(cur) && NodeOk(m, cur);
    assert m.Next(g.dead[g.pos[cur]], 0) == g.DeadLink(g.pos[cur]);
  }

  lemma DebtPaid(m: Memory, g: History, m': Memory, g': History, t: nat, d: Del, v: nat, cur: nat, nxt: nat)
    requires PositionsOk(g)
    requires ThreadOk(m, g, t, FreeNode(d, v, cur, nxt))
    requires g.pos[cur] < |g.claim| && g' == g.(claim := g.claim[g.pos[cur] := None])
    ensures ThreadOk(m', g', t, FreeRead(d, v, nxt))
  {
  }

  // free_node is called on a node the thread owes: deleted, cut off and never freed before.
  lemma FreeNodeStep(m: Memory, g: History, t: nat, d: Del, v: nat, cur: nat, nxt: nat) returns (g': History)
    requires MemOk(m, g)
    requires ThreadOk(m, g, t, FreeNode(d, v, cur, nxt))
    ensures var o := DoFreeNode(m, d, v, cur, nxt);
            && o.Next? && o.l == FreeRead(d, v, nxt) && MemOk(o.m, g') && ThreadOk(o.m, g', t, o.l)
            && Guarantee(m, g, o.m, g', t, None) && SameContents(m, g, o.m, g')
            && cur !in m.freed
  {
    var m' := m.(freed := m.freed + [cur]);
    g' := FreeClaimed(m, g, m', t, cur);
    DebtPaid(m, g, m', g', t, d, v, cur, nxt);
  }
}
