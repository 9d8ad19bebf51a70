// A deletemin that runs alone returns, within a number of steps that is a function of how many nodes
// there are: what it takes, where it leaves the head on every level, and what it frees.

module PrioqDeleteAlone {
  import opened PrioqParams
  import opened PrioqModel
  import opened PrioqInvariant
  import opened PrioqEffects
  import opened PrioqRuns
  import opened PrioqHeights
  import opened PrioqAlone
  import opened PrioqRestructure
  import A = AtomicQueue

  // ---------- the deleted nodes in front of the queue ----------

  // The deleted nodes that the head leads to, and the node to be deleted behind them.
  ghost function Line(g: History): seq<nat>
    requires |g.claim| <= |g.dead| && |g.live| > 0
  {
    g.dead[|g.claim|..] + [g.live[0]]
  }

  // deletemin's x after n turns of its loop.
  ghost function Visited(g: History, n: nat): nat {
    if n == 0 || |g.claim| + n - 1 >= |g.dead| then HEAD else g.dead[|g.claim| + n - 1]
  }

  ghost function Prefix(g: History): nat {
    if |g.claim| <= |g.dead| then |g.dead| - |g.claim| else 0
  }

  lemma VisitedNext(m: Memory, g: History, n: nat)
    requires MemOk(m, g) && n <= Prefix(g)
    ensures m.Next(Visited(g, n), 0) == if n < Prefix(g) then Link(Visited(g, n + 1), true) else Link(g.LiveAt(0), false)
    ensures n < Prefix(g) ==> Visited(g, n + 1) != TAIL
  {
    assert n > 0 ==> m.Next(g.dead[|g.claim| + n - 1], 0) == g.DeadLink(|g.claim| + n - 1);
    if n < Prefix(g) { assert NodeOk(m, g.dead[|g.claim| + n]); }
  }

  // The first node still being inserted among those visited before turn n.
  ghost predicate FirstInserting(m: Memory, g: History, n: nat, y: Option<nat>) {
    match y
    case None => forall j :: 0 <= j < n ==> !m.Inserting(Visited(g, j))
    case Some(z) => exists j :: 0 <= j < n && z == Visited(g, j) && m.Inserting(z) && forall i :: 0 <= i < j ==> !m.Inserting(Visited(g, i))
  }

  // ---------- the walk to the first node that is not deleted ----------

  ghost predicate Turn(m0: Memory, g: History, d: Del, n: nat) {
    n <= Prefix(g) && d.x == Visited(g, n) && d.obs == m0.Next(HEAD, 0)
  }

  ghost predicate WalkStage(m0: Memory, g: History, m: Memory, l: Local) {
    m == m0 && match l
    case DelObserve => true
    case DelRead(d) => exists n: nat :: Turn(m0, g, d, n) && d.offset == n && FirstInserting(m0, g, n, d.newhead)
    case DelFlag(d, link) =>
      exists n: nat :: Turn(m0, g, d, n) && d.offset == n + 1 && FirstInserting(m0, g, n, d.newhead)
        && link == m0.Next(d.x, 0) && link.Link? && link.node != TAIL
    case DelMark(d) =>
      && Turn(m0, g, d, Prefix(g)) && d.offset == Prefix(g) + 1 && FirstInserting(m0, g, Prefix(g) + 1, d.newhead)
      && |g.live| > 0
    case _ => false
  }

  lemma MoreInserting(m: Memory, g: History, n: nat, y: Option<nat>)
    requires FirstInserting(m, g, n, y)
    ensures FirstInserting(m, g, n + 1, if y == None && m.Inserting(Visited(g, n)) then Some(Visited(g, n)) else y)
  {
  }

  lemma ReadTurn(m0: Memory, g: History, l: Local)
    requires MemOk(m0, g) && WalkStage(m0, g, m0, l) && l.DelRead? && DoDelRead(m0, l.d).Next?
    ensures var l' := DoDelRead(m0, l.d).l;
      if l'.DelFlag? then WalkStage(m0, g, m0, l') else l' == DelDone(0) && g.live == []
  {
    hide MemOk, FirstInserting;
    var n: nat :| Turn(m0, g, l.d, n) && l.d.offset == n && FirstInserting(m0, g, n, l.d.newhead);
    VisitedNext(m0, g, n);
    LiveNotTail(m0, g);
    var l' := DoDelRead(m0, l.d).l;
    if l'.DelFlag? { assert Turn(m0, g, l'.d, n); }
  }

  lemma LiveNotTail(m: Memory, g: History)
    requires MemOk(m, g)
    ensures g.LiveAt(0) == TAIL <==> g.live == []
  {
    if |g.live| > 0 { assert NodeOk(m, g.live[0]); }
  }

  lemma FlagTurn(m0: Memory, g: History, l: Local)
    requires MemOk(m0, g) && WalkStage(m0, g, m0, l) && l.DelFlag? && DoDelFlag(m0, l.d, l.link).Next?
    ensures WalkStage(m0, g, m0, DoDelFlag(m0, l.d, l.link).l)
  {
    hide MemOk, FirstInserting;
    var n: nat :| Turn(m0, g, l.d, n) && l.d.offset == n + 1 && FirstInserting(m0, g, n, l.d.newhead)
      && l.link == m0.Next(l.d.x, 0) && l.link.Link? && l.link.node != TAIL;
    VisitedNext(m0, g, n);
    LiveNotTail(m0, g);
    MoreInserting(m0, g, n, l.d.newhead);
    var l' := DoDelFlag(m0, l.d, l.link).l;
    if l'.DelRead? { assert Turn(m0, g, l'.d, n + 1); }
  }

  // ---------- after the fetch-and-or ----------

  // The memory with the pointer to the first node that was not deleted marked.
  ghost function Taken(m: Memory, g: History): Memory {
    var x := Visited(g, Prefix(g));
    if |g.live| > 0 && m.CanRead(x, 0) then m.Write(x, 0, Link(g.live[0], true)) else m
  }

  // The head may go to node q of the line: the first that is still being inserted, or the last.
  ghost predicate NewHead(m: Memory, g: History, q: nat) {
    && |g.claim| <= |g.dead| && |g.live| > 0 && q < |Line(g)|
    && (forall j :: 0 <= j < q ==> !m.Inserting(Line(g)[j]))
    && (q < |Line(g)| - 1 ==> m.Inserting(Line(g)[q]))
  }

  ghost predicate Cuts(m0: Memory, g: History, d: Del, q: nat) {
    NewHead(m0, g, q) && d.obs == m0.Next(HEAD, 0) && d.newhead == Some(Line(g)[q])
  }

  ghost function Swung(m0: Memory, g: History, q: nat): Memory {
    var m := Taken(m0, g);
    if NewHead(m0, g, q) && m.CanRead(HEAD, 0) then m.Write(HEAD, 0, Link(Line(g)[q], true)) else m
  }

  // The first j nodes of the line have been freed, and the head's upper pointers rebuilt.
  ghost predicate Freed(m0: Memory, g: History, q: nat, m: Memory, j: nat) {
    && NewHead(m0, g, q) && j <= q
    && m.freed == m0.freed + Line(g)[..j] && Rebuilt(Swung(m0, g, q), m.(freed := m0.freed), 0)
  }

  // What the call leaves behind.
  ghost predicate Gone(m0: Memory, g: History, mo: int, m: Memory) {
    if Prefix(g) == 0 || Prefix(g) + 1 <= mo then m == Taken(m0, g)
    else exists q :: Freed(m0, g, q, m, q)
  }

  ghost predicate EndStage(m0: Memory, g: History, mo: int, m: Memory, l: Local) {
    |g.live| > 0 && match l
    case DelHeadTest(d, v) => m == Taken(m0, g) && Prefix(g) + 1 > mo && v == m0.Val(g.live[0]) && exists q :: Cuts(m0, g, d, q)
    case DelSwing(d, v) => m == Taken(m0, g) && Prefix(g) + 1 > mo && Prefix(g) > 0 && v == m0.Val(g.live[0]) && exists q :: Cuts(m0, g, d, q)
    case FreeRead(d, v, cur) =>
      Prefix(g) + 1 > mo && Prefix(g) > 0 && v == m0.Val(g.live[0])
      && exists q, j: nat :: Cuts(m0, g, d, q) && Freed(m0, g, q, m, j) && cur == Line(g)[j]
    case FreeNode(d, v, cur, nxt) =>
      Prefix(g) + 1 > mo && Prefix(g) > 0 && v == m0.Val(g.live[0])
      && exists q, j: nat :: Cuts(m0, g, d, q) && Freed(m0, g, q, m, j) && j < q && cur == Line(g)[j] && nxt == Line(g)[j + 1]
    case DelDone(v) => v == m0.Val(g.live[0]) && Gone(m0, g, mo, m)
    case _ =>
      Restructuring(l) && Prefix(g) + 1 > mo && Prefix(g) > 0 && l.v == m0.Val(g.live[0])
      && exists q :: Cuts(m0, g, l.d, q) && Restructures(Swung(m0, g, q), m, l)
  }

  lemma LineIs(m: Memory, g: History, j: nat)
    requires MemOk(m, g) && |g.live| > 0 && j < |Line(g)|
    ensures |Line(g)| == Prefix(g) + 1
    ensures j < Prefix(g) ==> Line(g)[j] == Visited(g, j + 1)
    ensures j == Prefix(g) ==> Line(g)[j] == g.live[0]
    ensures Line(g)[j] != HEAD && Line(g)[j] in m.nodes
    ensures forall i :: 0 <= i < |Line(g)| && Line(g)[i] == Line(g)[j] ==> i == j
  {
    assert g.Linked(Line(g)[j]) && NodeOk(m, Line(g)[j]);
  }

  lemma LastVisited(m: Memory, g: History)
    requires MemOk(m, g) && |g.live| > 0
    ensures m.CanRead(Visited(g, Prefix(g)), 0) && m.Next(Visited(g, Prefix(g)), 0) == Link(g.live[0], false)
    ensures Taken(m, g) == m.Write(Visited(g, Prefix(g)), 0, Link(g.live[0], true))
  {
    VisitedNext(m, g, Prefix(g));
  }

  // Where the loop ends, newhead is as NewHead says.
  lemma HeadChosen(m: Memory, g: History, y: Option<nat>) returns (q: nat)
    requires MemOk(m, g) && |g.live| > 0 && FirstInserting(m, g, Prefix(g) + 1, y)
    ensures NewHead(m, g, q) && Line(g)[q] == if y.Some? then y.value else g.live[0]
  {
    LineIs(m, g, Prefix(g));
    forall j | 0 <= j < Prefix(g) ensures Line(g)[j] == Visited(g, j + 1) { LineIs(m, g, j); }
    match y
    case None =>
      q := Prefix(g);
    case Some(z) =>
      var j: nat :| j < Prefix(g) + 1 && z == Visited(g, j) && m.Inserting(z) && forall i :: 0 <= i < j ==> !m.Inserting(Visited(g, i));
      q := j - 1;
      forall i | 0 <= i < q ensures !m.Inserting(Line(g)[i]) { assert !m.Inserting(Visited(g, i + 1)); }
  }

  lemma MarkTurn(m0: Memory, g: History, mo: int, l: Local)
    requires MemOk(m0, g) && WalkStage(m0, g, m0, l) && l.DelMark?
    ensures var o := DoDelMark(m0, l.d, mo); o.Next? && EndStage(m0, g, mo, o.m, o.l)
  {
    LastVisited(m0, g);
    var q := HeadChosen(m0, g, l.d.newhead);
    LineIs(m0, g, Prefix(g));
    hide MemOk, FirstInserting, NewHead;
    var o := DoDelMark(m0, l.d, mo);
    if o.l.DelHeadTest? { assert Cuts(m0, g, o.l.d, q); }
  }

  // The mark has moved the head's pointer exactly if nothing was deleted before.
  lemma HeadAfterMark(m: Memory, g: History)
    requires MemOk(m, g) && |g.live| > 0
    ensures Taken(m, g).Next(HEAD, 0) == m.Next(HEAD, 0) <==> Prefix(g) > 0
    ensures Taken(m, g).CanRead(HEAD, 0)
  {
    LastVisited(m, g);
    VisitedNext(m, g, 0);
    if Prefix(g) > 0 { LineIs(m, g, Prefix(g) - 1); }
  }

  lemma HeadTestTurn(m0: Memory, g: History, mo: int, m: Memory, l: Local)
    requires MemOk(m0, g) && EndStage(m0, g, mo, m, l) && l.DelHeadTest?
    requires DoDelHeadTest(m, l.d, l.v).Next?
    ensures var o := DoDelHeadTest(m, l.d, l.v); o.m == m && EndStage(m0, g, mo, o.m, o.l)
  {
    HeadAfterMark(m0, g);
    hide MemOk, Taken, NewHead;
    var q :| Cuts(m0, g, l.d, q);
    var o := DoDelHeadTest(m, l.d, l.v);
    if o.l.DelSwing? { assert Cuts(m0, g, o.l.d, q); }
  }

  lemma SwingTurn(m0: Memory, g: History, mo: int, m: Memory, l: Local)
    requires MemOk(m0, g) && EndStage(m0, g, mo, m, l) && l.DelSwing?
    requires DoDelSwing(m, l.d, l.v).Next?
    ensures var o := DoDelSwing(m, l.d, l.v); EndStage(m0, g, mo, o.m, o.l) && o.l.ReHead? && o.l.pred == HEAD && o.l.i == NUM_LEVELS - 1
  {
    HeadAfterMark(m0, g);
    hide MemOk, Taken, NewHead;
    var q :| Cuts(m0, g, l.d, q);
    var o := DoDelSwing(m, l.d, l.v);
    assert o.m == Swung(m0, g, q) && HEAD in o.m.nodes;
    StartsRebuilt(o.m);
    assert Cuts(m0, g, o.l.d, q) && Restructures(Swung(m0, g, q), o.m, o.l);
  }

  lemma StartsRebuilt(m: Memory)
    requires HEAD in m.nodes
    ensures Rebuilt(m, m, NUM_LEVELS - 1)
  {
    assert m.nodes[HEAD := m.nodes[HEAD]] == m.nodes;
  }

  lemma RestructuresOn(m0: Memory, g: History, mo: int, m: Memory, l: Local, ch: Choice)
    requires MemOk(m0, g) && EndStage(m0, g, mo, m, l) && Restructuring(l) && Exec(m, l, mo, ch).Next?
    ensures var o := Exec(m, l, mo, ch); EndStage(m0, g, mo, o.m, o.l)
  {
    var q :| Cuts(m0, g, l.d, q) && Restructures(Swung(m0, g, q), m, l);
    hide Cuts, Restructures, Swung, Exec, EndStage, MemOk, Gone;
    InRestructure(m0, g, mo, m, l);
    var o := Exec(m, l, mo, ch);
    RestructuresWhat(Swung(m0, g, q), m, l, mo, ch);
    RestructureTurn(Swung(m0, g, q), m, l, mo, ch);
    StageAgain(m0, g, mo, o.m, o.l, q);
  }

  lemma InRestructure(m0: Memory, g: History, mo: int, m: Memory, l: Local)
    requires EndStage(m0, g, mo, m, l) && Restructuring(l)
    ensures |g.live| > 0 && Prefix(g) + 1 > mo && Prefix(g) > 0 && l.v == m0.Val(g.live[0])
  {
    hide Restructures;
  }

  lemma StageAgain(m0: Memory, g: History, mo: int, m: Memory, l: Local, q: nat)
    requires MemOk(m0, g) && |g.live| > 0 && Prefix(g) + 1 > mo && Prefix(g) > 0
    requires Restructuring(l) || l.FreeRead?
    requires l.v == m0.Val(g.live[0]) && Cuts(m0, g, l.d, q) && Restructures(Swung(m0, g, q), m, l)
    ensures EndStage(m0, g, mo, m, l)
  {
    hide NewHead, Restructures, Swung;
    if l.FreeRead? {
      VisitedNext(m0, g, 0);
      LineIs(m0, g, 0);
      hide MemOk;
      RebuiltWhole(m0, g, q, m, l);
      assert Freed(m0, g, q, m, 0) && l.cur == Line(g)[0];
    }
  }

  // The locals that restructure leaves alone.
  lemma RestructuresWhat(ms: Memory, m: Memory, l: Local, mo: int, ch: Choice)
    requires Restructures(ms, m, l) && Restructuring(l) && Exec(m, l, mo, ch).Next?
    ensures var l' := Exec(m, l, mo, ch).l; (Restructuring(l') || l'.FreeRead?) && l'.d == l.d && l'.v == l.v
  {
    hide Rebuilt, StartsAt, Walking;
  }

  lemma RebuiltWhole(m0: Memory, g: History, q: nat, m: Memory, l: Local)
    requires Restructures(Swung(m0, g, q), m, l) && l.FreeRead? && NewHead(m0, g, q)
    ensures Freed(m0, g, q, m, 0) && l.d.obs.Link? && l.cur == l.d.obs.node
  {
    hide NewHead;
    SwungFreed(m0, g, q);
    assert m.(freed := m0.freed) == m;
    NoneFreed(m0, g, q, m);
  }

  lemma NoneFreed(m0: Memory, g: History, q: nat, m: Memory)
    requires NewHead(m0, g, q) && m.freed == m0.freed && Rebuilt(Swung(m0, g, q), m, 0)
    ensures Freed(m0, g, q, m, 0)
  {
    hide Rebuilt;
    assert m.(freed := m0.freed) == m;
    assert m0.freed + Line(g)[..0] == m0.freed;
  }

  lemma SwungFreed(m0: Memory, g: History, q: nat)
    ensures Swung(m0, g, q).freed == m0.freed
  {
  }

  // ---------- the nodes cut off ----------

  lemma LineNext(m0: Memory, g: History, q: nat, m: Memory, j: nat)
    requires MemOk(m0, g) && Freed(m0, g, q, m, j) && j < q && Prefix(g) > 0
    ensures m.CanRead(Line(g)[j], 0) && m.Next(Line(g)[j], 0) == Link(Line(g)[j + 1], true)
  {
    LastVisited(m0, g);
    LineIs(m0, g, j);
    LineIs(m0, g, j + 1);
    VisitedNext(m0, g, j + 1);
    hide MemOk;
  }

  lemma FreeReadTurn(m0: Memory, g: History, mo: int, m: Memory, l: Local)
    requires MemOk(m0, g) && EndStage(m0, g, mo, m, l) && l.FreeRead? && DoFreeRead(m, l.d, l.v, l.cur).Next?
    ensures var o := DoFreeRead(m, l.d, l.v, l.cur); o.m == m && EndStage(m0, g, mo, o.m, o.l) && (o.l.DelDone? || o.l.FreeNode?)
    ensures var o := DoFreeRead(m, l.d, l.v, l.cur); o.l.FreeNode? ==> m.Next(l.cur, 0) == Link(o.l.nxt, true)
  {
    var q, j: nat :| Cuts(m0, g, l.d, q) && Freed(m0, g, q, m, j) && l.cur == Line(g)[j];
    hide MemOk, EndStage;
    CutsOnce(m0, g, l, q, m, j);
    if j < q {
      LineNext(m0, g, q, m, j);
      FreesNext(m0, g, mo, m, l, q, j);
    } else {
      FreesNoMore(m0, g, mo, m, l, q);
    }
  }

  lemma CutsOnce(m0: Memory, g: History, l: Local, q: nat, m: Memory, j: nat)
    requires MemOk(m0, g) && l.FreeRead? && Cuts(m0, g, l.d, q) && Freed(m0, g, q, m, j) && l.cur == Line(g)[j]
    ensures l.d.newhead == Some(l.cur) <==> j == q
  {
    LineIs(m0, g, j);
  }

  lemma FreesNext(m0: Memory, g: History, mo: int, m: Memory, l: Local, q: nat, j: nat)
    requires EndStage(m0, g, mo, m, l) && l.FreeRead?
    requires Cuts(m0, g, l.d, q) && Freed(m0, g, q, m, j) && j < q && l.cur == Line(g)[j] && l.d.newhead != Some(l.cur)
    requires m.CanRead(l.cur, 0) && m.Next(l.cur, 0) == Link(Line(g)[j + 1], true)
    ensures var o := DoFreeRead(m, l.d, l.v, l.cur);
      o.Next? && o.m == m && EndStage(m0, g, mo, o.m, o.l) && o.l.FreeNode? && m.Next(l.cur, 0) == Link(o.l.nxt, true)
  {
    hide Rebuilt, NewHead, Swung;
  }

  lemma FreesNoMore(m0: Memory, g: History, mo: int, m: Memory, l: Local, q: nat)
    requires EndStage(m0, g, mo, m, l) && l.FreeRead?
    requires Cuts(m0, g, l.d, q) && Freed(m0, g, q, m, q) && l.d.newhead == Some(l.cur)
    ensures var o := DoFreeRead(m, l.d, l.v, l.cur); o.Next? && o.m == m && EndStage(m0, g, mo, o.m, o.l) && o.l.DelDone?
  {
    hide Rebuilt, NewHead, Swung;
  }

  lemma FreeNodeTurn(m0: Memory, g: History, mo: int, m: Memory, l: Local)
    requires EndStage(m0, g, mo, m, l) && l.FreeNode?
    ensures var o := DoFreeNode(m, l.d, l.v, l.cur, l.nxt); o.Next? && EndStage(m0, g, mo, o.m, o.l) && o.l == FreeRead(l.d, l.v, l.nxt)
  {
    var q, j: nat :| Cuts(m0, g, l.d, q) && Freed(m0, g, q, m, j) && j < q && l.cur == Line(g)[j] && l.nxt == Line(g)[j + 1];
    hide Rebuilt, Swung;
    var o := DoFreeNode(m, l.d, l.v, l.cur, l.nxt);
    assert Line(g)[..j] + [Line(g)[j]] == Line(g)[..j + 1];
    assert m0.freed + Line(g)[..j] + [Line(g)[j]] == m0.freed + Line(g)[..j + 1];
    assert o.m.(freed := m0.freed) == m.(freed := m0.freed);
    assert Cuts(m0, g, l.d, q) && Freed(m0, g, q, o.m, j + 1);
  }

  // ---------- how many steps are left ----------

  // Enough for restructure on the levels below i, and for the freeing after it.
  ghost function Below(h: Ranks, i: nat): int {
    if i <= |h| then 2 * Weight(h, i) + 6 * i - 4 else 0
  }

  ghost function Ahead(h: Ranks, i: nat, n: nat): nat {
    if i < |h| then |Beyond(h, i, n)| else 0
  }

  ghost function Need(h: Ranks, l: Local): int {
    match l
    case DelObserve => Below(h, NUM_LEVELS) + 3 * Ahead(h, 0, HEAD) + 5
    case DelRead(d) => Below(h, NUM_LEVELS) + 3 * Ahead(h, 0, d.x) + 4
    case DelFlag(d, _) => Below(h, NUM_LEVELS) + 3 * Ahead(h, 0, d.x) + 3
    case DelMark(d) => Below(h, NUM_LEVELS) + 3 * Ahead(h, 0, d.x) + 2
    case DelHeadTest(_, _) => Below(h, NUM_LEVELS) + 1
    case DelSwing(_, _) => Below(h, NUM_LEVELS)
    case ReHead(_, _, i, pred) => Below(h, i) + 2 * Ahead(h, i, pred) + 5
    case RePred(_, _, i, pred, _) => Below(h, i) + 2 * Ahead(h, i, pred) + 4
    case ReTest(_, _, i, pred, _, _) => Below(h, i) + 2 * Ahead(h, i, pred) + 3
    case ReNext(_, _, i, pred, _) => Below(h, i) + 2 * Ahead(h, i, pred) + 3
    case ReSkip(_, _, i, pred, _, _) => Below(h, i) + 2 * Ahead(h, i, pred) + 2
    case ReCas(_, _, i, pred, _, _) => Below(h, i) + 1
    case FreeRead(_, _, cur) => 2 * Ahead(h, 0, cur) + 2
    case FreeNode(_, _, cur, _) => 2 * Ahead(h, 0, cur) + 1
    case _ => 0
  }

  lemma AheadLess(h: Ranks, i: nat, x: nat, y: nat)
    requires On(h, i, x) && On(h, i, y) && Rank(h, i, x) < Rank(h, i, y)
    ensures Ahead(h, i, y) < Ahead(h, i, x)
  {
    BeyondLess(h, i, x, y);
  }

  // A level takes no more than Below allows for it.
  lemma LevelNeed(h: Ranks, i: nat, pred: nat)
    requires On(h, i, pred)
    ensures Below(h, i) + 2 * Ahead(h, i, pred) + 5 < Below(h, i + 1)
  {
    BeyondOnLevel(h, i, pred);
    WeightStep(h, i + 1);
  }

  lemma FreeNeed(h: Ranks, cur: nat)
    requires On(h, 0, cur)
    ensures 2 * Ahead(h, 0, cur) + 2 <= Below(h, 1)
  {
    BeyondOnLevel(h, 0, cur);
    WeightStep(h, 1);
    assert Weight(h, 0) == 0;
  }

  lemma WeightStep(h: Ranks, i: nat)
    requires 0 < i <= |h|
    ensures Weight(h, i) == Weight(h, i - 1) + |h[i - 1]|
  {
  }

  lemma RestructureNearer(m: Memory, g: History, h: Ranks, t: nat, l: Local, mo: int, ch: Choice)
    requires Good(m, g, h, t, l) && Restructuring(l) && Exec(m, l, mo, ch).Next?
    requires l.ReSkip? ==> m.Next(l.pred, l.i) == Link(l.cur, false)
    requires l.ReCas? ==> m.Next(HEAD, l.i) == Link(l.h, false)
    ensures Need(h, Exec(m, l, mo, ch).l) < Need(h, l)
  {
    PredOn(m, g, h, t, l);
    hide Good, Need, Rank, On, Exec;
    GoesTo(m, l, mo, ch);
    if l.ReTest? || l.ReCas? {
      if l.i > 1 { LevelNeed(h, l.i - 1, l.pred); } else { FreeNeed(h, l.d.obs.node); }
    }
    if l.ReSkip? { AheadLess(h, l.i, l.pred, l.cur); }
    hide Below, Ahead;
    Nearer(h, l, Exec(m, l, mo, ch).l);
  }

  // Where a step of restructure leads.
  predicate Follows(l: Local, l': Local) {
    match l
    case ReHead(_, _, i, pred) => l'.RePred? && l'.i == i && l'.pred == pred
    case RePred(_, _, i, pred, _) => l'.ReTest? && l'.i == i && l'.pred == pred
    case ReTest(d, v, i, pred, _, _) => (l'.ReSkip? && l'.i == i && l'.pred == pred) || (i > 0 && d.obs.Link? && l' == ReNextLevel(d, v, i, pred))
    case ReSkip(_, _, i, pred, _, cur) => (l'.ReNext? && l'.i == i && l'.pred == cur) || (l'.ReCas? && l'.i == i && l'.pred == pred)
    case ReNext(_, _, i, pred, _) => l'.ReSkip? && l'.i == i && l'.pred == pred
    case ReCas(d, v, i, pred, _, _) => i > 0 && d.obs.Link? && l' == ReNextLevel(d, v, i, pred)
    case _ => false
  }

  lemma GoesTo(m: Memory, l: Local, mo: int, ch: Choice)
    requires Restructuring(l) && Exec(m, l, mo, ch).Next?
    requires l.ReCas? ==> m.Next(HEAD, l.i) == Link(l.h, false)
    ensures Follows(l, Exec(m, l, mo, ch).l)
  {
  }

  lemma Nearer(h: Ranks, l: Local, l': Local)
    requires Restructuring(l) && Follows(l, l')
    requires (l.ReTest? || l.ReCas?) && l.i > 1 ==> Below(h, l.i - 1) + 2 * Ahead(h, l.i - 1, l.pred) + 5 < Below(h, l.i)
    requires (l.ReTest? || l.ReCas?) && l.i == 1 && l.d.obs.Link? ==> 2 * Ahead(h, 0, l.d.obs.node) + 2 <= Below(h, 1)
    requires l.ReSkip? ==> Ahead(h, l.i, l.cur) < Ahead(h, l.i, l.pred)
    ensures Need(h, l') < Need(h, l)
  {
    hide Below, Ahead;
  }

  lemma PredOn(m: Memory, g: History, h: Ranks, t: nat, l: Local)
    requires Good(m, g, h, t, l) && Restructuring(l)
    requires l.ReSkip? ==> m.Next(l.pred, l.i) == Link(l.cur, false)
    ensures 0 < l.i < |h| && On(h, l.i, l.pred) && On(h, l.i - 1, l.pred)
    ensures l.d.obs.Link? ==> On(h, 0, l.d.obs.node)
    ensures l.ReSkip? ==> On(h, l.i, l.cur) && Rank(h, l.i, l.pred) < Rank(h, l.i, l.cur)
  {
    NextBelow(m, h, l.i, l.pred);
    if l.ReSkip? { RisesFrom(m, g, h, l.i, l.pred); }
  }

  // ---------- the whole call ----------

  ghost predicate Stage(m0: Memory, g: History, mo: int, m: Memory, l: Local) {
    WalkStage(m0, g, m, l) || EndStage(m0, g, mo, m, l) || (l == DelDone(0) && g.live == [] && m == m0)
  }

  lemma WalkNearer(m: Memory, g: History, h: Ranks, t: nat, l: Local, mo: int, ch: Choice)
    requires Good(m, g, h, t, l) && Exec(m, l, mo, ch).Next?
    requires l.DelObserve? || l.DelRead? || l.DelFlag?
    requires l.DelFlag? ==> m.Next(l.d.x, 0) == l.link
    ensures Need(h, Exec(m, l, mo, ch).l) < Need(h, l)
  {
    XOn(m, g, h, t, l);
    hide Good, Weight, Beyond, Rank, On, Ahead;
    if l.DelFlag? { AheadLess(h, 0, l.d.x, l.link.node); }
  }

  lemma XOn(m: Memory, g: History, h: Ranks, t: nat, l: Local)
    requires Good(m, g, h, t, l) && (l.DelObserve? || l.DelRead? || l.DelFlag?)
    requires l.DelFlag? ==> m.Next(l.d.x, 0) == l.link
    ensures |h| == NUM_LEVELS
    ensures l.DelFlag? ==> l.link.Link? && On(h, 0, l.d.x) && On(h, 0, l.link.node) && Rank(h, 0, l.d.x) < Rank(h, 0, l.link.node)
  {
    if l.DelFlag? { RisesFrom(m, g, h, 0, l.d.x); }
  }

  lemma WalkTurn(m0: Memory, g0: History, m: Memory, g: History, h: Ranks, t: nat, l: Local, mo: int, ch: Choice)
    requires MemOk(m0, g0) && Good(m, g, h, t, l) && WalkStage(m0, g0, m, l) && Exec(m, l, mo, ch).Next?
    ensures var o := Exec(m, l, mo, ch); Stage(m0, g0, mo, o.m, o.l) && Need(h, o.l) < Need(h, l)
  {
    FlagLink(m0, g0, m, l);
    hide Good, MemOk, Need, EndStage, FirstInserting;
    if l.DelMark? {
      MarkTurn(m0, g0, mo, l);
      MarkNearer(m0, g0, h, l, mo, ch);
    } else {
      WalkNearer(m, g, h, t, l, mo, ch);
      if l.DelRead? { ReadTurn(m0, g0, l); }
      else if l.DelFlag? { FlagTurn(m0, g0, l); }
      else { ObserveTurn(m0, g0, l); }
    }
  }

  lemma FlagLink(m0: Memory, g0: History, m: Memory, l: Local)
    requires WalkStage(m0, g0, m, l)
    ensures l.DelFlag? ==> m.Next(l.d.x, 0) == l.link
    ensures m == m0 && (l.DelObserve? || l.DelRead? || l.DelFlag? || l.DelMark?)
  {
  }

  lemma ObserveTurn(m0: Memory, g: History, l: Local)
    requires l.DelObserve? && DoDelObserve(m0).Next?
    ensures WalkStage(m0, g, m0, DoDelObserve(m0).l)
  {
    assert Turn(m0, g, DoDelObserve(m0).l.d, 0);
  }

  lemma MarkNearer(m0: Memory, g: History, h: Ranks, l: Local, mo: int, ch: Choice)
    requires WalkStage(m0, g, m0, l) && l.DelMark? && MemOk(m0, g) && Exec(m0, l, mo, ch).Next? && |h| == NUM_LEVELS
    ensures Need(h, Exec(m0, l, mo, ch).l) < Need(h, l)
  {
    LastVisited(m0, g);
    hide MemOk, FirstInserting, Weight, Ahead;
  }

  lemma EndWhere(m0: Memory, g: History, mo: int, m: Memory, l: Local)
    requires EndStage(m0, g, mo, m, l)
    ensures l.DelHeadTest? || l.DelSwing? || Restructuring(l) || l.FreeRead? || l.FreeNode? || l.DelDone?
  {
    hide Gone, Cuts, Freed, Restructures;
  }

  lemma RestructureLinks(m0: Memory, g: History, mo: int, m: Memory, l: Local)
    requires EndStage(m0, g, mo, m, l) && Restructuring(l)
    ensures l.ReSkip? ==> m.Next(l.pred, l.i) == Link(l.cur, false)
    ensures l.ReCas? ==> m.Next(HEAD, l.i) == Link(l.h, false)
  {
    hide Cuts, Rebuilt, Walking, StartsAt, Swung;
    var q :| Cuts(m0, g, l.d, q) && Restructures(Swung(m0, g, q), m, l);
  }

  lemma SwingNearer(m: Memory, g: History, h: Ranks, t: nat, l: Local, l': Local)
    requires Good(m, g, h, t, l) && (l.DelHeadTest? || l.DelSwing?)
    requires l.DelHeadTest? ==> l'.DelDone? || l'.DelSwing?
    requires l.DelSwing? ==> l'.ReHead? && l'.pred == HEAD && l'.i == NUM_LEVELS - 1
    ensures Need(h, l') < Need(h, l)
  {
    HeadOn(m, h, NUM_LEVELS - 1);
    RanksAre(m, h);
    hide Good, Weight, Ahead, Rank;
    assert Weight(h, NUM_LEVELS) >= 0;
    LevelNeed(h, NUM_LEVELS - 1, HEAD);
  }

  lemma FreeNearer(m: Memory, g: History, h: Ranks, t: nat, l: Local, l': Local)
    requires Good(m, g, h, t, l) && (l.FreeRead? || l.FreeNode?)
    requires l.FreeRead? ==> l'.DelDone? || (l'.FreeNode? && l'.cur == l.cur)
    requires l.FreeNode? ==> l' == FreeRead(l.d, l.v, l.nxt) && m.Next(l.cur, 0) == Link(l.nxt, true)
    ensures Need(h, l') < Need(h, l)
  {
    if l.FreeNode? { RisesFrom(m, g, h, 0, l.cur); AheadLess(h, 0, l.cur, l.nxt); }
    hide Good, Ahead;
  }

  // The node after the one being freed.
  lemma FreeNodeNext(m0: Memory, g: History, mo: int, m: Memory, l: Local)
    requires MemOk(m0, g) && EndStage(m0, g, mo, m, l) && l.FreeNode?
    ensures m.Next(l.cur, 0) == Link(l.nxt, true)
  {
    var q, j: nat :| Cuts(m0, g, l.d, q) && Freed(m0, g, q, m, j) && j < q && l.cur == Line(g)[j] && l.nxt == Line(g)[j + 1];
    LineNext(m0, g, q, m, j);
  }

  lemma EndTurn(m0: Memory, g0: History, m: Memory, g: History, h: Ranks, t: nat, l: Local, mo: int, ch: Choice)
    requires MemOk(m0, g0) && Good(m, g, h, t, l) && EndStage(m0, g0, mo, m, l) && !l.DelDone? && Exec(m, l, mo, ch).Next?
    ensures var o := Exec(m, l, mo, ch); EndStage(m0, g0, mo, o.m, o.l) && Need(h, o.l) < Need(h, l)
  {
    hide Good, MemOk, Need, EndStage, Cuts, Freed, Gone;
    EndWhere(m0, g0, mo, m, l);
    if Restructuring(l) {
      RestructureLinks(m0, g0, mo, m, l);
      RestructuresOn(m0, g0, mo, m, l, ch);
      RestructureNearer(m, g, h, t, l, mo, ch);
    } else if l.DelHeadTest? {
      HeadTestTurn(m0, g0, mo, m, l);
      SwingNearer(m, g, h, t, l, Exec(m, l, mo, ch).l);
    } else if l.DelSwing? {
      SwingTurn(m0, g0, mo, m, l);
      SwingNearer(m, g, h, t, l, Exec(m, l, mo, ch).l);
    } else if l.FreeRead? {
      FreeReadTurn(m0, g0, mo, m, l);
      FreeNearer(m, g, h, t, l, Exec(m, l, mo, ch).l);
    } else {
      FreeNodeNext(m0, g0, mo, m, l);
      FreeNodeTurn(m0, g0, mo, m, l);
      FreeNearer(m, g, h, t, l, Exec(m, l, mo, ch).l);
    }
  }

  lemma DeleteTurn(m0: Memory, g0: History, m: Memory, g: History, h: Ranks, t: nat, l: Local, mo: int, ch: Choice)
    requires MemOk(m0, g0) && Good(m, g, h, t, l) && Stage(m0, g0, mo, m, l) && !l.DelDone? && Exec(m, l, mo, ch).Next?
    ensures var o := Exec(m, l, mo, ch); Stage(m0, g0, mo, o.m, o.l) && Need(h, o.l) < Need(h, l)
    ensures !l.LinkCas? && !l.UpCas?
  {
    hide Good, MemOk, Need, EndStage, WalkStage, Exec;
    StageLocals(m0, g0, mo, m, l);
    if WalkStage(m0, g0, m, l) {
      WalkTurn(m0, g0, m, g, h, t, l, mo, ch);
    } else {
      EndTurn(m0, g0, m, g, h, t, l, mo, ch);
    }
  }

  lemma StageLocals(m0: Memory, g: History, mo: int, m: Memory, l: Local)
    requires Stage(m0, g, mo, m, l)
    ensures l != Outside && !l.InsDone? && !l.LinkCas? && !l.UpCas? && !Doomed(l)
  {
    hide EndStage, WalkStage;
    if EndStage(m0, g, mo, m, l) { EndWhere(m0, g, mo, m, l); }
    if WalkStage(m0, g, m, l) { FlagLink(m0, g, m, l); }
  }

  lemma ReLevel(m: Memory, g: History, h: Ranks, t: nat, l: Local)
    requires Good(m, g, h, t, l) && Restructuring(l)
    ensures 0 < l.i < |h|
  {
  }

  // What a call returns, and what it leaves.
  ghost predicate Result(m0: Memory, g: History, mo: int, c0: map<nat, nat>, m: Memory, l: Local) {
    if g.live == [] then l == DelDone(0) && m == m0 && c0 == map[]
    else
      && l == DelDone(m0.Val(g.live[0])) && Gone(m0, g, mo, m)
      && exists k :: A.IsMin(c0, k) && l == DelDone(c0[k]) && Holds(m, c0 - {k})
  }

  lemma {:induction false} DeleteRuns(m0: Memory, g0: History, m: Memory, g: History, h: Ranks, t: nat, l: Local, mo: int,
                                      cs: seq<Choice>, c0: map<nat, nat>)
    requires MemOk(m0, g0) && Good(m, g, h, t, l) && Stage(m0, g0, mo, m, l) && Progress(c0, A.DeleteMin, m, g, l)
    requires Allowed(m, l, mo, cs) && |cs| >= Need(h, l)
    requires Holds(m0, c0)
    ensures var o := Solo(m, l, mo, cs); o.Next? && Result(m0, g0, mo, c0, o.m, o.l)
    decreases |cs|
  {
    hide MemOk, Good, Stage, Progress, Exec, Need, ChoiceOk, Doomed, Result, Holds;
    if l.DelDone? {
      AtEnd(m0, g0, m, g, h, t, l, mo, c0);
    } else {
      StageLocals(m0, g0, mo, m, l);
      Positive(m0, g0, m, g, h, t, l, mo);
      var g', h' := AloneStep(m, g, h, t, l, mo, cs[0], c0, A.DeleteMin);
      DeleteTurn(m0, g0, m, g, h, t, l, mo, cs[0]);
      var o := Exec(m, l, mo, cs[0]);
      DeleteRuns(m0, g0, o.m, g', h', t, o.l, mo, cs[1..], c0);
    }
  }

  lemma Positive(m0: Memory, g0: History, m: Memory, g: History, h: Ranks, t: nat, l: Local, mo: int)
    requires Good(m, g, h, t, l) && Stage(m0, g0, mo, m, l) && !l.DelDone?
    ensures Need(h, l) > 0
  {
    StageLocals(m0, g0, mo, m, l);
    StagePcs(m0, g0, mo, m, l);
    hide Stage, Weight, Ahead;
    RanksAre(m, h);
    if Restructuring(l) { ReLevel(m, g, h, t, l); }
  }

  lemma StagePcs(m0: Memory, g: History, mo: int, m: Memory, l: Local)
    requires Stage(m0, g, mo, m, l)
    ensures l.DelObserve? || l.DelRead? || l.DelFlag? || l.DelMark? || l.DelHeadTest? || l.DelSwing? || Restructuring(l)
      || l.FreeRead? || l.FreeNode? || l.DelDone?
  {
    hide EndStage, WalkStage;
    if EndStage(m0, g, mo, m, l) { EndWhere(m0, g, mo, m, l); }
    if WalkStage(m0, g, m, l) { FlagLink(m0, g, m, l); }
  }

  lemma AtEnd(m0: Memory, g0: History, m: Memory, g: History, h: Ranks, t: nat, l: Local, mo: int, c0: map<nat, nat>)
    requires MemOk(m0, g0) && Good(m, g, h, t, l) && Stage(m0, g0, mo, m, l) && l.DelDone?
    requires Progress(c0, A.DeleteMin, m, g, l) && Holds(m0, c0)
    ensures Result(m0, g0, mo, c0, m, l)
  {
    hide MemOk, Good, Stage, Gone, Contents, Holds, Progress;
    StageEnd(m0, g0, mo, m, l);
    Performed(m, g, h, t, l, c0);
    InvHolds(m0, g0);
    HoldsUnique(m0, c0, Contents(m0, g0.live));
    EmptyOrNot(m0, g0);
  }

  lemma Performed(m: Memory, g: History, h: Ranks, t: nat, l: Local, c0: map<nat, nat>)
    requires Good(m, g, h, t, l) && l.DelDone? && Progress(c0, A.DeleteMin, m, g, l)
    ensures Holds(m, Contents(m, g.live)) && A.Perform(c0, A.DeleteMin, Contents(m, g.live), A.Val(l.v))
  {
    hide MemOk, Ranked, Tall, ThreadOk, Contents, Holds, A.Perform;
    InvHolds(m, g);
  }

  lemma StageEnd(m0: Memory, g: History, mo: int, m: Memory, l: Local)
    requires Stage(m0, g, mo, m, l) && l.DelDone?
    ensures if g.live == [] then l == DelDone(0) && m == m0 else l == DelDone(m0.Val(g.live[0])) && Gone(m0, g, mo, m)
  {
    hide Gone;
    if WalkStage(m0, g, m, l) { FlagLink(m0, g, m, l); }
  }

  lemma EmptyOrNot(m: Memory, g: History)
    requires MemOk(m, g)
    ensures Contents(m, g.live) == map[] <==> g.live == []
  {
    if |g.live| > 0 { ContentsAt(m, g.live, 0); }
  }

  // A deletemin called in any well-formed state by a thread that then runs alone returns after at most
  // 67 steps a node and 191 more: with 0 and without any change if the queue is empty, and
  // otherwise with the value of the least key, which is gone.
  lemma DeleteAlone(m: Memory, g: History, h: Ranks, t: nat, mo: int, cs: seq<Choice>, c0: map<nat, nat>)
    requires Good(m, g, h, t, DelObserve) && Holds(m, c0)
    requires Allowed(m, DelObserve, mo, cs) && |cs| >= 67 * |m.nodes| + 191
    ensures var o := Solo(m, DelObserve, mo, cs); o.Next? && Result(m, g, mo, c0, o.m, o.l)
  {
    hide Good, Progress, Need, Result, Holds;
    CallProgress(m, g, h, t, c0);
    FirstNeed(m, g, h, t);
    DeleteRuns(m, g, m, g, h, t, DelObserve, mo, cs, c0);
  }

  lemma CallProgress(m: Memory, g: History, h: Ranks, t: nat, c0: map<nat, nat>)
    requires Good(m, g, h, t, DelObserve) && Holds(m, c0)
    ensures Progress(c0, A.DeleteMin, m, g, DelObserve) && MemOk(m, g)
  {
    hide MemOk, Ranked, Contents, Holds;
    InvHolds(m, g);
    HoldsUnique(m, c0, Contents(m, g.live));
  }

  lemma FirstNeed(m: Memory, g: History, h: Ranks, t: nat)
    requires Good(m, g, h, t, DelObserve)
    ensures Need(h, DelObserve) <= 67 * |m.nodes| + 191
  {
    hide Weight, Beyond;
    HeadOn(m, h, 0);
    RanksAre(m, h);
    BeyondOnLevel(h, 0, HEAD);
    WeightBound(m, h, NUM_LEVELS);
    WeightBound(m, h, 1);
    WeightStep(h, 1);
    WeightZero(h);
  }

  lemma WeightZero(h: Ranks)
    ensures Weight(h, 0) == 0
  {
  }

  // No pointer of the head, on any level, leads to a node that the call has freed.
  lemma HeadOffFreed(m: Memory, g: History, mo: int, m': Memory, n: nat, i: nat)
    requires MemOk(m, g) && |g.live| > 0 && Gone(m, g, mo, m') && i < NUM_LEVELS
    requires n in m'.freed && n !in m.freed
    ensures m'.Next(HEAD, i).Link? && m'.Next(HEAD, i).node != n
  {
    if Prefix(g) > 0 && Prefix(g) + 1 > mo {
      var q :| Freed(m, g, q, m', q);
      var j: nat :| j < q && Line(g)[j] == n;
      LineNext2(m, g, q, m', j);
      LineIs(m, g, j);
      hide MemOk, NewHead;
      var ms := Swung(m, g, q);
      if i > 0 {
        assert RebuiltAt(ms, m'.(freed := m.freed), i);
        LandsLive(ms, i, m'.Next(HEAD, i).node);
      }
    } else {
      TakenFreed(m, g);
    }
  }

  lemma TakenFreed(m: Memory, g: History)
    ensures Taken(m, g).freed == m.freed
  {
  }

  // What is freed was passed by restructure: its own pointer on level 0 is marked.
  lemma LineNext2(m: Memory, g: History, q: nat, m': Memory, j: nat)
    requires MemOk(m, g) && Freed(m, g, q, m', q) && j < q && Prefix(g) > 0
    ensures Dead(Swung(m, g, q), Line(g)[j])
    ensures Swung(m, g, q).Next(HEAD, 0) == Link(Line(g)[q], true) && m'.Next(HEAD, 0) == Link(Line(g)[q], true)
    ensures m'.Next(HEAD, 0).node != Line(g)[j]
  {
    LastVisited(m, g);
    LineIs(m, g, j);
    LineIs(m, g, j + 1);
    LineIs(m, g, q);
    VisitedNext(m, g, j + 1);
    HeadAfterMark(m, g);
    hide MemOk;
  }
}
