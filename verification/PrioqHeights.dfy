// The levels of the queue never run in circles: every node on a level has a rank there that never
// changes, and every pointer on the level leads to a node of higher rank.  A new node enters a
// level between the two nodes whose pointer it splits.

module PrioqHeights {
  import opened PrioqParams
  import opened PrioqModel
  import opened PrioqInvariant
  import opened PrioqRuns

  // For every level the nodes that have been linked on it, with their ranks.
  type Ranks = seq<map<nat, real>>

  ghost predicate On(h: Ranks, i: nat, n: nat) {
    i < |h| && n in h[i]
  }

  ghost function Rank(h: Ranks, i: nat, n: nat): real {
    if On(h, i, n) then h[i][n] else 0.0
  }

  ghost predicate Rises(m: Memory, h: Ranks, i: nat, n: nat) {
    On(h, i, n) && n != TAIL ==>
      && m.Next(n, i).Link? && On(h, i, m.Next(n, i).node)
      && Rank(h, i, n) < Rank(h, i, m.Next(n, i).node)
  }

  // A node of a level is on the level below, and the head is the lowest on each.
  ghost predicate Placed(m: Memory, h: Ranks, i: nat, n: nat) {
    On(h, i, n) ==>
      && n in m.nodes
      && (i > 0 ==> On(h, i - 1, n))
      && (n != HEAD ==> Rank(h, i, n) > 0.0)
  }

  ghost predicate Ranked(m: Memory, h: Ranks) {
    && |h| == NUM_LEVELS
    && (forall i {:trigger On(h, i, HEAD)} {:trigger On(h, i, TAIL)} :: 0 <= i < NUM_LEVELS ==>
          On(h, i, HEAD) && On(h, i, TAIL) && Rank(h, i, HEAD) == 0.0)
    && (forall i, n {:trigger Placed(m, h, i, n)} :: Placed(m, h, i, n))
    && (forall i, n {:trigger Rises(m, h, i, n)} :: Rises(m, h, i, n))
  }

  // ---------- what a thread knows ----------

  // The new node is on the levels below up and on no other; the neighbours are on theirs.
  ghost predicate NewTall(h: Ranks, a: Ins, up: nat) {
    && up < NUM_LEVELS
    && (forall j :: 0 <= j < up ==> On(h, j, a.new_))
    && (forall j :: up <= j < NUM_LEVELS ==> !On(h, j, a.new_))
    && (forall j :: j in a.preds ==> On(h, j, a.preds[j]))
    && (forall j :: j in a.succs ==> On(h, j, a.succs[j]) && a.succs[j] != HEAD)
  }

  ghost predicate Aims(m: Memory, a: Ins, i: nat) {
    i in a.succs && m.Next(a.new_, i) == Link(a.succs[i], false)
  }

  ghost predicate Inner(h: Ranks, i: nat, n: nat) {
    On(h, i, n) && n != HEAD
  }

  ghost predicate DelTall(h: Ranks, d: Del) {
    On(h, 0, d.x) && (d.newhead.Some? ==> Inner(h, 0, d.newhead.value))
    && (d.obs.Link? ==> Inner(h, 0, d.obs.node))
  }

  ghost predicate Tall(m: Memory, h: Ranks, l: Local) {
    match l
    case LocateRead(a, up, x, i) => NewTall(h, a, up) && On(h, i, x)
    case LocateTest(a, up, x, i, xn, mk) => NewTall(h, a, up) && On(h, i, x) && Inner(h, i, xn)
    case DupMark(a) => NewTall(h, a, 0)
    case DupSame(a) => NewTall(h, a, 0)
    case Prepare(a) => NewTall(h, a, 0)
    case LinkCas(a) => NewTall(h, a, 0) && Aims(m, a, 0)
    case UpNew(a, i) => NewTall(h, a, i)
    case UpSucc(a, i) => NewTall(h, a, i)
    case UpPrepare(a, i) => NewTall(h, a, i)
    case UpCas(a, i) => NewTall(h, a, i) && Aims(m, a, i)
    case DelRead(d) => DelTall(h, d)
    case DelFlag(d, link) => DelTall(h, d) && link.Link? && Inner(h, 0, link.node)
    case DelMark(d) => DelTall(h, d)
    case DelHeadTest(d, v) => DelTall(h, d)
    case DelSwing(d, v) => DelTall(h, d)
    case ReHead(d, v, i, pred) => DelTall(h, d) && On(h, i, pred)
    case RePred(d, v, i, pred, hd) => DelTall(h, d) && On(h, i, pred) && Inner(h, i, hd)
    case ReTest(d, v, i, pred, hd, cur) => DelTall(h, d) && On(h, i, pred) && Inner(h, i, hd) && Inner(h, i, cur)
    case ReSkip(d, v, i, pred, hd, cur) => DelTall(h, d) && On(h, i, pred) && Inner(h, i, hd) && Inner(h, i, cur)
    case ReNext(d, v, i, pred, hd) => DelTall(h, d) && On(h, i, pred) && Inner(h, i, hd)
    case ReCas(d, v, i, pred, hd, cur) => DelTall(h, d) && On(h, i, pred) && Inner(h, i, hd) && Inner(h, i, cur)
    case FreeRead(d, v, cur) => DelTall(h, d) && Inner(h, 0, cur)
    case FreeNode(d, v, cur, nxt) => DelTall(h, d) && Inner(h, 0, cur) && Inner(h, 0, nxt)
    case _ => true
  }

  // The node of an insertion that may still be linked on some level.
  function Pending(l: Local): Option<nat> {
    match l
    case LocateRead(a, _, _, _) => Some(a.new_)
    case LocateTest(a, _, _, _, _, _) => Some(a.new_)
    case DupMark(a) => Some(a.new_)
    case DupSame(a) => Some(a.new_)
    case Prepare(a) => Some(a.new_)
    case LinkCas(a) => Some(a.new_)
    case UpNew(a, _) => Some(a.new_)
    case UpSucc(a, _) => Some(a.new_)
    case UpPrepare(a, _) => Some(a.new_)
    case UpCas(a, _) => Some(a.new_)
    case _ => None
  }

  ghost predicate PendingApart(threads: map<nat, Local>) {
    forall t, u :: t in threads && u in threads && t != u && Pending(threads[t]).Some? ==>
      Pending(threads[t]) != Pending(threads[u])
  }

  ghost predicate PendingKnown(m: Memory, l: Local) {
    Pending(l).Some? ==> Pending(l).value in m.nodes
  }

  ghost predicate Heights(s: Machine, h: Ranks) {
    && Ranked(s.mem, h)
    && (forall t :: t in s.threads ==> Tall(s.mem, h, s.threads[t]) && PendingKnown(s.mem, s.threads[t]))
    && PendingApart(s.threads)
  }

  // ---------- changes of memory ----------

  // Every pointer on a level leads where it led.
  ghost predicate AimKept(m: Memory, h: Ranks, m': Memory, i: nat, n: nat) {
    On(h, i, n) && n != TAIL ==>
      m.Next(n, i).Link? && m'.Next(n, i).Link? && m'.Next(n, i).node == m.Next(n, i).node
  }

  lemma RankedSame(m: Memory, h: Ranks, m': Memory)
    requires Ranked(m, h) && m.nodes.Keys <= m'.nodes.Keys
    requires forall i, n :: AimKept(m, h, m', i, n)
    ensures Ranked(m', h)
  {
    forall i, n ensures Placed(m', h, i, n) && Rises(m', h, i, n) {
      assert Placed(m, h, i, n) && Rises(m, h, i, n) && AimKept(m, h, m', i, n);
    }
  }

  // The head may be made to lead to any other node of the level.
  lemma RankedHead(m: Memory, h: Ranks, i: nat, l: Link)
    requires Ranked(m, h) && m.CanRead(HEAD, i) && l.Link? && Inner(h, i, l.node)
    ensures Ranked(m.Write(HEAD, i, l), h)
  {
    var m' := m.Write(HEAD, i, l);
    forall j, n ensures Placed(m', h, j, n) && Rises(m', h, j, n) {
      assert Placed(m, h, j, n) && Rises(m, h, j, n);
      if n == HEAD && j == i { assert Placed(m, h, i, l.node); }
    }
  }

  ghost function Publish(h: Ranks, i: nat, pred: nat, new_: nat, succ: nat): Ranks
    requires i < |h|
  {
    var level: map<nat, real> := h[i][new_ := (Rank(h, i, pred) + Rank(h, i, succ)) / 2.0];
    h[i := level]
  }

  // A node put between two neighbours gets a rank between theirs.
  lemma RankedPublish(m: Memory, h: Ranks, i: nat, pred: nat, new_: nat, succ: nat)
    requires Ranked(m, h) && m.CanRead(pred, i) && On(h, i, pred) && On(h, i, succ) && pred != TAIL
    requires m.Next(pred, i).Link? && m.Next(pred, i).node == succ && m.Next(new_, i).Link? && m.Next(new_, i).node == succ
    requires !On(h, i, new_) && new_ in m.nodes && (i > 0 ==> On(h, i - 1, new_))
    ensures Ranked(m.Write(pred, i, Link(new_, false)), Publish(h, i, pred, new_, succ))
  {
    var m' := m.Write(pred, i, Link(new_, false));
    var h' := Publish(h, i, pred, new_, succ);
    assert Rises(m, h, i, pred) && Placed(m, h, i, pred);
    assert new_ != HEAD && new_ != TAIL by { assert On(h, i, HEAD) && On(h, i, TAIL); }
    forall j: nat, n ensures On(h, j, n) ==> On(h', j, n) && Rank(h', j, n) == Rank(h, j, n) {}
    assert Rank(h', i, new_) > Rank(h, i, pred) >= 0.0 && Rank(h', i, new_) < Rank(h, i, succ);
    forall j, n ensures Placed(m', h', j, n) && Rises(m', h', j, n) {
      assert Placed(m, h, j, n) && Rises(m, h, j, n);
      assert On(h', j, n) ==> On(h, j, n) || (j == i && n == new_);
    }
    forall j | 0 <= j < NUM_LEVELS ensures On(h', j, HEAD) && On(h', j, TAIL) && Rank(h', j, HEAD) == 0.0 {
      assert On(h, j, HEAD);
    }
  }

  // ---------- one step ----------

  ghost predicate Kept(h: Ranks, h': Ranks, i: nat, n: nat) {
    On(h, i, n) ==> On(h', i, n) && Rank(h', i, n) == Rank(h, i, n)
  }

  // A thread at l, going to l', links only its own new node, and writes no other unlinked one.
  ghost predicate Grown(m: Memory, h: Ranks, l: Local, m': Memory, l': Local, h': Ranks) {
    && |h'| == |h|
    && (forall i, n {:trigger Kept(h, h', i, n)} :: Kept(h, h', i, n))
    && (forall i: nat, n: nat {:trigger On(h', i, n)} :: On(h', i, n) && !On(h, i, n) ==> Pending(l) == Some(n))
    && m.nodes.Keys <= m'.nodes.Keys
    && (forall i, n {:trigger m'.Next(n, i)} ::
          n in m.nodes && !On(h, i, n) && Pending(l) != Some(n) ==> m'.Next(n, i) == m.Next(n, i))
    && (Pending(l').Some? ==> Pending(l') == Pending(l) || Pending(l').value !in m.nodes)
    && PendingKnown(m', l')
  }

  ghost predicate Climbs(m: Memory, h: Ranks, l: Local, o: Outcome, h': Ranks) {
    o.Next? && Ranked(o.m, h') && Tall(o.m, h', o.l) && Grown(m, h, l, o.m, o.l, h')
  }

  lemma NewTallKept(h: Ranks, h': Ranks, a: Ins, up: nat)
    requires NewTall(h, a, up) && |h'| == |h|
    requires forall i, n {:trigger Kept(h, h', i, n)} :: Kept(h, h', i, n)
    requires forall i :: On(h', i, a.new_) ==> On(h, i, a.new_)
    ensures NewTall(h', a, up)
  {
    forall j | j in a.preds ensures On(h', j, a.preds[j]) { assert Kept(h, h', j, a.preds[j]); }
    forall j | j in a.succs ensures On(h', j, a.succs[j]) { assert Kept(h, h', j, a.succs[j]); }
    forall j | 0 <= j < up ensures On(h', j, a.new_) { assert Kept(h, h', j, a.new_); }
  }

  // The other threads keep what they know.
  lemma OthersTall(m: Memory, h: Ranks, l: Local, m': Memory, l': Local, h': Ranks, u: Local)
    requires Grown(m, h, l, m', l', h') && Tall(m, h, u) && PendingKnown(m, u)
    requires Pending(u).Some? ==> Pending(u) != Pending(l)
    ensures Tall(m', h', u) && PendingKnown(m', u)
  {
    assert forall i, n :: On(h, i, n) ==> Kept(h, h', i, n);
    if Pending(u).Some? {
      var a := match u
        case LocateRead(a, _, _, _) => a
        case LocateTest(a, _, _, _, _, _) => a
        case DupMark(a) => a
        case DupSame(a) => a
        case Prepare(a) => a
        case LinkCas(a) => a
        case UpNew(a, _) => a
        case UpSucc(a, _) => a
        case UpPrepare(a, _) => a
        case UpCas(a, _) => a;
      var up := if u.LocateRead? || u.LocateTest? then u.up else if u.UpNew? || u.UpSucc? || u.UpPrepare? || u.UpCas? then u.i else 0;
      NewTallKept(h, h', a, up);
    }
  }

  // Steps that change no pointer of a level.
  lemma Looked(m: Memory, h: Ranks, l: Local, m': Memory, l': Local)
    requires Ranked(m, h) && Tall(m', h, l') && m.nodes.Keys <= m'.nodes.Keys
    requires forall i, n :: n in m.nodes && (On(h, i, n) || Pending(l) != Some(n)) ==> m'.Next(n, i) == m.Next(n, i)
    requires (Pending(l').Some? ==> Pending(l') == Pending(l) || Pending(l').value !in m.nodes) && PendingKnown(m', l')
    ensures Climbs(m, h, l, Next(m', l'), h)
  {
    forall i, n ensures AimKept(m, h, m', i, n) {
      assert Placed(m, h, i, n) && Rises(m, h, i, n);
    }
    RankedSame(m, h, m');
  }

  // A step that only reads.
  lemma Glanced(m: Memory, h: Ranks, l: Local, l': Local)
    requires Ranked(m, h) && Tall(m, h, l') && PendingKnown(m, l')
    requires Pending(l').Some? ==> Pending(l') == Pending(l)
    ensures Climbs(m, h, l, Next(m, l'), h)
  {
    hide Ranked, Tall;
    Looked(m, h, l, m, l');
  }

  lemma LocateClimbs(m: Memory, g: History, h: Ranks, l: Local, o: Outcome)
    requires MemOk(m, g) && InsertOk(m, g, l) && Ranked(m, h) && Tall(m, h, l) && PendingKnown(m, l)
    requires (l.LocateRead? && o == DoLocateRead(m, l.a, l.up, l.x, l.i))
          || (l.LocateTest? && o == DoLocateTest(m, l.a, l.up, l.x, l.i, l.xn, l.mk))
    requires o.Next?
    ensures Climbs(m, h, l, o, h)
  {
    hide MemOk, Ranked, PredOk, SuccOk, LocatedOk, NewOk, HasLevel, Climbs;
    if l.LocateRead? {
      RisesFrom(m, g, h, l.i, l.x);
    } else if l.i > 0 {
      NextBelow(m, h, l.i, l.x);
    }
    Glanced(m, h, l, o.l);
  }

  lemma RisesFrom(m: Memory, g: History, h: Ranks, i: nat, x: nat)
    requires MemOk(m, g) && Ranked(m, h) && On(h, i, x) && m.Next(x, i).Link?
    ensures Inner(h, i, m.Next(x, i).node) && Rank(h, i, x) < Rank(h, i, m.Next(x, i).node)
  {
    assert x != TAIL;
    assert Rises(m, h, i, x) && Placed(m, h, i, x);
    assert On(h, i, HEAD);
  }

  lemma NextBelow(m: Memory, h: Ranks, i: nat, x: nat)
    requires Ranked(m, h) && On(h, i, x) && i > 0
    ensures On(h, i - 1, x)
  {
    assert Placed(m, h, i, x);
  }

  lemma InsertReadClimbs(m: Memory, g: History, h: Ranks, l: Local, mo: int, c: Choice)
    requires MemOk(m, g) && InsertOk(m, g, l) && Ranked(m, h) && Tall(m, h, l) && PendingKnown(m, l)
    requires l.DupMark? || l.DupSame? || l.UpNew? || l.UpSucc?
    requires Exec(m, l, mo, c).Next?
    ensures Climbs(m, h, l, Exec(m, l, mo, c), h)
  {
    hide MemOk, Ranked, ReadyOk, PrivateOk, NewOk, Climbs;
    Glanced(m, h, l, Exec(m, l, mo, c).l);
  }

  // alloc_node, the stores into the new node, and the end of an insertion.
  lemma InsertOwnClimbs(m: Memory, g: History, h: Ranks, l: Local, mo: int, c: Choice)
    requires MemOk(m, g) && InsertOk(m, g, l) && Ranked(m, h) && Tall(m, h, l) && PendingKnown(m, l)
    requires l.InsAlloc? || l.Prepare? || l.UpPrepare? || l.DupClear? || l.DupFree? || l.Finish?
    requires Exec(m, l, mo, c).Next?
    ensures Climbs(m, h, l, Exec(m, l, mo, c), h)
  {
    hide MemOk, Ranked, ReadyOk, PrivateOk, NewOk, Climbs;
    var o := Exec(m, l, mo, c);
    if l.InsAlloc? {
      NotYet(m, h, c.id);
    }
    Looked(m, h, l, o.m, o.l);
  }

  lemma NotYet(m: Memory, h: Ranks, n: nat)
    requires Ranked(m, h) && n !in m.nodes
    ensures forall i :: !On(h, i, n)
    ensures On(h, NUM_LEVELS - 1, HEAD) && |h| == NUM_LEVELS
  {
    forall i ensures !On(h, i, n) { assert Placed(m, h, i, n); }
  }

  lemma HeadOn(m: Memory, h: Ranks, i: nat)
    requires Ranked(m, h) && i < NUM_LEVELS
    ensures On(h, i, HEAD) && On(h, i, TAIL)
  {
  }

  lemma DeleteReadClimbs(m: Memory, g: History, h: Ranks, l: Local, mo: int, c: Choice)
    requires MemOk(m, g) && Ranked(m, h) && Tall(m, h, l)
    requires l.DelObserve? || l.DelRead? || l.DelFlag? || l.DelHeadTest?
    requires Exec(m, l, mo, c).Next?
    ensures Climbs(m, h, l, Exec(m, l, mo, c), h)
  {
    hide Ranked, ChainOk, UppersOk, PassedOk, FreedOk, NodesOk, PositionsOk, Sorted, Climbs, Rank, On;
    HeadOn(m, h, 0);
    if l.DelObserve? { RisesFrom(m, g, h, 0, HEAD); }
    if l.DelRead? { RisesFrom(m, g, h, 0, l.d.x); }
    Glanced(m, h, l, Exec(m, l, mo, c).l);
  }

  lemma RestructureReadClimbs(m: Memory, g: History, h: Ranks, l: Local, mo: int, c: Choice)
    requires MemOk(m, g) && DeleteOk(m, g, l) && Ranked(m, h) && Tall(m, h, l)
    requires l.ReHead? || l.RePred? || l.ReTest? || l.ReSkip? || l.ReNext?
    requires Exec(m, l, mo, c).Next?
    ensures Climbs(m, h, l, Exec(m, l, mo, c), h)
  {
    hide MemOk, Ranked, Climbs, Rank, On, HasLevel;
    HeadOn(m, h, l.i);
    if l.ReHead? { RisesFrom(m, g, h, l.i, HEAD); }
    if l.RePred? || l.ReNext? { RisesFrom(m, g, h, l.i, l.pred); }
    if l.ReTest? {
      NextBelow(m, h, l.i, l.pred);
      Observed(m, h, l.d);
    }
    Glanced(m, h, l, Exec(m, l, mo, c).l);
  }

  lemma Observed(m: Memory, h: Ranks, d: Del)
    requires DelTall(h, d) && d.obs.Link?
    ensures Inner(h, 0, d.obs.node)
  {
  }

  lemma FreeClimbs(m: Memory, g: History, h: Ranks, l: Local, mo: int, c: Choice)
    requires MemOk(m, g) && Ranked(m, h) && Tall(m, h, l)
    requires l.FreeRead? || l.FreeNode?
    requires Exec(m, l, mo, c).Next?
    ensures Climbs(m, h, l, Exec(m, l, mo, c), h)
  {
    hide MemOk, Ranked, Climbs, Rank, On;
    if l.FreeRead? && l.d.newhead != Some(l.cur) { RisesFrom(m, g, h, 0, l.cur); }
    Looked(m, h, l, Exec(m, l, mo, c).m, Exec(m, l, mo, c).l);
  }

  // The fetch-and-or changes a mark only.
  lemma MarkClimbs(m: Memory, g: History, h: Ranks, l: Local, mo: int, c: Choice)
    requires MemOk(m, g) && Ranked(m, h) && Tall(m, h, l) && l.DelMark?
    requires Exec(m, l, mo, c).Next?
    ensures Climbs(m, h, l, Exec(m, l, mo, c), h)
  {
    hide MemOk, Ranked, Rank;
    var o, x := Exec(m, l, mo, c), l.d.x;
    RisesFrom(m, g, h, 0, x);
    forall i, n ensures AimKept(m, h, o.m, i, n) { Leads(m, h, i, n); }
    RankedSame(m, h, o.m);
  }

  lemma Leads(m: Memory, h: Ranks, i: nat, n: nat)
    requires Ranked(m, h)
    ensures On(h, i, n) && n != TAIL ==> m.Next(n, i).Link?
  {
    assert Rises(m, h, i, n);
  }

  lemma HeadClimbs(m: Memory, g: History, h: Ranks, l: Local, mo: int, c: Choice)
    requires MemOk(m, g) && Ranked(m, h) && Tall(m, h, l) && (l.DelSwing? || l.ReCas?)
    requires DeleteOk(m, g, l) && Exec(m, l, mo, c).Next?
    ensures Climbs(m, h, l, Exec(m, l, mo, c), h)
  {
    hide MemOk, Ranked, Rank, HasLevel, WonOk;
    var o := Exec(m, l, mo, c);
    HeadOn(m, h, 0);
    HeadOn(m, h, NUM_LEVELS - 1);
    if l.ReCas? { NextBelow(m, h, l.i, l.pred); HeadOn(m, h, l.i); Observed(m, h, l.d); }
    if l.DelSwing? {
      if o.m != m { RankedHead(m, h, 0, Link(l.d.newhead.value, true)); }
    } else if o.m != m {
      RankedHead(m, h, l.i, Link(l.cur, false));
    }
  }

  lemma PublishClimbs(m: Memory, h: Ranks, l: Local, a: Ins, i: nat, m': Memory, l': Local, h': Ranks)
    requires Ranked(m, h) && NewTall(h, a, i) && Aims(m, a, i) && Pending(l) == Some(a.new_) && a.new_ in m.nodes
    requires i in a.preds && m.CanRead(a.preds[i], i) && m.Next(a.preds[i], i) == Link(a.succs[i], false) && a.preds[i] != TAIL
    requires m' == m.Write(a.preds[i], i, Link(a.new_, false)) && h' == Publish(h, i, a.preds[i], a.new_, a.succs[i])
    requires l' == Finish(a) || (l' == UpNew(a, i + 1) && i + 1 < NUM_LEVELS)
    ensures Climbs(m, h, l, Next(m', l'), h')
  {
    hide Ranked, Grown, Publish;
    RanksAre(m, h);
    RankedPublish(m, h, i, a.preds[i], a.new_, a.succs[i]);
    PublishGrown(m, h, l, a, i, m', l', h');
    if l'.UpNew? { NewTallUp(h, h', a, i); }
  }

  lemma RanksAre(m: Memory, h: Ranks)
    requires Ranked(m, h)
    ensures |h| == NUM_LEVELS
  {
  }

  lemma PublishGrown(m: Memory, h: Ranks, l: Local, a: Ins, i: nat, m': Memory, l': Local, h': Ranks)
    requires i < |h| && !On(h, i, a.new_) && Pending(l) == Some(a.new_) && a.new_ in m.nodes
    requires i in a.preds && i in a.succs && On(h, i, a.preds[i]) && m.CanRead(a.preds[i], i)
    requires m' == m.Write(a.preds[i], i, Link(a.new_, false)) && h' == Publish(h, i, a.preds[i], a.new_, a.succs[i])
    requires l' == Finish(a) || l' == UpNew(a, i + 1)
    ensures Grown(m, h, l, m', l', h')
    ensures forall j, n :: On(h', j, n) <==> On(h, j, n) || (j == i && n == a.new_)
  {
    forall j, n ensures Kept(h, h', j, n) { PublishKeeps(m, h, i, a.preds[i], a.new_, a.succs[i], j, n); }
    hide Rank;
    forall j, n ensures On(h', j, n) <==> On(h, j, n) || (j == i && n == a.new_) {}
  }

  lemma PublishKeeps(m: Memory, h: Ranks, i: nat, pred: nat, new_: nat, succ: nat, j: nat, n: nat)
    requires i < |h| && !On(h, i, new_)
    ensures Kept(h, Publish(h, i, pred, new_, succ), j, n)
  {
  }

  lemma NewTallUp(h: Ranks, h': Ranks, a: Ins, i: nat)
    requires NewTall(h, a, i) && |h'| == |h| && i + 1 < NUM_LEVELS
    requires forall j, n :: On(h', j, n) <==> On(h, j, n) || (j == i && n == a.new_)
    ensures NewTall(h', a, i + 1)
  {
  }

  lemma NotTail(m: Memory, g: History, n: nat, i: nat)
    requires MemOk(m, g) && m.Next(n, i).Link?
    ensures n != TAIL
  {
  }

  lemma LevelsAtMost(m: Memory, g: History, n: nat)
    requires MemOk(m, g)
    ensures g.Linked(n) ==> n in m.nodes && m.nodes[n].level <= NUM_LEVELS
  {
    assert g.Linked(n) ==> NodeOk(m, n);
  }

  lemma SwapClimbs(m: Memory, g: History, h: Ranks, l: Local, mo: int, c: Choice) returns (h': Ranks)
    requires MemOk(m, g) && InsertOk(m, g, l) && Ranked(m, h) && Tall(m, h, l) && PendingKnown(m, l)
    requires l.LinkCas? || l.UpCas?
    requires Exec(m, l, mo, c).Next?
    ensures Climbs(m, h, l, Exec(m, l, mo, c), h')
  {
    hide MemOk, Ranked, Rank, LocatedOk, Climbs;
    var o, i := Exec(m, l, mo, c), if l.LinkCas? then 0 else l.i;
    var a := l.a;
    HeadOn(m, h, NUM_LEVELS - 1);
    if m.Next(a.preds[i], i) == Link(a.succs[i], false) {
      NotTail(m, g, a.preds[i], i);
      LevelsAtMost(m, g, a.new_);
      h' := Publish(h, i, a.preds[i], a.new_, a.succs[i]);
      PublishClimbs(m, h, l, a, i, o.m, o.l, h');
    } else {
      h' := h;
      Looked(m, h, l, o.m, o.l);
    }
  }

  // One step of a thread at any program counter.
  lemma ThreadClimbs(m: Memory, g: History, h: Ranks, t: nat, l: Local, mo: int, c: Choice) returns (h': Ranks)
    requires MemOk(m, g) && ThreadOk(m, g, t, l) && Ranked(m, h) && Tall(m, h, l) && PendingKnown(m, l)
    requires Exec(m, l, mo, c).Next?
    ensures Climbs(m, h, l, Exec(m, l, mo, c), h')
    ensures !l.LinkCas? && !l.UpCas? ==> h' == h
  {
    hide MemOk, InsertOk, DeleteOk, ClaimOk, Ranked, Tall, Climbs, Exec;
    h' := h;
    if l.LocateRead? || l.LocateTest? {
      LocateIs(m, l, mo, c);
      LocateClimbs(m, g, h, l, Exec(m, l, mo, c));
    } else if l.DupMark? || l.DupSame? || l.UpNew? || l.UpSucc? { InsertReadClimbs(m, g, h, l, mo, c); }
    else if l.InsAlloc? || l.Prepare? || l.UpPrepare? || l.DupClear? || l.DupFree? || l.Finish? { InsertOwnClimbs(m, g, h, l, mo, c); }
    else if l.LinkCas? || l.UpCas? { h' := SwapClimbs(m, g, h, l, mo, c); }
    else if l.DelObserve? || l.DelRead? || l.DelFlag? || l.DelHeadTest? { DeleteReadClimbs(m, g, h, l, mo, c); }
    else if l.DelMark? { MarkClimbs(m, g, h, l, mo, c); }
    else if l.DelSwing? || l.ReCas? { HeadClimbs(m, g, h, l, mo, c); }
    else if l.FreeRead? || l.FreeNode? { FreeClimbs(m, g, h, l, mo, c); }
    else if l.ReHead? || l.RePred? || l.ReTest? || l.ReSkip? || l.ReNext? { RestructureReadClimbs(m, g, h, l, mo, c); }
    else { CallClimbs(m, h, l, mo, c); }
  }

  lemma LocateIs(m: Memory, l: Local, mo: int, c: Choice)
    ensures l.LocateRead? ==> Exec(m, l, mo, c) == DoLocateRead(m, l.a, l.up, l.x, l.i)
    ensures l.LocateTest? ==> Exec(m, l, mo, c) == DoLocateTest(m, l.a, l.up, l.x, l.i, l.xn, l.mk)
  {
  }

  lemma CallClimbs(m: Memory, h: Ranks, l: Local, mo: int, c: Choice)
    requires Ranked(m, h) && (l.Outside? || l.InsDone? || l.DelDone?)
    requires Exec(m, l, mo, c).Next?
    ensures Climbs(m, h, l, Exec(m, l, mo, c), h)
  {
    Looked(m, h, l, m, Exec(m, l, mo, c).l);
  }

  // ---------- runs ----------

  lemma HeightsStep(s: Machine, g: History, h: Ranks, t: nat, c: Choice, s': Machine) returns (h': Ranks)
    requires Inv(s, g) && Heights(s, h) && Step(s, t, c, s')
    ensures Heights(s', h')
  {
    hide MemOk, ThreadOk, Ranked, Tall, Exec, Grown;
    h' := ThreadClimbs(s.mem, g, h, t, s.threads[t], s.maxOffset, c);
    forall u | u in s'.threads ensures Tall(s'.mem, h', s'.threads[u]) && PendingKnown(s'.mem, s'.threads[u]) {
      if u != t { OthersTall(s.mem, h, s.threads[t], s'.mem, s'.threads[t], h', s.threads[u]); }
      else { OwnKnown(s.mem, h, s.threads[t], s'.mem, s'.threads[t], h'); }
    }
    ApartKept(s, h, t, s', h');
  }

  lemma OwnKnown(m: Memory, h: Ranks, l: Local, m': Memory, l': Local, h': Ranks)
    requires Grown(m, h, l, m', l', h')
    ensures PendingKnown(m', l')
    ensures Pending(l').Some? ==> Pending(l') == Pending(l) || Pending(l').value !in m.nodes
  {
  }

  lemma ApartKept(s: Machine, h: Ranks, t: nat, s': Machine, h': Ranks)
    requires t in s.threads && t in s'.threads
    requires PendingApart(s.threads) && s'.threads == s.threads[t := s'.threads[t]]
    requires forall u :: u in s.threads ==> PendingKnown(s.mem, s.threads[u])
    requires Grown(s.mem, h, s.threads[t], s'.mem, s'.threads[t], h')
    ensures PendingApart(s'.threads)
  {
    OwnKnown(s.mem, h, s.threads[t], s'.mem, s'.threads[t], h');
    hide Grown;
    forall u, v | u in s'.threads && v in s'.threads && u != v && Pending(s'.threads[u]).Some?
      ensures Pending(s'.threads[u]) != Pending(s'.threads[v])
    {
      assert u != t ==> s'.threads[u] == s.threads[u];
      assert v != t ==> s'.threads[v] == s.threads[v];
    }
  }

  lemma InitHeights(s: Machine) returns (h: Ranks)
    requires Init(s)
    ensures Heights(s, h)
  {
    var level: map<nat, real> := map[HEAD := 0.0, TAIL := 1.0];
    h := seq(NUM_LEVELS, i => level);
    forall i, n ensures Placed(s.mem, h, i, n) && Rises(s.mem, h, i, n) {}
    forall i | 0 <= i < NUM_LEVELS ensures On(h, i, HEAD) && On(h, i, TAIL) && Rank(h, i, HEAD) == 0.0 {}
  }

  // Every reachable state has such ranks, beside its history.
  lemma {:induction false} RunHeights(r: Run, n: nat) returns (g: History, h: Ranks)
    requires r.Valid() && n < |r.states|
    ensures Inv(r.states[n], g) && Heights(r.states[n], h)
  {
    hide Inv, Extends, Step, Init, Heights;
    if n == 0 {
      g := PrioqRuns.InitInv(r.states[0]);
      h := InitHeights(r.states[0]);
    } else {
      var g0, h0 := RunHeights(r, n - 1);
      g := MachineStep(r.states[n - 1], g0, r.who[n - 1], r.choices[n - 1], r.states[n]);
      h := HeightsStep(r.states[n - 1], g0, h0, r.who[n - 1], r.choices[n - 1], r.states[n]);
    }
  }
}
