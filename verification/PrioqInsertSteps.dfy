// Each step of insert keeps the invariant and never faults.

module PrioqInsertSteps {
  import opened PrioqParams
  import opened PrioqModel
  import opened PrioqInvariant
  import opened PrioqStability
  import opened PrioqEffects
  import opened PrioqLevelZero

  // What a level-i pointer of the head or a linked node leads to.
  lemma ReadTarget(m: Memory, g: History, x: nat, i: nat)
    requires MemOk(m, g)
    requires (x == HEAD || g.Linked(x)) && m.Next(x, i).Link?
    ensures HasLevel(m, g, m.Next(x, i).node, i)
    ensures i == 0 && m.Next(x, 0).marked ==> m.Next(x, 0).node in g.pos
    ensures i > 0 ==> !m.Next(x, i).marked && m.Next(x, i - 1).Link?
  {
    assert UpperOk(m, g, x, i);
    if i == 0 {
      LevelZeroTarget(m, g, x);
    }
  }

  lemma LinkedHasNext(m: Memory, g: History, x: nat)
    requires MemOk(m, g)
    requires g.Linked(x)
    ensures m.Next(x, 0).Link?
  {
    if x in g.pos {
      assert m.Next(g.dead[g.pos[x]], 0) == g.DeadLink(g.pos[x]);
    } else {
      var j :| 0 <= j < |g.live| && g.live[j] == x;
      assert m.Next(g.live[j], 0) == Link(g.LiveAt(j + 1), false);
    }
  }

  lemma LevelZeroTarget(m: Memory, g: History, x: nat)
    requires MemOk(m, g)
    requires x == HEAD || g.Linked(x)
    ensures m.Next(x, 0).Link?
    ensures HasLevel(m, g, m.Next(x, 0).node, 0)
    ensures m.Next(x, 0).marked ==> m.Next(x, 0).node in g.pos
  {
    if x == HEAD {
    } else if x in g.pos {
      assert m.Next(g.dead[g.pos[x]], 0) == g.DeadLink(g.pos[x]);
    } else {
      var j :| 0 <= j < |g.live| && g.live[j] == x;
      assert m.Next(g.live[j], 0) == Link(g.LiveAt(j + 1), false);
    }
    var y := m.Next(x, 0).node;
    if y != TAIL {
      assert g.Linked(y);
      LinkedHasNext(m, g, y);
    }
  }

  lemma AllocStep(m: Memory, g: History, t: nat, k: nat, v: nat, id: nat, level: nat)
    requires MemOk(m, g)
    requires KEYMIN < k < KEYS
    requires id !in m.nodes && 1 <= level <= NUM_LEVELS
    ensures var o := DoAlloc(m, k, v, id, level);
            && o.Next?
            && MemOk(o.m, g) && InsertOk(o.m, g, o.l)
            && Guarantee(m, g, o.m, g, t, Some(id)) && SameContents(m, g, o.m, g)
            && o.l.LocateRead? && o.l.up == 0 && o.l.a.new_ == id && o.l.a.k == k && o.l.a.v == v
  {
    var o := DoAlloc(m, k, v, id, level);
    assert g.Linked(id) ==> NodeOk(m, id);
    assert forall i :: o.m.Next(id, i) == Null;
    assert forall i :: m.Next(id, i) == Null;
    assert o.m.nodes[id].next == seq(level, j => Null);
    UnlinkedEdit(m, g, o.m, t, id);
    assert id !in m.freed;
  }

  lemma StartLocateOk(m: Memory, g: History, a: Ins, up: nat)
    requires MemOk(m, g)
    requires NewOk(m, g, a, up) && LocatedOk(m, g, a)
    ensures InsertOk(m, g, StartLocate(a, up))
  {
    assert LocatedOk(m, g, a.(del := None));
    if up > 0 { assert NodeOk(m, a.new_); }
  }

  lemma LocateReadStep(m: Memory, g: History, a: Ins, up: nat, x: nat, i: nat)
    requires MemOk(m, g)
    requires InsertOk(m, g, LocateRead(a, up, x, i)) && !BehindTail(a, up, x, i)
    ensures var o := DoLocateRead(m, a, up, x, i);
            o.Next? && o.m == m && InsertOk(m, g, o.l) && o.l.LocateTest? && o.l.a == a && o.l.up == up
  {
    ReadTarget(m, g, x, i);
  }

  lemma CanReadZero(m: Memory, g: History, n: nat, i: nat)
    requires MemOk(m, g)
    requires n == HEAD || HasLevel(m, g, n, i)
    ensures m.CanRead(n, 0)
  {
    if n != HEAD && n != TAIL { assert NodeOk(m, n); }
  }

  // The loop condition of line 135 moves locate_preds on only over nodes behind
  // which k belongs; when it fails the successor's key is at least k.
  lemma LocateTestStep(m: Memory, g: History, a: Ins, up: nat, x: nat, i: nat, xn: nat, mk: bool)
    requires MemOk(m, g)
    requires InsertOk(m, g, LocateTest(a, up, x, i, xn, mk))
    ensures var o := DoLocateTest(m, a, up, x, i, xn, mk);
            && o.Next? && o.m == m && InsertOk(m, g, o.l)
            && (o.l.LocateRead? ==> o.l.a.new_ == a.new_ && o.l.a.k == a.k && o.l.a.v == a.v && o.l.up == up)
            && (!o.l.LocateRead? && up == 0 ==> (o.l.DupMark? || o.l.Prepare?) && o.l.a.new_ == a.new_ && o.l.a.k == a.k && o.l.a.v == a.v)
            && (!o.l.LocateRead? && up > 0 ==> o.l.Finish? || o.l.UpNew?)
  {
    CanReadZero(m, g, xn, i);
    if m.Key(xn) < a.k || m.Next(xn, 0).Marked() || (i == 0 && mk) {
      LocateAdvance(m, g, a, up, i, xn, if i == 0 && mk then a.(del := Some(xn)) else a);
    } else {
      LocateRecord(m, g, a, up, x, i, xn);
    }
  }

  lemma SuccKey(m: Memory, g: History, k: nat, n: nat, i: nat)
    requires MemOk(m, g) && SuccOk(m, g, k, n, i)
    ensures if n == TAIL then k <= KEYMAX == m.Key(n) else k < KEYMAX
  {
    if n != TAIL { assert NodeOk(m, n); }
  }

  // Only the tail ends the search for a key that is too large, and no level is ever found for it.
  lemma TooLarge(m: Memory, g: History, a: Ins, up: nat, i: nat)
    requires MemOk(m, g)
    requires NewOk(m, g, a, up) && LocatedOk(m, g, a) && FilledFrom(a, i + 1) && i < NUM_LEVELS && a.k > KEYMAX
    ensures up == 0 && i == NUM_LEVELS - 1
  {
    if i + 1 < NUM_LEVELS { SuccKey(m, g, a.k, a.succs[i + 1], i + 1); }
  }

  lemma LocateAdvance(m: Memory, g: History, a: Ins, up: nat, i: nat, xn: nat, a': Ins)
    requires MemOk(m, g)
    requires NewOk(m, g, a, up) && LocatedOk(m, g, a) && FilledFrom(a, i + 1) && i < NUM_LEVELS
    requires HasLevel(m, g, xn, i)
    requires m.Key(xn) < a.k || m.Next(xn, 0).Marked() || xn in g.pos
    requires a' == a.(del := a'.del)
    ensures InsertOk(m, g, LocateRead(a', up, xn, i))
  {
    HeadNotDead(m, g);
    assert LocatedOk(m, g, a');
    if xn == TAIL { TooLarge(m, g, a, up, i); }
  }

  lemma RecordedOk(m: Memory, g: History, a: Ins, x: nat, i: nat, xn: nat)
    requires LocatedOk(m, g, a) && PredOk(m, g, a.k, x, i) && SuccOk(m, g, a.k, xn, i)
    ensures LocatedOk(m, g, a.(preds := a.preds[i := x], succs := a.succs[i := xn]))
  {
    var a' := a.(preds := a.preds[i := x], succs := a.succs[i := xn]);
    forall j | j in a'.preds ensures PredOk(m, g, a.k, a'.preds[j], j) { if j != i { assert PredOk(m, g, a.k, a.preds[j], j); } }
    forall j | j in a'.succs ensures SuccOk(m, g, a.k, a'.succs[j], j) { if j != i { assert SuccOk(m, g, a.k, a.succs[j], j); } }
  }

  lemma AfterLocateOk(m: Memory, g: History, a: Ins, up: nat)
    requires NewOk(m, g, a, up) && ReadyOk(m, g, a)
    ensures InsertOk(m, g, AfterLocate(m, a, up))
  {
  }

  lemma NextDown(m: Memory, g: History, a: Ins, up: nat, x: nat, i: nat)
    requires NewOk(m, g, a, up) && LocatedOk(m, g, a) && FilledFrom(a, i + 1) && i < NUM_LEVELS && PredOk(m, g, a.k, x, i)
    ensures InsertOk(m, g, LocateRead(a, up, x, i))
  {
  }

  lemma SameNew(m: Memory, g: History, a: Ins, a': Ins, up: nat)
    requires NewOk(m, g, a, up) && a'.new_ == a.new_ && a'.k == a.k && a'.v == a.v
    ensures NewOk(m, g, a', up)
  {
  }

  lemma LocateRecord(m: Memory, g: History, a: Ins, up: nat, x: nat, i: nat, xn: nat)
    requires MemOk(m, g)
    requires NewOk(m, g, a, up) && LocatedOk(m, g, a) && FilledFrom(a, i + 1) && i < NUM_LEVELS && PredOk(m, g, a.k, x, i)
    requires HasLevel(m, g, xn, i) && m.Key(xn) >= a.k
    ensures var a' := a.(preds := a.preds[i := x], succs := a.succs[i := xn]);
            InsertOk(m, g, if i == 0 then AfterLocate(m, a', up) else LocateRead(a', up, x, i - 1))
  {
    var a' := a.(preds := a.preds[i := x], succs := a.succs[i := xn]);
    RecordedOk(m, g, a, x, i, xn);
    SameNew(m, g, a, a', up);
    hide LocatedOk, NewOk, HasLevel, InsertOk;
    if i == 0 {
      AfterLocateOk(m, g, a', up);
    } else {
      ReadTarget(m, g, x, i);
      NextDown(m, g, a', up, x, i - 1);
    }
  }

  lemma DupMarkStep(m: Memory, g: History, a: Ins)
    requires MemOk(m, g)
    requires InsertOk(m, g, DupMark(a))
    ensures var o := DoDupMark(m, a);
            o.Next? && o.m == m && InsertOk(m, g, o.l) && (o.l == Prepare(a) || o.l == DupSame(a))
  {
    assert PredOk(m, g, a.k, a.preds[0], 0);
  }

  // The duplicate return: at the read of line 184 the key is present, or it is the sentinel's.
  lemma DupSameStep(m: Memory, g: History, a: Ins)
    requires MemOk(m, g)
    requires InsertOk(m, g, DupSame(a))
    ensures var o := DoDupSame(m, a);
            && o.Next? && o.m == m && InsertOk(m, g, o.l)
            && (o.l == Prepare(a) || (o.l == DupClear(a) && (a.k == KEYMAX || a.k in Contents(m, g.live))))
  {
    assert PredOk(m, g, a.k, a.preds[0], 0);
    SuccKey(m, g, a.k, a.succs[0], 0);
    if a.succs[0] != TAIL && m.Next(a.preds[0], 0) == Link(a.succs[0], false) {
      var j := FindSlot(m, g, a.preds[0], a.succs[0]);
      assert j < |g.live|;
      ContentsAt(m, g.live, j);
    }
  }

  lemma DupClearStep(m: Memory, g: History, t: nat, a: Ins)
    requires MemOk(m, g)
    requires InsertOk(m, g, DupClear(a))
    ensures var o := DoDupClear(m, a);
            && o.Next? && o.l == DupFree(a) && InsertOk(o.m, g, o.l)
            && MemOk(o.m, g) && Guarantee(m, g, o.m, g, t, Some(a.new_)) && SameContents(m, g, o.m, g)
  {
    var o := DoDupClear(m, a);
    assert forall i :: o.m.Next(a.new_, i) == m.Next(a.new_, i);
    UnlinkedEdit(m, g, o.m, t, a.new_);
  }

  lemma PreparedOk(m: Memory, g: History, m': Memory, a: Ins)
    requires SentinelsOk(m) && NodesOk(m, g)
    requires InsertOk(m, g, Prepare(a)) && m.CanRead(a.new_, 0)
    requires m' == m.Write(a.new_, 0, Link(a.succs[0], false))
    requires forall n :: NodeKept(m, m', n)
    requires forall n, i :: LinkKept(m, m', n, i)
    requires forall p :: PointerKept(m, g, m', p)
    ensures InsertOk(m', g, LinkCas(a))
  {
    assert forall i :: i != 0 ==> m'.Next(a.new_, i) == m.Next(a.new_, i);
    LocatedStable(m, g, m', g, a);
    MovedOnStable(m, g, m', g, a);
  }

  lemma PrepareStep(m: Memory, g: History, t: nat, a: Ins)
    requires MemOk(m, g)
    requires InsertOk(m, g, Prepare(a))
    ensures var o := DoPrepare(m, a);
            && o.Next? && o.l == LinkCas(a) && InsertOk(o.m, g, o.l)
            && MemOk(o.m, g) && Guarantee(m, g, o.m, g, t, Some(a.new_)) && SameContents(m, g, o.m, g)
  {
    var o := DoPrepare(m, a);
    assert forall i :: i != 0 ==> o.m.Next(a.new_, i) == m.Next(a.new_, i);
    UnlinkedEdit(m, g, o.m, t, a.new_);
    PreparedOk(m, g, o.m, a);
  }

  lemma LinkFailStep(m: Memory, g: History, a: Ins)
    requires MemOk(m, g)
    requires InsertOk(m, g, LinkCas(a))
    requires m.Next(a.preds[0], 0) != Link(a.succs[0], false)
    ensures var o := DoLinkCas(m, a);
            o.Next? && o.m == m && InsertOk(m, g, o.l)
            && o.l.LocateRead? && o.l.up == 0 && o.l.a.new_ == a.new_ && o.l.a.k == a.k && o.l.a.v == a.v
  {
    assert PredOk(m, g, a.k, a.preds[0], 0);
    StartLocateOk(m, g, a, 0);
  }

  lemma UpLoopOk(m: Memory, g: History, a: Ins, i: nat)
    requires PublishedOk(m, g, a, i) && ReadyOk(m, g, a)
    ensures InsertOk(m, g, UpLoop(m, a, i))
    ensures PrivateNode(UpLoop(m, a, i)) == None
  {
  }

  // The sentinel's key, and any larger one, never gets as far as a successful swap.
  lemma LinkKey(m: Memory, g: History, a: Ins)
    requires MemOk(m, g)
    requires InsertOk(m, g, LinkCas(a))
    requires m.Next(a.preds[0], 0) == Link(a.succs[0], false)
    ensures a.k < KEYMAX && NodeOk(m, a.new_)
  {
    SuccKey(m, g, a.k, a.succs[0], 0);
  }

  lemma LinkStep(m: Memory, g: History, t: nat, a: Ins) returns (g': History)
    requires MemOk(m, g)
    requires InsertOk(m, g, LinkCas(a))
    requires m.Next(a.preds[0], 0) == Link(a.succs[0], false)
    ensures var o := DoLinkCas(m, a);
            && o.Next? && MemOk(o.m, g') && InsertOk(o.m, g', o.l) && (o.l.UpNew? || o.l.Finish?)
            && a.k < KEYMAX && g'.claim == g.claim
            && Guarantee(m, g, o.m, g', t, Some(a.new_))
            && a.k !in Contents(m, g.live)
            && Contents(o.m, g'.live) == Contents(m, g.live)[a.k := a.v]
  {
    var o := DoLinkCas(m, a);
    assert PredOk(m, g, a.k, a.preds[0], 0);
    LinkKey(m, g, a);
    g' := LinkEffect(m, g, a, o.m, t);
    LocatedStable(m, g, o.m, g', a);
    LinkedHasNext(o.m, g', a.new_);
    assert o.m.nodes[a.new_].level == m.nodes[a.new_].level by { assert NodeKept(m, o.m, a.new_); }
    UpLoopOk(o.m, g', a, 1);
  }

  lemma UpNewStep(m: Memory, g: History, a: Ins, i: nat)
    requires MemOk(m, g)
    requires InsertOk(m, g, UpNew(a, i))
    ensures var o := DoUpNew(m, a, i);
            o.Next? && o.m == m && InsertOk(m, g, o.l) && (o.l.Finish? || o.l.UpSucc?)
  {
    assert NodeOk(m, a.new_);
  }

  lemma UpSuccStep(m: Memory, g: History, a: Ins, i: nat)
    requires MemOk(m, g)
    requires InsertOk(m, g, UpSucc(a, i))
    ensures var o := DoUpSucc(m, a, i);
            o.Next? && o.m == m && InsertOk(m, g, o.l) && (o.l.Finish? || o.l.UpPrepare?)
  {
    assert NodeOk(m, a.new_);
    assert SuccOk(m, g, a.k, a.succs[i], i);
    CanReadZero(m, g, a.succs[i], i);
  }

  lemma UpPrepareStep(m: Memory, g: History, t: nat, a: Ins, i: nat)
    requires MemOk(m, g)
    requires InsertOk(m, g, UpPrepare(a, i))
    ensures var o := DoUpPrepare(m, a, i);
            && o.Next? && o.l == UpCas(a, i) && InsertOk(o.m, g, o.l)
            && MemOk(o.m, g) && Guarantee(m, g, o.m, g, t, None) && SameContents(m, g, o.m, g)
  {
    var o := DoUpPrepare(m, a, i);
    assert NodeOk(m, a.new_);
    assert SuccOk(m, g, a.k, a.succs[i], i);
    UpperWrite(m, g, o.m, t, a.new_, i, a.succs[i]);
    LocatedStable(m, g, o.m, g, a);
  }

  lemma UpLinkedOk(m: Memory, g: History, m': Memory, a: Ins, i: nat)
    requires SentinelsOk(m) && NodesOk(m, g)
    requires InsertOk(m, g, UpCas(a, i))
    requires forall n :: NodeKept(m, m', n)
    requires forall n, i :: LinkKept(m, m', n, i)
    ensures InsertOk(m', g, UpLoop(m, a, i + 1))
    ensures UpLoop(m, a, i + 1).UpNew? || UpLoop(m, a, i + 1).Finish?
  {
    LocatedStable(m, g, m', g, a);
    assert LinkKept(m, m', a.new_, i);
    assert NodeOk(m, a.new_);
    assert NodeKept(m, m', a.new_);
  }

  lemma UpCasStep(m: Memory, g: History, t: nat, a: Ins, i: nat)
    requires MemOk(m, g)
    requires InsertOk(m, g, UpCas(a, i))
    requires m.Next(a.preds[i], i) == Link(a.succs[i], false)
    ensures var o := DoUpCas(m, a, i);
            && o.Next? && InsertOk(o.m, g, o.l) && (o.l.Finish? || o.l.UpNew?)
            && MemOk(o.m, g) && Guarantee(m, g, o.m, g, t, None) && SameContents(m, g, o.m, g)
  {
    var o := DoUpCas(m, a, i);
    assert PredOk(m, g, a.k, a.preds[i], i);
    ReadTarget(m, g, a.preds[i], i);
    UpperWrite(m, g, o.m, t, a.preds[i], i, a.new_);
    UpLinkedOk(m, g, o.m, a, i);
  }

  lemma UpFailStep(m: Memory, g: History, a: Ins, i: nat)
    requires MemOk(m, g)
    requires InsertOk(m, g, UpCas(a, i))
    requires m.Next(a.preds[i], i) != Link(a.succs[i], false)
    ensures var o := DoUpCas(m, a, i);
            o.Next? && o.m == m && InsertOk(m, g, o.l) && o.l.LocateRead? && o.l.up > 0
  {
    assert NodeOk(m, a.new_);
    assert PredOk(m, g, a.k, a.preds[i], i);
    ReadTarget(m, g, a.new_, i);
    StartLocateOk(m, g, a, i);
  }

  // A step that only reads.
  lemma NothingHappened(m: Memory, g: History, t: nat)
    requires MemOk(m, g)
    ensures Guarantee(m, g, m, g, t, None) && SameContents(m, g, m, g)
  {
    PointersSame(m, g, m);
    PrivatesSame(m, g, m, g, None);
  }

  lemma FinishStep(m: Memory, g: History, t: nat, a: Ins)
    requires MemOk(m, g)
    requires InsertOk(m, g, Finish(a))
    ensures var o := DoFinish(m, a);
            && o.Next? && o.l == InsDone
            && MemOk(o.m, g) && Guarantee(m, g, o.m, g, t, None) && SameContents(m, g, o.m, g)
  {
    assert NodeOk(m, a.new_);
    FinishEffect(m, g, DoFinish(m, a).m, t, a.new_);
  }
}
