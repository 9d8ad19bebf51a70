// A thread that has swung the head and then runs alone, whatever the others had done until then:
// where restructure takes the head's upper pointers, and that nothing the head leads to is freed.

module PrioqReclaim {
  import opened PrioqParams
  import opened PrioqModel
  import opened PrioqInvariant
  import opened PrioqStability
  import opened PrioqLinearizable
  import opened PrioqHeights
  import opened PrioqAlone
  import opened PrioqRestructure
  import opened PrioqDeleteAlone
  import A = AtomicQueue

  // The state just after the successful swap of line 357.
  ghost predicate JustSwung(m: Memory, g: History, h: Ranks, t: nat, l: Local) {
    Good(m, g, h, t, l) && l.ReHead? && l.pred == HEAD && l.i == NUM_LEVELS - 1
  }

  // ---------- restructure ----------

  lemma {:induction false} ReachesReclaim(ms: Memory, m: Memory, g: History, h: Ranks, t: nat, l: Local, mo: int,
                                          cs: seq<Choice>, c0: map<nat, nat>)
    returns (n: nat, m': Memory, g': History, h': Ranks)
    requires Good(m, g, h, t, l) && Restructures(ms, m, l) && Progress(c0, A.DeleteMin, m, g, l)
    requires Allowed(m, l, mo, cs) && |cs| >= Need(h, l)
    ensures n <= |cs| && Solo(m, l, mo, cs[..n]) == Next(m', FreeRead(l.d, l.v, l.d.obs.node))
    ensures l.d.obs.Link? && Rebuilt(ms, m', 0) && Good(m', g', h', t, FreeRead(l.d, l.v, l.d.obs.node))
    ensures Solo(m, l, mo, cs) == Solo(m', FreeRead(l.d, l.v, l.d.obs.node), mo, cs[n..])
    ensures Allowed(m', FreeRead(l.d, l.v, l.d.obs.node), mo, cs[n..])
    ensures |cs[n..]| >= Need(h', FreeRead(l.d, l.v, l.d.obs.node))
    ensures Progress(c0, A.DeleteMin, m', g', FreeRead(l.d, l.v, l.d.obs.node))
    decreases |cs|
  {
    hide Good, Restructures, Progress, Exec, Need, ChoiceOk, Doomed, Rebuilt;
    if l.FreeRead? {
      n, m', g', h' := 0, m, g, h;
      AtReclaim(ms, m, l);
      assert cs[0..] == cs;
    } else {
      InsideRestructure(ms, m, l);
      StillNeeds(m, g, h, t, l);
      RestructureStep(ms, m, g, h, t, l, mo, cs[0]);
      var g1, h1 := AloneStep(m, g, h, t, l, mo, cs[0], c0, A.DeleteMin);
      var o := Exec(m, l, mo, cs[0]);
      var k;
      k, m', g', h' := ReachesReclaim(ms, o.m, g1, h1, t, o.l, mo, cs[1..], c0);
      n := k + 1;
      assert cs[..n][1..] == cs[1..][..k] && cs[1..][k..] == cs[n..];
    }
  }

  lemma AtReclaim(ms: Memory, m: Memory, l: Local)
    requires Restructures(ms, m, l) && l.FreeRead?
    ensures Rebuilt(ms, m, 0) && l.d.obs.Link? && l.cur == l.d.obs.node
  {
    hide Rebuilt;
  }

  lemma InsideRestructure(ms: Memory, m: Memory, l: Local)
    requires Restructures(ms, m, l) && !l.FreeRead?
    ensures Restructuring(l) && !Returning(l) && !Doomed(l) && l != Outside
    ensures l.ReSkip? ==> m.Next(l.pred, l.i) == Link(l.cur, false)
    ensures l.ReCas? ==> m.Next(HEAD, l.i) == Link(l.h, false)
  {
    hide Rebuilt, StartsAt, Walking;
  }

  lemma StillNeeds(m: Memory, g: History, h: Ranks, t: nat, l: Local)
    requires Good(m, g, h, t, l) && Restructuring(l)
    ensures Need(h, l) > 0
  {
    ReLevel(m, g, h, t, l);
    hide Good, Weight, Ahead;
  }

  lemma RestructureStep(ms: Memory, m: Memory, g: History, h: Ranks, t: nat, l: Local, mo: int, ch: Choice)
    requires Good(m, g, h, t, l) && Restructures(ms, m, l) && !l.FreeRead? && ChoiceOk(m, ch)
    ensures var o := Exec(m, l, mo, ch); o.Next? && Restructures(ms, o.m, o.l) && o.l.d == l.d && o.l.v == l.v && Need(h, o.l) < Need(h, l)
  {
    hide Good, Restructures, Exec, Need, ChoiceOk, Doomed;
    InsideRestructure(ms, m, l);
    CanGoOn(m, g, h, t, l, mo, ch);
    RestructureTurn(ms, m, l, mo, ch);
    RestructuresWhat(ms, m, l, mo, ch);
    RestructureNearer(m, g, h, t, l, mo, ch);
  }

  lemma CanGoOn(m: Memory, g: History, h: Ranks, t: nat, l: Local, mo: int, ch: Choice)
    requires Good(m, g, h, t, l) && ChoiceOk(m, ch) && !Doomed(l)
    ensures Exec(m, l, mo, ch).Next?
  {
    hide MemOk, ThreadOk, Ranked, Tall, Exec, ChoiceOk, Advanced;
    var g', mine := ThreadStep(m, g, t, l, mo, ch);
    AdvancedNext(m, g, t, l, EventOf(l, ch), Exec(m, l, mo, ch), g', mine);
  }

  lemma AdvancedNext(m: Memory, g: History, t: nat, l: Local, e: A.Event, o: Outcome, g': History, mine: Option<nat>)
    requires Advanced(m, g, t, l, e, o, g', mine)
    ensures o.Next?
  {
    hide MemOk, ThreadOk, Guarantee, Serves;
  }

  // ---------- reclamation ----------

  // Nothing but freed has changed since.
  ghost predicate Frees(mr: Memory, m: Memory, l: Local) {
    m.nodes == mr.nodes && (l.FreeRead? || (l.FreeNode? && m.Next(l.cur, 0) == Link(l.nxt, true)) || l.DelDone?)
  }

  lemma FreesOn(mr: Memory, m: Memory, l: Local, mo: int, ch: Choice)
    requires Frees(mr, m, l) && !l.DelDone? && Exec(m, l, mo, ch).Next?
    ensures var o := Exec(m, l, mo, ch); Frees(mr, o.m, o.l)
    ensures var o := Exec(m, l, mo, ch);
      if l.FreeRead? then o.l.DelDone? || (o.l.FreeNode? && o.l.cur == l.cur) else o.l == FreeRead(l.d, l.v, l.nxt)
  {
  }

  lemma {:induction false} FreesAlone(mr: Memory, m: Memory, g: History, h: Ranks, t: nat, l: Local, mo: int, cs: seq<Choice>, c0: map<nat, nat>)
    returns (g': History)
    requires Good(m, g, h, t, l) && Frees(mr, m, l) && Progress(c0, A.DeleteMin, m, g, l)
    requires Allowed(m, l, mo, cs) && |cs| >= Need(h, l)
    ensures var o := Solo(m, l, mo, cs); o.Next? && o.l.DelDone? && o.m.nodes == mr.nodes && MemOk(o.m, g')
    decreases |cs|
  {
    hide Good, Progress, Exec, Need, ChoiceOk, Doomed, MemOk;
    if l.DelDone? {
      g' := g;
      GoodMem(m, g, h, t, l);
    } else {
      FreeingNeeds(h, l);
      var g1, h1 := AloneStep(m, g, h, t, l, mo, cs[0], c0, A.DeleteMin);
      FreesOn(mr, m, l, mo, cs[0]);
      var o := Exec(m, l, mo, cs[0]);
      FreeNearer(m, g, h, t, l, o.l);
      g' := FreesAlone(mr, o.m, g1, h1, t, o.l, mo, cs[1..], c0);
    }
  }

  lemma FreeingNeeds(h: Ranks, l: Local)
    requires l.FreeRead? || l.FreeNode?
    ensures Need(h, l) > 0 && !Doomed(l) && !Returning(l)
  {
    hide Ahead;
  }

  lemma GoodMem(m: Memory, g: History, h: Ranks, t: nat, l: Local)
    requires Good(m, g, h, t, l)
    ensures MemOk(m, g)
  {
  }

  // A node whose own pointer is not marked, and to which the head leads, has not been freed.
  lemma LiveNotFreed(m: Memory, g: History, i: nat)
    requires MemOk(m, g) && i < NUM_LEVELS && (i > 0 ==> !Dead(m, After(m, i, HEAD)))
    ensures m.Next(HEAD, i).Link? && m.Next(HEAD, i).node !in m.freed
  {
    var n := m.Next(HEAD, i).node;
    if i > 0 { assert UpperOk(m, g, HEAD, i); }
    PassedDead(m, g, n);
  }

  lemma PassedDead(m: Memory, g: History, n: nat)
    requires MemOk(m, g)
    ensures n in g.pos && g.pos[n] < |g.claim| ==> Dead(m, n)
  {
    if n in g.pos { assert m.Next(g.dead[g.pos[n]], 0) == g.DeadLink(g.pos[n]); }
  }

  // ---------- from the swing to the return ----------

  // From any state in which a thread has just swung the head: running alone, it comes to the
  // reclamation loop, where only the head's upper pointers have changed and each leads where Lands
  // says, to a node whose own pointer is not marked; it returns, having changed no pointer more,
  // and then no pointer of the head, on any level, leads to a freed node.  It takes at most 64 steps
  // a node and 188 more.
  lemma SwingAlone(m: Memory, g: History, h: Ranks, t: nat, l: Local, mo: int, cs: seq<Choice>, c0: map<nat, nat>)
    returns (n: nat, mr: Memory)
    requires JustSwung(m, g, h, t, l) && Progress(c0, A.DeleteMin, m, g, l)
    requires Allowed(m, l, mo, cs) && |cs| >= 64 * |m.nodes| + 188
    ensures n <= |cs| && l.d.obs.Link? && Solo(m, l, mo, cs[..n]) == Next(mr, FreeRead(l.d, l.v, l.d.obs.node))
    ensures mr == m.(nodes := mr.nodes) && HeadRebuilt(m, mr)
    ensures var o := Solo(m, l, mo, cs); o.Next? && o.l.DelDone? && o.m.nodes == mr.nodes && HeadSafe(o.m)
  {
    hide Progress, Need, Solo, Allowed;
    SwingNeed(m, g, h, t, l);
    SwungStarts(m, g, h, t, l);
    var g', h';
    n, mr, g', h' := ReachesReclaim(m, m, g, h, t, l, mo, cs, c0);
    RebuiltHead(m, mr);
    var g1 := FreesAlone(mr, mr, g', h', t, FreeRead(l.d, l.v, l.d.obs.node), mo, cs[n..], c0);
    Safe(m, mr, Solo(m, l, mo, cs).m, g1);
  }

  ghost predicate HeadRebuilt(m: Memory, m': Memory) {
    && (forall x, j :: x != HEAD || j == 0 ==> m'.Next(x, j) == m.Next(x, j))
    && (forall j :: 0 < j < NUM_LEVELS ==> RebuiltAt(m, m', j) && !Dead(m, After(m', j, HEAD)))
  }

  ghost predicate HeadSafe(m: Memory) {
    forall i :: 0 <= i < NUM_LEVELS ==> m.Next(HEAD, i).Link? && m.Next(HEAD, i).node !in m.freed
  }

  lemma SwingNeed(m: Memory, g: History, h: Ranks, t: nat, l: Local)
    requires JustSwung(m, g, h, t, l)
    ensures Need(h, l) <= 64 * |m.nodes| + 188
  {
    hide Weight, Ahead, Rank;
    HeadOn(m, h, NUM_LEVELS - 1);
    RanksAre(m, h);
    LevelNeed(h, NUM_LEVELS - 1, HEAD);
    WeightBound(m, h, NUM_LEVELS);
  }

  lemma SwungStarts(m: Memory, g: History, h: Ranks, t: nat, l: Local)
    requires JustSwung(m, g, h, t, l)
    ensures Restructures(m, m, l) && Good(m, g, h, t, l)
  {
    assert HEAD in m.nodes;
    StartsRebuilt(m);
    hide Rebuilt, Good;
  }

  lemma RebuiltHead(m: Memory, m': Memory)
    requires Rebuilt(m, m', 0)
    ensures m' == m.(nodes := m'.nodes) && HeadRebuilt(m, m')
  {
    hide Lands, Dead;
    forall j | 0 < j < NUM_LEVELS ensures !Dead(m, After(m', j, HEAD)) {
      assert RebuiltAt(m, m', j);
      LandsLive(m, j, m'.Next(HEAD, j).node);
    }
  }

  lemma Safe(m: Memory, mr: Memory, m': Memory, g: History)
    requires HeadRebuilt(m, mr) && m'.nodes == mr.nodes && MemOk(m', g)
    ensures HeadSafe(m')
  {
    hide MemOk;
    forall i | 0 <= i < NUM_LEVELS ensures m'.Next(HEAD, i).Link? && m'.Next(HEAD, i).node !in m'.freed {
      assert i > 0 ==> RebuiltAt(m, mr, i) && m'.Next(HEAD, i) == mr.Next(HEAD, i);
      LiveNotFreed(m', g, i);
    }
  }
}
