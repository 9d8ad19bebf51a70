// The answer of naive_delete_min is right in hindsight: every smaller value was absent at some
// moment during the call, and when the call finds nothing every value was.

module FraserMinimum {
  import A = AtomicSet
  import opened FraserModel
  import opened FraserInvariant
  import opened FraserEffects
  import opened FraserRefinement
  import opened FraserRuns
  import opened FraserHindsight

  // A call that cannot pass over v any more unless v disappears.
  ghost predicate Chases(m: Memory, l: Local, v: nat) {
    match l
    case NaiveNext(first) => Ahead(m, first, v) && !Alive(m, first)
    case NaiveEnd(first) => Ahead(m, first, v)
    case NaiveFlag(first) => Ahead(m, first, v)
    case NaiveClaim(first) => Ahead(m, first, v)
    case _ => TookAtMost(PhaseOf(m, l), v)
  }

  predicate TookAtMost(p: A.Phase, v: nat) {
    p.Performed? && p.reply.Removed? && p.reply.v <= v
  }

  // ---------- another thread moves ----------

  lemma DeadKept(m: Memory, m': Memory, mine: set<nat>, n: nat)
    requires AllOk(m) && Guarantee(m, m', mine) && n in m.linked && !Alive(m, n)
    ensures !Alive(m', n)
  {
    LinkedKept(m, m', mine, n);
  }

  lemma OtherChases(m: Memory, chain: seq<nat>, m': Memory, mine: set<nat>, l: Local, v: nat)
    requires MemOk(m, chain) && LocalOk(m, l) && Guarantee(m, m', mine)
    requires Chases(m, l, v) && v in Values(m')
    ensures Chases(m', l, v)
  {
    hide Guarantee, Values, Alive, Ahead, AllOk, ChainOk, PhaseOf;
    if l.NaiveNext? || l.NaiveEnd? || l.NaiveFlag? || l.NaiveClaim? {
      AheadKept(m, chain, m', mine, l.first, v);
      if l.NaiveNext? { DeadKept(m, m', mine, l.first); }
    } else {
      PhaseKept(m, m', mine, l);
    }
  }

  // ---------- its own step ----------

  // The holder of v lies behind a node that is not alive.
  lemma AheadPast(m: Memory, a: nat, v: nat)
    requires Ahead(m, a, v) && !Alive(m, a)
    ensures Ahead(m, m.Next(a).to, v)
  {
    var x :| Holder(m, v, x) && Reaches(m, a, x);
    ReachesNext(m, a, x);
  }

  // What lies before the holder of v has no greater value.
  lemma AheadAtMost(m: Memory, a: nat, v: nat)
    requires AllOk(m) && a in m.linked && a != HEAD && Ahead(m, a, v)
    ensures m.Val(a) <= v < VAL_MAX && a != TAIL
  {
    var x :| Holder(m, v, x) && Reaches(m, a, x);
    assert NodeOk(m, x) && NodeOk(m, a);
    var k: nat :| ReachesIn(m, a, x, k);
    ReachesRank(m, a, x, k);
  }

  lemma ReadChases(m: Memory, chain: seq<nat>, l: Local, c: Choice, v: nat)
    requires MemOk(m, chain) && LocalOk(m, l) && Chases(m, l, v)
    requires l.NaiveNext? || l.NaiveEnd? || l.NaiveFlag?
    requires Exec(m, l, c).Next?
    ensures Exec(m, l, c).m == m && Chases(m, Exec(m, l, c).l, v)
  {
    hide ChainOk, Ahead, NodeOk;
    if l.NaiveNext? { AheadPast(m, l.first, v); }
  }

  lemma ClaimChases(m: Memory, chain: seq<nat>, first: nat, o: Outcome, mine: set<nat>, v: nat)
    requires MemOk(m, chain) && LocalOk(m, NaiveClaim(first)) && Ahead(m, first, v)
    requires o == DoNaiveClaim(m, first) && o.Next? && Guarantee(m, o.m, mine) && v in Values(o.m)
    ensures Chases(o.m, o.l, v)
  {
    hide ChainOk, Ahead, NodeOk, Guarantee, Values;
    if m.Deleted(first) != 0 {
      AheadKept(m, chain, o.m, mine, first, v);
    } else {
      AheadAtMost(m, first, v);
    }
  }

  lemma OwnChases(m: Memory, chain: seq<nat>, l: Local, c: Choice, o: Outcome, chain': seq<nat>, mine: set<nat>, v: nat)
    requires MemOk(m, chain) && LocalOk(m, l) && o == Exec(m, l, c) && Advanced(m, l, c, o, chain', mine)
    requires Chases(m, l, v) && !l.Leaving? && v in Values(o.m)
    ensures Chases(o.m, o.l, v)
  {
    hide MemOk, LocalOk, Exec, Values, Guarantee, Ahead, Alive, PrivateNode;
    if l.NaiveNext? || l.NaiveEnd? || l.NaiveFlag? {
      ReadChases(m, chain, l, c, v);
    } else if l.NaiveClaim? {
      ClaimIs(m, l, c);
      ClaimChases(m, chain, l.first, o, mine, v);
    } else {
      Took(m, l, c, o, chain', mine, v);
    }
  }

  lemma ClaimIs(m: Memory, l: Local, c: Choice)
    requires l.NaiveClaim?
    ensures Exec(m, l, c) == DoNaiveClaim(m, l.first)
  {
  }

  lemma Took(m: Memory, l: Local, c: Choice, o: Outcome, chain': seq<nat>, mine: set<nat>, v: nat)
    requires Advanced(m, l, c, o, chain', mine) && TookAtMost(PhaseOf(m, l), v) && !l.Leaving?
    ensures Chases(o.m, o.l, v)
  {
    hide MemOk, LocalOk, Values, Guarantee, PrivateNode;
  }

  lemma NotNull(m: Memory, chain: seq<nat>, v: nat)
    requires MemOk(m, chain)
    ensures !Ahead(m, NULL, v)
  {
    assert NULL !in m.linked by { assert NULL in m.linked ==> NodeOk(m, NULL); }
    assert forall x, k: nat :: ReachesIn(m, NULL, x, k) ==> x == NULL;
  }

  // ---------- runs ----------

  lemma StepChases(s: Machine, chain: seq<nat>, u: nat, c: Choice, s': Machine, t: nat, v: nat)
    requires Inv(s, chain) && Step(s, u, c, s') && t in s.threads
    requires Chases(s.mem, s.threads[t], v) && !(u == t && s.threads[t].Leaving?)
    requires v in Values(s'.mem)
    ensures t in s'.threads && Chases(s'.mem, s'.threads[t], v)
  {
    hide MemOk, LocalOk, Exec, Values, Guarantee, Chases, ChoiceOk;
    var chain', mine := ThreadStep(s.mem, chain, s.threads[u], c);
    if u != t {
      if s.threads[u] == NaiveEnd(NULL) { Unchanged(s.mem); mine := {}; }
      OtherChases(s.mem, chain, s'.mem, mine, s.threads[t], v);
    } else {
      NoCrash(s.mem, chain, s.threads[t], v);
      OwnChases(s.mem, chain, s.threads[t], c, Exec(s.mem, s.threads[t], c), chain', mine, v);
    }
  }

  lemma NoCrash(m: Memory, chain: seq<nat>, l: Local, v: nat)
    requires MemOk(m, chain) && Chases(m, l, v)
    ensures l != NaiveEnd(NULL)
  {
    hide MemOk, Ahead;
    NotNull(m, chain, v);
  }

  lemma FirstChases(s: Machine, chain: seq<nat>, t: nat, c: Choice, s': Machine, v: nat)
    requires Inv(s, chain) && Step(s, t, c, s') && s.threads[t] == Outside && c.op == A.DeleteMin
    requires v in Values(s'.mem)
    ensures Chases(s'.mem, s'.threads[t], v)
  {
    hide Values, ChoiceOk;
    var m := s.mem;
    assert s'.mem == m && s'.threads[t] == NaiveNext(HEAD);
    var x := HolderOf(m, v);
    HolderUnmarked(m, v, x);
    var j: nat :| j < |chain| && chain[j] == x;
    ChainReaches(m, chain, 0, j);
    assert Reaches(m, HEAD, x);
  }

  lemma {:induction false} StaysChasing(r: Run, t: nat, i: nat, j: nat, v: nat)
    requires r.Valid() && i < j < |r.states| && r.who[i] == t && r.Pc(i) == Outside && t in r.states[i].threads
    requires r.choices[i].op == A.DeleteMin && Inside(r, t, i, j)
    requires forall k :: i < k <= j ==> v in Values(r.states[k].mem)
    ensures Chases(r.states[j].mem, r.states[j].threads[t], v)
    decreases j - i
  {
    hide Step, Init, Values, Chases, Inv;
    var chain := RunInv(r, j - 1);
    if j == i + 1 {
      FirstChases(r.states[i], chain, t, r.choices[i], r.states[j], v);
    } else {
      StaysChasing(r, t, i, j - 1, v);
      StillInside(r.states[j - 1], r.who[j - 1], r.choices[j - 1], r.states[j], t);
      StepChases(r.states[j - 1], chain, r.who[j - 1], r.choices[j - 1], r.states[j], t, v);
    }
  }

  // A call of naive_delete_min that starts at state i and at state j is about to return a
  // value above v, or no value, or has followed the null pointer: at some state in between v
  // was not in the set.
  lemma SmallerWasAbsent(r: Run, t: nat, i: nat, j: nat, v: nat)
    requires r.Valid() && i < j < |r.states| && r.who[i] == t && r.Pc(i) == Outside && t in r.states[i].threads
    requires r.choices[i].op == A.DeleteMin && Inside(r, t, i, j)
    requires var l := r.states[j].threads[t];
      l == Crashed || l == Leaving(A.Unset) || (l.Leaving? && l.reply.Removed? && v < l.reply.v)
    ensures exists k :: i < k <= j && v !in Values(r.states[k].mem)
  {
    hide Step, Init, Values;
    if forall k :: i < k <= j ==> v in Values(r.states[k].mem) {
      StaysChasing(r, t, i, j, v);
    }
  }
}
