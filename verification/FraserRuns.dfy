// Whole runs of the machine in FraserModel: linearizability of what its operations achieve,
// the shape of the bottom level, single winners, conservation, and the one way it fails.

module FraserRuns {
  import opened FraserModel
  import opened FraserInvariant
  import opened FraserEffects
  import opened FraserRefinement
  import A = AtomicSet

  // ---------- the invariant ----------

  ghost predicate Owners(threads: map<nat, Local>) {
    forall t, u :: t in threads && u in threads && t != u ==> PrivateNode(threads[t]) !! PrivateNode(threads[u])
  }

  ghost predicate Inv(s: Machine, chain: seq<nat>) {
    && MemOk(s.mem, chain)
    && (forall t :: t in s.threads ==> LocalOk(s.mem, s.threads[t]))
    && Owners(s.threads)
  }

  ghost function Abstract(s: Machine): A.State {
    A.State(Values(s.mem), map t | t in s.threads :: PhaseOf(s.mem, s.threads[t]))
  }

  lemma InitInv(s: Machine)
    requires Init(s)
    ensures Inv(s, [HEAD, TAIL])
    ensures A.Init(Abstract(s))
  {
    var m, chain := s.mem, [HEAD, TAIL];
    assert NodeOk(m, HEAD) && NodeOk(m, TAIL);
    assert Leads(m, chain, 0);
    assert Values(m) == {};
  }

  lemma PrivateKnown(m: Memory, l: Local)
    requires LocalOk(m, l)
    ensures forall n :: n in PrivateNode(l) ==> n in m.nodes
  {
  }

  lemma OtherKept(s: Machine, chain: seq<nat>, t: nat, o: Outcome, chain': seq<nat>, mine: set<nat>, c: Choice, u: nat)
    requires Inv(s, chain) && t in s.threads && u in s.threads && u != t
    requires Advanced(s.mem, s.threads[t], c, o, chain', mine)
    ensures LocalOk(o.m, s.threads[u])
    ensures PrivateNode(s.threads[u]) !! PrivateNode(o.l)
    ensures PhaseOf(o.m, s.threads[u]) == PhaseOf(s.mem, s.threads[u])
  {
    hide AllOk, ChainOk, LocalOk, Guarantee;
    PrivateKnown(s.mem, s.threads[u]);
    LocalKept(s.mem, o.m, mine, s.threads[u]);
    PhaseKept(s.mem, o.m, mine, s.threads[u]);
  }

  // Crashing is the only step that is not the code's next access.
  ghost predicate Crash(s: Machine, t: nat) {
    t in s.threads && s.threads[t] == NaiveEnd(NULL)
  }

  ghost predicate Extends(s: Machine, t: nat, c: Choice, s': Machine) {
    && t in s.threads
    && A.Step(Abstract(s), t, EventOf(s.threads[t], c), Abstract(s'))
    && Guaranteed(s.mem, s'.mem)
  }

  ghost predicate Guaranteed(m: Memory, m': Memory) {
    exists mine :: Guarantee(m, m', mine)
  }

  // The new state, put together from what thread t and the others know.
  lemma Assembled(s: Machine, chain: seq<nat>, t: nat, c: Choice, s': Machine, chain': seq<nat>)
    requires Inv(s, chain) && t in s.threads && t in s'.threads && s'.threads == s.threads[t := s'.threads[t]]
    requires MemOk(s'.mem, chain') && LocalOk(s'.mem, s'.threads[t]) && Guaranteed(s.mem, s'.mem)
    requires forall u :: u in s.threads && u != t ==>
      && LocalOk(s'.mem, s.threads[u])
      && PrivateNode(s.threads[u]) !! PrivateNode(s'.threads[t])
      && PhaseOf(s'.mem, s.threads[u]) == PhaseOf(s.mem, s.threads[u])
    requires A.StepPhase(Values(s.mem), PhaseOf(s.mem, s.threads[t]), EventOf(s.threads[t], c),
                       Values(s'.mem), PhaseOf(s'.mem, s'.threads[t]))
    ensures Inv(s', chain') && Extends(s, t, c, s')
  {
    hide MemOk, LocalOk, PhaseOf, Values, Guaranteed, PrivateNode, A.StepPhase, EventOf;
    assert Abstract(s').phases == Abstract(s).phases[t := PhaseOf(s'.mem, s'.threads[t])];
  }

  lemma MachineStep(s: Machine, chain: seq<nat>, t: nat, c: Choice, s': Machine) returns (chain': seq<nat>)
    requires Inv(s, chain) && Step(s, t, c, s')
    ensures Inv(s', chain') && Extends(s, t, c, s')
  {
    hide MemOk, LocalOk, Exec, PhaseOf, Values, Guarantee, PrivateNode, A.StepPhase, EventOf, ChoiceOk, Extends;
    var mine;
    chain', mine := ThreadStep(s.mem, chain, s.threads[t], c);
    if Crash(s, t) {
      chain' := chain;
      Unchanged(s.mem);
      CrashPhase(s.mem, c);
    } else {
      forall u | u in s.threads && u != t
        ensures LocalOk(s'.mem, s.threads[u])
        ensures PrivateNode(s.threads[u]) !! PrivateNode(s'.threads[t])
        ensures PhaseOf(s'.mem, s.threads[u]) == PhaseOf(s.mem, s.threads[u])
      {
        OtherKept(s, chain, t, Exec(s.mem, s.threads[t], c), chain', mine, c, u);
      }
    }
    Assembled(s, chain, t, c, s', chain');
  }

  lemma CrashPhase(m: Memory, c: Choice)
    ensures LocalOk(m, Crashed) && PrivateNode(Crashed) == {}
    ensures A.StepPhase(Values(m), PhaseOf(m, NaiveEnd(NULL)), EventOf(NaiveEnd(NULL), c), Values(m), PhaseOf(m, Crashed))
  {
  }

  // ---------- runs ----------

  // A run visits states[0..], thread who[i] moving from states[i] to states[i + 1].
  datatype Run = Run(states: seq<Machine>, who: seq<nat>, choices: seq<Choice>) {

    ghost predicate Valid() {
      && |states| > 0 && |who| == |choices| == |states| - 1
      && Init(states[0])
      && forall i :: 0 <= i < |who| ==> Step(states[i], who[i], choices[i], states[i + 1])
    }

    // The access that step i makes.
    function Pc(i: nat): Local
      requires i < |who| < |states|
    {
      if who[i] in states[i].threads then states[i].threads[who[i]] else Outside
    }
  }

  lemma {:induction false} RunInv(r: Run, i: nat) returns (chain: seq<nat>)
    requires r.Valid() && i < |r.states|
    ensures Inv(r.states[i], chain)
    ensures i < |r.who| ==> Extends(r.states[i], r.who[i], r.choices[i], r.states[i + 1])
  {
    hide Inv, Extends, Step, Init;
    if i == 0 {
      InitInv(r.states[0]);
      chain := [HEAD, TAIL];
    } else {
      var before := RunInv(r, i - 1);
      chain := MachineStep(r.states[i - 1], before, r.who[i - 1], r.choices[i - 1], r.states[i]);
    }
    if i < |r.who| {
      var _ := MachineStep(r.states[i], chain, r.who[i], r.choices[i], r.states[i + 1]);
    }
  }

  // Every run, of any number of threads, is a run of the atomic set with the same calls and
  // replies: an insertion adds an absent value or is refused at a moment when the value is
  // present, and every claim removes a present value and reports that value.
  lemma Linearizable(r: Run)
    requires r.Valid()
    ensures A.Init(Abstract(r.states[0]))
    ensures forall i :: 0 <= i < |r.who| ==>
      A.Step(Abstract(r.states[i]), r.who[i], EventOf(r.Pc(i), r.choices[i]), Abstract(r.states[i + 1]))
  {
    InitInv(r.states[0]);
    hide A.Step, A.Init, Step, Init, Abstract, Inv, EventOf;
    forall i | 0 <= i < |r.who|
      ensures A.Step(Abstract(r.states[i]), r.who[i], EventOf(r.Pc(i), r.choices[i]), Abstract(r.states[i + 1]))
    {
      var _ := RunInv(r, i);
    }
  }

  // ---------- the shape of every reachable state ----------

  ghost predicate WellShaped(m: Memory, chain: seq<nat>) {
    && |chain| >= 2 && chain[0] == HEAD && chain[|chain| - 1] == TAIL
    && (forall i {:trigger chain[i]} :: 0 <= i < |chain| - 1 ==> Leads(m, chain, i))
    && (forall i, j :: 0 <= i < j < |chain| ==> Rank(m, chain[i]) < Rank(m, chain[j]))
    && (forall n :: n in m.linked && !m.Next(n).marked ==> n in chain)
    && (forall a, b :: Alive(m, a) && Alive(m, b) && m.Val(a) == m.Val(b) ==> a == b)
    && (forall n :: n in m.linked && m.Next(n).marked ==> m.Deleted(n) > 0)
  }

  // The bottom level leads from head to tail in strictly increasing order of value; a node
  // that is not marked is on it; no value has two unclaimed nodes; only claimed nodes are
  // marked.
  lemma ReachableShape(r: Run, i: nat) returns (chain: seq<nat>)
    requires r.Valid() && i < |r.states|
    ensures WellShaped(r.states[i].mem, chain)
  {
    chain := RunInv(r, i);
    hide A.Step, Step, Init;
    var m := r.states[i].mem;
    forall j, k | 0 <= j < k < |chain| ensures Rank(m, chain[j]) < Rank(m, chain[k]) {
      ChainSorted(m, chain, j, k);
    }
    forall a, b | Alive(m, a) && Alive(m, b) && m.Val(a) == m.Val(b) ensures a == b {
      AliveUnique(m, chain, a, b);
    }
    forall n | n in m.linked && m.Next(n).marked ensures m.Deleted(n) > 0 {
      assert NodeOk(m, n);
    }
  }

  // ---------- single winners ----------

  // The step is a fetch-and-increment that finds the node unclaimed.
  predicate Wins(m: Memory, l: Local, n: nat) {
    m.Deleted(n) == 0 && (l == NaiveClaim(n) || l == SprayClaim(n) || (l.TakeClaim? && l.node == n))
  }

  lemma {:induction false} Later(r: Run, i: nat, j: nat, n: nat)
    requires r.Valid() && i <= j < |r.states| && n in r.states[i].mem.nodes
    ensures n in r.states[j].mem.nodes
    ensures r.states[i].mem.Deleted(n) <= r.states[j].mem.Deleted(n)
    ensures r.states[j].mem.Val(n) == r.states[i].mem.Val(n)
    decreases j - i
  {
    hide A.Step, Step, Init, Inv, Guaranteed;
    if i < j {
      Later(r, i, j - 1, n);
      var _ := RunInv(r, j - 1);
      Grows(r.states[j - 1].mem, r.states[j].mem, n);
    }
  }

  lemma Grows(m: Memory, m': Memory, n: nat)
    requires Guaranteed(m, m') && n in m.nodes
    ensures n in m'.nodes && m.Deleted(n) <= m'.Deleted(n) && m'.Val(n) == m.Val(n)
  {
    var mine :| Guarantee(m, m', mine);
  }

  lemma WinBumps(s: Machine, t: nat, c: Choice, s': Machine, n: nat)
    requires Step(s, t, c, s') && Wins(s.mem, s.threads[t], n) && n in s.mem.nodes
    ensures s'.mem.Deleted(n) == 1 && n in s'.mem.nodes
  {
  }

  // Over a whole run at most one remover of any kind wins a node.
  lemma SingleWinner(r: Run, i: nat, j: nat, n: nat)
    requires r.Valid() && i < j < |r.who|
    requires Wins(r.states[i].mem, r.Pc(i), n) && n in r.states[i].mem.nodes
    ensures !Wins(r.states[j].mem, r.Pc(j), n)
  {
    assert Step(r.states[i], r.who[i], r.choices[i], r.states[i + 1]);
    WinBumps(r.states[i], r.who[i], r.choices[i], r.states[i + 1], n);
    Later(r, i + 1, j, n);
  }

  // ---------- conservation ----------

  // The value that a step adds: the compare-and-swap of an insertion succeeds.
  function Gain(m: Memory, l: Local): multiset<nat> {
    if l.AddLink? && l.job.Add? && m.Next(l.pred) == Link(l.succ, false) then multiset{l.job.v} else multiset{}
  }

  // The value that a step takes: a remover wins a node other than the tail.
  function Loss(m: Memory, l: Local): multiset<nat> {
    if l.TakeClaim? && Wins(m, l, l.node) then multiset{m.Val(l.node)}
    else if l.NaiveClaim? && l.first != TAIL && Wins(m, l, l.first) then multiset{m.Val(l.first)}
    else if l.SprayClaim? && Wins(m, l, l.cur) then multiset{m.Val(l.cur)}
    else multiset{}
  }

  // The same, read off where the operation stands before and after the step.
  function Adds(p: A.Phase, p': A.Phase): multiset<nat> {
    if p.Called? && p.op.Insert? && p' == A.Performed(A.Added) then multiset{p.op.v} else multiset{}
  }

  function Takes(p: A.Phase, p': A.Phase): multiset<nat> {
    if p.Called? && p'.Performed? && p'.reply.Removed? then multiset{p'.reply.v} else multiset{}
  }

  lemma PhaseBalance(s: set<nat>, p: A.Phase, e: A.Event, s': set<nat>, p': A.Phase)
    requires A.StepPhase(s, p, e, s', p')
    ensures multiset(s') + Takes(p, p') == multiset(s) + Adds(p, p')
  {
    if p.Called? && p'.Performed? && p'.reply.Removed? {
      assert s == s' + {p'.reply.v};
    }
  }

  lemma GainIsAdds(m: Memory, l: Local, c: Choice)
    requires LocalOk(m, l) && Exec(m, l, c).Next?
    requires l.AddLink?
    ensures Gain(m, l) == Adds(PhaseOf(m, l), PhaseOf(Exec(m, l, c).m, Exec(m, l, c).l))
    ensures Loss(m, l) == Takes(PhaseOf(m, l), PhaseOf(Exec(m, l, c).m, Exec(m, l, c).l))
  {
    hide LeftOk;
  }

  lemma TakeLoss(m: Memory, l: Local, c: Choice)
    requires LocalOk(m, l) && Exec(m, l, c).Next? && l.TakeClaim?
    ensures Gain(m, l) == Adds(PhaseOf(m, l), PhaseOf(Exec(m, l, c).m, Exec(m, l, c).l))
    ensures Loss(m, l) == Takes(PhaseOf(m, l), PhaseOf(Exec(m, l, c).m, Exec(m, l, c).l))
  {
    hide LeftOk, Skips;
  }

  lemma SprayLoss(m: Memory, l: Local, c: Choice)
    requires LocalOk(m, l) && Exec(m, l, c).Next? && l.SprayClaim?
    ensures Gain(m, l) == Adds(PhaseOf(m, l), PhaseOf(Exec(m, l, c).m, Exec(m, l, c).l))
    ensures Loss(m, l) == Takes(PhaseOf(m, l), PhaseOf(Exec(m, l, c).m, Exec(m, l, c).l))
  {
    hide LeftOk, Skips;
  }

  lemma NaiveLoss(m: Memory, l: Local, c: Choice)
    requires Exec(m, l, c).Next? && l.NaiveClaim?
    ensures Gain(m, l) == Adds(PhaseOf(m, l), PhaseOf(Exec(m, l, c).m, Exec(m, l, c).l))
    ensures Loss(m, l) == Takes(PhaseOf(m, l), PhaseOf(Exec(m, l, c).m, Exec(m, l, c).l))
  {
    assert m.Bump(l.first).Val(l.first) == m.Val(l.first);
  }

  lemma NoneElse(m: Memory, l: Local, c: Choice)
    requires LocalOk(m, l) && Exec(m, l, c).Next?
    requires !l.AddLink? && !l.TakeClaim? && !l.NaiveClaim? && !l.SprayClaim?
    ensures Adds(PhaseOf(m, l), PhaseOf(Exec(m, l, c).m, Exec(m, l, c).l)) == multiset{}
    ensures Takes(PhaseOf(m, l), PhaseOf(Exec(m, l, c).m, Exec(m, l, c).l)) == multiset{}
  {
    hide JobOk, LeftOk, Skips, Proper;
  }

  lemma StepBalance(m: Memory, chain: seq<nat>, l: Local, c: Choice)
    requires MemOk(m, chain) && LocalOk(m, l) && ChoiceOk(m, l, c) && Exec(m, l, c).Next?
    ensures multiset(Values(Exec(m, l, c).m)) + Loss(m, l) == multiset(Values(m)) + Gain(m, l)
  {
    hide MemOk, LocalOk, Values, ChoiceOk, Guarantee, PhaseOf, Adds, Takes, A.StepPhase, EventOf, Exec, PrivateNode;
    CrashOnly(m, chain, l, c);
    var _, mine := ThreadStep(m, chain, l, c);
    var o := Exec(m, l, c);
    PhaseBalance(Values(m), PhaseOf(m, l), EventOf(l, c), Values(o.m), PhaseOf(o.m, o.l));
    if l.AddLink? { GainIsAdds(m, l, c); }
    else if l.NaiveClaim? { NaiveLoss(m, l, c); }
    else if l.TakeClaim? { TakeLoss(m, l, c); }
    else if l.SprayClaim? { SprayLoss(m, l, c); }
    else { NoneElse(m, l, c); }
  }

  function Added(r: Run, i: nat): multiset<nat>
    requires i <= |r.who| < |r.states|
  {
    if i == 0 then multiset{} else Added(r, i - 1) + Gain(r.states[i - 1].mem, r.Pc(i - 1))
  }

  function Taken(r: Run, i: nat): multiset<nat>
    requires i <= |r.who| < |r.states|
  {
    if i == 0 then multiset{} else Taken(r, i - 1) + Loss(r.states[i - 1].mem, r.Pc(i - 1))
  }

  lemma MachineBalance(s: Machine, chain: seq<nat>, t: nat, c: Choice, s': Machine)
    requires Inv(s, chain) && Step(s, t, c, s')
    ensures t in s.threads
    ensures multiset(Values(s'.mem)) + Loss(s.mem, s.threads[t]) == multiset(Values(s.mem)) + Gain(s.mem, s.threads[t])
  {
    hide MemOk, LocalOk, Values, Exec, ChoiceOk;
    CrashOnly(s.mem, chain, s.threads[t], c);
    if s.threads[t] != NaiveEnd(NULL) {
      StepBalance(s.mem, chain, s.threads[t], c);
    }
  }

  lemma Sum(added: multiset<nat>, taken: multiset<nat>, v: multiset<nat>, v': multiset<nat>, g: multiset<nat>, l: multiset<nat>)
    requires added == taken + v && v' + l == v + g
    ensures added + g == taken + l + v'
  {
    forall x ensures (added + g)[x] == (taken + l + v')[x] {
      assert (v' + l)[x] == (v + g)[x];
    }
  }

  lemma AddedNext(r: Run, i: nat)
    requires i < |r.who| < |r.states|
    ensures Added(r, i + 1) == Added(r, i) + Gain(r.states[i].mem, r.Pc(i))
    ensures Taken(r, i + 1) == Taken(r, i) + Loss(r.states[i].mem, r.Pc(i))
  {
  }

  lemma RunBalance(r: Run, i: nat)
    requires r.Valid() && i < |r.who|
    ensures multiset(Values(r.states[i + 1].mem)) + Loss(r.states[i].mem, r.Pc(i))
         == multiset(Values(r.states[i].mem)) + Gain(r.states[i].mem, r.Pc(i))
  {
    hide Step, Init, Inv, Extends, Values, Gain, Loss;
    var chain := RunInv(r, i);
    MachineBalance(r.states[i], chain, r.who[i], r.choices[i], r.states[i + 1]);
  }

  lemma BalanceAtStart(r: Run)
    requires r.Valid()
    ensures |r.states| == |r.who| + 1 && Added(r, 0) == Taken(r, 0) + multiset(Values(r.states[0].mem))
  {
    InitInv(r.states[0]);
  }

  lemma BalanceKept(r: Run, i: nat)
    requires r.Valid() && i < |r.who| < |r.states|
    requires Added(r, i) == Taken(r, i) + multiset(Values(r.states[i].mem))
    ensures Added(r, i + 1) == Taken(r, i + 1) + multiset(Values(r.states[i + 1].mem))
  {
    hide *;
    RunBalance(r, i);
    AddedNext(r, i);
    Sum(Added(r, i), Taken(r, i), multiset(Values(r.states[i].mem)), multiset(Values(r.states[i + 1].mem)),
        Gain(r.states[i].mem, r.Pc(i)), Loss(r.states[i].mem, r.Pc(i)));
  }

  // Everything inserted so far is still there or has been claimed, once.
  lemma {:induction false} Conservation(r: Run, i: nat)
    requires r.Valid() && i < |r.states|
    ensures Added(r, i) == Taken(r, i) + multiset(Values(r.states[i].mem))
  {
    hide *;
    BalanceAtStart(r);
    if i > 0 {
      Conservation(r, i - 1);
      BalanceKept(r, i - 1);
    }
  }

  // ---------- the null pointer ----------

  // The only access that can fail is naive_delete_min's read behind the tail.
  lemma CrashOnly(m: Memory, chain: seq<nat>, l: Local, c: Choice)
    requires MemOk(m, chain) && LocalOk(m, l) && ChoiceOk(m, l, c)
    ensures Exec(m, l, c) == Fault <==> l == NaiveEnd(NULL)
  {
    hide MemOk, LocalOk, Exec, ChoiceOk;
    var _, _ := ThreadStep(m, chain, l, c);
  }

  // In any interleaving, a call gets there exactly by finding the tail already claimed.
  lemma CrashPath(m: Memory, chain: seq<nat>, l: Local, c: Choice)
    requires MemOk(m, chain) && LocalOk(m, l) && ChoiceOk(m, l, c) && Exec(m, l, c).Next?
    ensures Exec(m, l, c).l == NaiveEnd(NULL) <==> l == NaiveNext(TAIL)
    ensures Exec(m, l, c).l == NaiveNext(TAIL) <==> l == NaiveClaim(TAIL) && m.Deleted(TAIL) > 0
  {
    hide ChainOk, Values;
    assert NodeOk(m, TAIL);
    if l.NaiveNext? {
      assert NodeOk(m, l.first);
      assert l.first != TAIL ==> NodeOk(m, m.Next(l.first).to);
    }
  }
}
