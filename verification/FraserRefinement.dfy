// Every step of the machine in FraserModel keeps the invariant and is a step of the atomic
// set of AtomicSet.

module FraserRefinement {
  import opened AtomicSet
  import opened FraserModel
  import opened FraserInvariant
  import opened FraserEffects

  function JobPhase(job: Job): Phase {
    match job
    case Add(v, _) => Called(Insert(v))
    case Take(op) => Called(op)
    case Sweep(_, reply) => Performed(reply)
  }

  function AfterPhase(after: After): Phase {
    match after
    case Again(job) => JobPhase(job)
    case Sweeping(reply) => Performed(reply)
    case Perhaps(reply) => Performed(reply)
    case Leave(reply) => Performed(reply)
  }

  // Where the operation of a thread stands: before or after it has taken effect.
  function PhaseOf(m: Memory, l: Local): Phase {
    match l
    case Outside => Idle
    case InsAlloc(v) => Called(Insert(v))
    case Arrive(job) => JobPhase(job)
    case ReadLeft(job, _) => JobPhase(job)
    case ReadRight(job, _, _, _) => JobPhase(job)
    case Snip(job, _, _, _) => JobPhase(job)
    case AddFlag(job, _) => JobPhase(job)
    case AddStore(job, _, _) => JobPhase(job)
    case AddLink(job, _, _) => JobPhase(job)
    case FindFlag(op, _) => Called(op)
    case TakeEnd(op, _) => Called(op)
    case TakeFlag(op, _) => Called(op)
    case TakeClaim(op, _) => Called(op)
    case MarkRead(_, after) => AfterPhase(after)
    case MarkCas(_, _, after) => AfterPhase(after)
    case NaiveTail(first) => Performed(if first == TAIL then Unset else Removed(m.Val(first)))
    case Leaving(reply) => Performed(reply)
    case NaiveNext(_) => Called(DeleteMin)
    case NaiveEnd(_) => Called(DeleteMin)
    case NaiveFlag(_) => Called(DeleteMin)
    case NaiveClaim(_) => Called(DeleteMin)
    case Crashed => Called(DeleteMin)
    case _ => Called(Spray)
  }

  lemma PhaseKept(m: Memory, m': Memory, mine: set<nat>, l: Local)
    requires AllOk(m) && Guarantee(m, m', mine) && LocalOk(m, l)
    ensures PhaseOf(m', l) == PhaseOf(m, l)
  {
    hide AllOk, Guarantee;
    if l.NaiveTail? { LinkedKept(m, m', mine, l.first); }
  }

  // What one step of a thread achieves.
  ghost predicate Advanced(m: Memory, l: Local, c: Choice, o: Outcome, chain': seq<nat>, mine: set<nat>) {
    && o.Next?
    && MemOk(o.m, chain') && LocalOk(o.m, o.l)
    && Guarantee(m, o.m, mine)
    && mine <= PrivateNode(l)
    && (forall n :: n in PrivateNode(o.l) ==> n in PrivateNode(l) || n !in m.nodes)
    && StepPhase(Values(m), PhaseOf(m, l), EventOf(l, c), Values(o.m), PhaseOf(o.m, o.l))
  }

  lemma Unchanged(m: Memory)
    ensures Guarantee(m, m, {})
  {
  }

  // ---------- the search ----------

  lemma SkipsMore(m: Memory, a: nat, b: nat)
    requires Skips(m, a, b) && b in m.linked && m.Next(b).marked
    ensures Skips(m, a, m.Next(b).to)
  {
    var p :| Frozen(m, p, a, b);
    var q := p + [m.Next(b).to];
    forall i | 0 <= i < |q| - 1 ensures FrozenAt(m, q, i) {
      if i < |p| - 1 { assert FrozenAt(m, p, i); }
    }
    assert Frozen(m, q, a, m.Next(b).to);
  }

  lemma SkipsNone(m: Memory, a: nat)
    ensures Skips(m, a, a)
  {
    assert Frozen(m, [a], a, a);
  }

  lemma TargetBelow(m: Memory, job: Job)
    requires JobOk(m, job)
    ensures Target(job) < VAL_MAX
  {
  }

  lemma ReadLeftStep(m: Memory, chain: seq<nat>, l: Local, c: Choice)
    requires MemOk(m, chain) && LocalOk(m, l) && l.ReadLeft?
    ensures Advanced(m, l, c, DoReadLeft(m, l.job, l.left), chain, {})
  {
    hide ChainOk, JobOk, Values, Skips;
    assert NodeOk(m, l.left);
    SkipsNone(m, m.Next(l.left).to);
    Unchanged(m);
  }

  lemma ReadRightStep(m: Memory, chain: seq<nat>, l: Local, c: Choice)
    requires MemOk(m, chain) && LocalOk(m, l) && l.ReadRight?
    ensures Advanced(m, l, c, DoReadRight(m, l.job, l.left, l.leftNext, l.right), chain, {})
  {
    hide ChainOk, JobOk, Values, Skips;
    assert NodeOk(m, l.right);
    TargetBelow(m, l.job);
    if m.Next(l.right).marked { SkipsMore(m, l.leftNext, l.right); }
    SkipsNone(m, m.Next(l.right).to);
    Unchanged(m);
  }

  // What the caller of the search may rely on, whatever else the search changed.
  lemma FoundOk(m: Memory, m': Memory, mine: set<nat>, job: Job, left: nat, right: nat)
    requires AllOk(m') && JobOk(m', job) && LeftOk(m', job, left)
    requires right in m'.linked && right != HEAD && m'.Val(right) >= Target(job)
    ensures Found(m', job, left, right).Next? && Found(m', job, left, right).m == m'
    ensures LocalOk(m', Found(m', job, left, right).l)
    ensures PrivateNode(Found(m', job, left, right).l) <= JobNode(job)
    ensures StepPhase(Values(m'), JobPhase(job), Internal, Values(m'), PhaseOf(m', Found(m', job, left, right).l))
  {
    assert NodeOk(m', right);
  }

  lemma SnipStep(m: Memory, chain: seq<nat>, l: Local, c: Choice) returns (chain': seq<nat>)
    requires MemOk(m, chain) && LocalOk(m, l) && l.Snip?
    ensures Advanced(m, l, c, DoSnip(m, l.job, l.left, l.leftNext, l.right), chain', {})
  {
    hide ChainOk, Values, Skips, NodeOk, Alive;
    chain' := chain;
    Unchanged(m);
    LinkedKept(m, m, {}, l.left);
    assert l.left in m.nodes by { InNodes(m, l.left); }
    if l.leftNext == l.right {
      FoundOk(m, m, {}, l.job, l.left, l.right);
    } else if m.Next(l.left) == Link(l.leftNext, false) {
      var m' := m.SetNext(l.left, Link(l.right, false));
      chain' := SnipEffect(m, chain, l.left, l.leftNext, l.right, m');
      hide Guarantee;
      LinkedKept(m, m', {}, l.left);
      LinkedKept(m, m', {}, l.right);
      JobKept(m, m', {}, l.job);
      FoundOk(m, m', {}, l.job, l.left, l.right);
    }
  }

  lemma InNodes(m: Memory, n: nat)
    requires AllOk(m) && n in m.linked
    ensures n in m.nodes
  {
    assert NodeOk(m, n);
  }

  // ---------- insertion ----------

  lemma AllocStep(m: Memory, chain: seq<nat>, l: Local, c: Choice)
    requires MemOk(m, chain) && LocalOk(m, l) && l.InsAlloc? && ChoiceOk(m, l, c)
    ensures Advanced(m, l, c, DoAlloc(m, l.v, c.node), chain, {})
  {
    hide MemOk, Values, Guarantee;
    AllocEffect(m, chain, c.node, l.v, DoAlloc(m, l.v, c.node).m);
  }

  // The refusal: the value is present at this very read.
  lemma AddFlagStep(m: Memory, chain: seq<nat>, l: Local, c: Choice)
    requires MemOk(m, chain) && LocalOk(m, l) && l.AddFlag?
    ensures Advanced(m, l, c, DoAddFlag(m, l.job, l.succ), chain, {})
  {
    hide MemOk;
    Unchanged(m);
    if m.Deleted(l.succ) == 0 {
      assert Alive(m, l.succ);
    }
  }

  lemma AddStoreStep(m: Memory, chain: seq<nat>, l: Local, c: Choice) returns (mine: set<nat>)
    requires MemOk(m, chain) && LocalOk(m, l) && l.AddStore?
    ensures Advanced(m, l, c, DoAddStore(m, l.job, l.pred, l.succ), chain, mine)
  {
    mine := {l.job.new_};
    hide MemOk, Values;
    StoreEffect(m, chain, l.job.new_, Link(l.succ, false));
  }

  lemma AddLinkStep(m: Memory, chain: seq<nat>, l: Local, c: Choice) returns (chain': seq<nat>, mine: set<nat>)
    requires MemOk(m, chain) && LocalOk(m, l) && l.AddLink?
    ensures Advanced(m, l, c, DoAddLink(m, l.job, l.pred, l.succ), chain', mine)
  {
    hide ChainOk, NodeOk, Values;
    chain', mine := chain, {};
    Unchanged(m);
    InNodes(m, l.pred);
    if m.Next(l.pred) == Link(l.succ, false) {
      mine := {l.job.new_};
      chain' := LinkEffect(m, chain, l.job, l.pred, l.succ, DoAddLink(m, l.job, l.pred, l.succ).m);
    }
  }

  // ---------- marking ----------

  lemma ContinueOk(m: Memory, node: nat, after: After, coin: bool)
    requires MarkOk(m, node, after) && m.Val(node) < VAL_MAX
    ensures LocalOk(m, Continue(m, node, after, coin))
    ensures PhaseOf(m, Continue(m, node, after, coin)) == AfterPhase(after)
    ensures PrivateNode(Continue(m, node, after, coin)) <= PrivateNode(MarkRead(node, after))
  {
  }

  lemma MarkReadStep(m: Memory, chain: seq<nat>, l: Local, c: Choice)
    requires MemOk(m, chain) && LocalOk(m, l) && l.MarkRead?
    ensures Advanced(m, l, c, DoMarkRead(m, l.node, l.after, c.coin), chain, {})
  {
    hide ChainOk, JobOk, Values;
    assert NodeOk(m, l.node);
    ContinueOk(m, l.node, l.after, c.coin);
    Unchanged(m);
  }

  lemma MarkCasStep(m: Memory, chain: seq<nat>, l: Local, c: Choice)
    requires MemOk(m, chain) && LocalOk(m, l) && l.MarkCas?
    ensures Advanced(m, l, c, DoMarkCas(m, l.node, l.seen, l.after, c.coin), chain, {})
  {
    hide ChainOk, JobOk, Values, Alive;
    assert NodeOk(m, l.node);
    Unchanged(m);
    if m.Next(l.node) == Link(l.seen, false) {
      var m' := m.SetNext(l.node, Link(l.seen, true));
      MarkEffect(m, chain, l.node, m');
      hide Guarantee, AllOk;
      assert PrivateNode(l) !! {};
      MarkKept(m, m', {}, l.node, l.after);
      ContinueOk(m', l.node, l.after, c.coin);
    }
  }

  // ---------- claiming ----------

  // The winner of the fetch-and-increment removes a value that is present.
  lemma TakeClaimStep(m: Memory, chain: seq<nat>, l: Local, c: Choice)
    requires MemOk(m, chain) && LocalOk(m, l) && l.TakeClaim?
    ensures Advanced(m, l, c, DoTakeClaim(m, l.op, l.node), chain, {})
  {
    hide MemOk, Values;
    BumpEffect(m, chain, l.node, m.Bump(l.node));
  }

  lemma NaiveClaimStep(m: Memory, chain: seq<nat>, l: Local, c: Choice)
    requires MemOk(m, chain) && LocalOk(m, l) && l.NaiveClaim?
    ensures Advanced(m, l, c, DoNaiveClaim(m, l.first), chain, {})
  {
    hide ChainOk, NodeOk, Values;
    InNodes(m, l.first);
    BumpEffect(m, chain, l.first, m.Bump(l.first));
  }

  lemma SprayClaimStep(m: Memory, chain: seq<nat>, l: Local, c: Choice)
    requires MemOk(m, chain) && LocalOk(m, l) && l.SprayClaim?
    ensures Advanced(m, l, c, DoSprayClaim(m, l.cur), chain, {})
  {
    hide MemOk, Values;
    BumpEffect(m, chain, l.cur, m.Bump(l.cur));
  }

  // ---------- the steps that only read ----------

  lemma ReadAdvanced(m: Memory, chain: seq<nat>, l: Local, c: Choice, o: Outcome)
    requires MemOk(m, chain) && o.Next? && o.m == m && LocalOk(m, o.l)
    requires PrivateNode(o.l) <= PrivateNode(l)
    requires EventOf(l, c) == Internal
    requires
      || PhaseOf(m, o.l) == PhaseOf(m, l)
      || (PhaseOf(m, o.l) == Performed(Missed) && PhaseOf(m, l).Called? && !PhaseOf(m, l).op.Insert? && !PhaseOf(m, l).op.DeleteMin?)
    ensures Advanced(m, l, c, o, chain, {})
  {
    hide MemOk, LocalOk, PhaseOf, Values;
    Unchanged(m);
  }

  // fraser_find's yes: the value is present at this very read.
  lemma FindFlagStep(m: Memory, chain: seq<nat>, l: Local, c: Choice)
    requires MemOk(m, chain) && LocalOk(m, l) && l.FindFlag?
    ensures Advanced(m, l, c, DoFindFlag(m, l.node), chain, {})
  {
    hide MemOk;
    Unchanged(m);
    if m.Deleted(l.node) == 0 {
      assert Alive(m, l.node);
    }
  }

  lemma TakeReadStep(m: Memory, chain: seq<nat>, l: Local, c: Choice)
    requires MemOk(m, chain) && LocalOk(m, l)
    requires l.TakeEnd? || l.TakeFlag?
    ensures Advanced(m, l, c, Exec(m, l, c), chain, {})
  {
    hide ChainOk, Values, Advanced, Guarantee;
    assert NodeOk(m, l.node);
    ReadAdvanced(m, chain, l, c, Exec(m, l, c));
  }

  lemma NaiveReadStep(m: Memory, chain: seq<nat>, l: Local, c: Choice)
    requires MemOk(m, chain) && LocalOk(m, l)
    requires l.NaiveNext? || (l.NaiveEnd? && l.first != NULL) || l.NaiveFlag? || l.NaiveTail?
    ensures Advanced(m, l, c, Exec(m, l, c), chain, {})
  {
    hide ChainOk, Values, Advanced, Guarantee;
    assert NodeOk(m, l.first);
    ReadAdvanced(m, chain, l, c, Exec(m, l, c));
  }

  lemma SprayReadStep(m: Memory, chain: seq<nat>, l: Local, c: Choice)
    requires MemOk(m, chain) && LocalOk(m, l)
    requires l.SprayStop? || l.SprayFlag? || l.SprayMore?
    ensures Advanced(m, l, c, Exec(m, l, c), chain, {})
  {
    hide ChainOk, Values, Advanced, Guarantee;
    assert NodeOk(m, l.cur);
    ReadAdvanced(m, chain, l, c, Exec(m, l, c));
  }

  lemma SprayEndStep(m: Memory, chain: seq<nat>, l: Local, c: Choice)
    requires MemOk(m, chain) && LocalOk(m, l)
    requires l.SprayNext? || l.SprayLast? || l.SprayTest?
    ensures Advanced(m, l, c, Exec(m, l, c), chain, {})
  {
    hide ChainOk, Values, Advanced, Guarantee;
    assert NodeOk(m, l.cur);
    ReadAdvanced(m, chain, l, c, Exec(m, l, c));
  }

  lemma OuterStep(m: Memory, chain: seq<nat>, l: Local, c: Choice)
    requires MemOk(m, chain) && LocalOk(m, l) && ChoiceOk(m, l, c)
    requires l.Outside? || l.Leaving? || l.SprayArrive? || l.Crashed?
    ensures Advanced(m, l, c, Exec(m, l, c), chain, {})
  {
    hide ChainOk, Values, NodeOk;
    Unchanged(m);
  }

  lemma ArriveStep(m: Memory, chain: seq<nat>, l: Local, c: Choice)
    requires MemOk(m, chain) && LocalOk(m, l) && ChoiceOk(m, l, c) && l.Arrive?
    ensures Advanced(m, l, c, Exec(m, l, c), chain, {})
  {
    hide ChainOk, Values, JobOk;
    Unchanged(m);
    TargetBelow(m, l.job);
    assert NodeOk(m, TAIL);
  }

  // Any step of any thread; only naive_delete_min behind the tail fails.
  lemma ThreadStep(m: Memory, chain: seq<nat>, l: Local, c: Choice) returns (chain': seq<nat>, mine: set<nat>)
    requires MemOk(m, chain) && LocalOk(m, l) && ChoiceOk(m, l, c)
    ensures l != NaiveEnd(NULL) ==> Advanced(m, l, c, Exec(m, l, c), chain', mine)
    ensures l == NaiveEnd(NULL) ==> Exec(m, l, c) == Fault
  {
    hide MemOk, LocalOk, Advanced, DoReadLeft, DoReadRight, DoSnip, DoAlloc, DoAddFlag, DoAddStore, DoAddLink,
      DoFindFlag, DoTakeEnd, DoTakeFlag, DoTakeClaim, DoMarkRead, DoMarkCas, DoNaiveNext, DoNaiveFlag, DoNaiveClaim,
      DoNaiveTail, DoSprayStop, DoSprayFlag, DoSprayMore, DoSprayNext, DoSprayLast, DoSprayTest, DoSprayClaim,
      ChoiceOk;
    chain', mine := chain, {};
    if l.Arrive? { ArriveStep(m, chain, l, c); }
    else if l.ReadLeft? { ReadLeftStep(m, chain, l, c); }
    else if l.ReadRight? { ReadRightStep(m, chain, l, c); }
    else if l.Snip? { chain' := SnipStep(m, chain, l, c); }
    else if l.InsAlloc? { AllocStep(m, chain, l, c); }
    else if l.AddFlag? { AddFlagStep(m, chain, l, c); }
    else if l.AddStore? { mine := AddStoreStep(m, chain, l, c); }
    else if l.AddLink? { chain', mine := AddLinkStep(m, chain, l, c); }
    else if l.MarkRead? { MarkReadStep(m, chain, l, c); }
    else if l.MarkCas? { MarkCasStep(m, chain, l, c); }
    else if l.TakeClaim? { TakeClaimStep(m, chain, l, c); }
    else if l.NaiveClaim? { NaiveClaimStep(m, chain, l, c); }
    else if l.SprayClaim? { SprayClaimStep(m, chain, l, c); }
    else if l.FindFlag? { FindFlagStep(m, chain, l, c); }
    else if l.TakeEnd? || l.TakeFlag? { TakeReadStep(m, chain, l, c); }
    else if l.Outside? || l.Leaving? || l.SprayArrive? || l.Crashed? { OuterStep(m, chain, l, c); }
    else if l == NaiveEnd(NULL) { NullAbsent(m, chain); }
    else if l.NaiveNext? || l.NaiveEnd? || l.NaiveFlag? || l.NaiveTail? { NaiveReadStep(m, chain, l, c); }
    else if l.SprayStop? || l.SprayFlag? || l.SprayMore? { SprayReadStep(m, chain, l, c); }
    else { SprayEndStep(m, chain, l, c); }
  }

  lemma NullAbsent(m: Memory, chain: seq<nat>)
    requires MemOk(m, chain)
    ensures NULL !in m.nodes
  {
  }
}
