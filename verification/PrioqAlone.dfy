// A call that no other thread interrupts: what holds of it from step to step, whatever state of the
// queue it starts in.

module PrioqAlone {
  import opened PrioqParams
  import opened PrioqModel
  import opened PrioqInvariant
  import opened PrioqStability
  import opened PrioqEffects
  import opened PrioqLinearizable
  import opened PrioqHeights
  import A = AtomicQueue

  predicate Returning(l: Local) { l.InsDone? || l.DelDone? }

  // A thread at l makes the steps of cs, or as many as there are before its call returns.
  function Solo(m: Memory, l: Local, mo: int, cs: seq<Choice>): Outcome
    decreases |cs|
  {
    if cs == [] || Returning(l) then Next(m, l)
    else match Exec(m, l, mo, cs[0])
      case Fault => Fault
      case Next(m', l') => Solo(m', l', mo, cs[1..])
  }

  predicate Allowed(m: Memory, l: Local, mo: int, cs: seq<Choice>)
    decreases |cs|
  {
    cs == [] || Returning(l) ||
    (ChoiceOk(m, cs[0]) &&
      match Exec(m, l, mo, cs[0])
      case Fault => true
      case Next(m', l') => Allowed(m', l', mo, cs[1..]))
  }

  // The shared state is well-formed, and thread t knows what it should at l.
  ghost predicate Good(m: Memory, g: History, h: Ranks, t: nat, l: Local) {
    MemOk(m, g) && ThreadOk(m, g, t, l) && Ranked(m, h) && Tall(m, h, l) && PendingKnown(m, l)
  }

  // The operation has not taken effect on the contents c, or it has.
  ghost predicate Progress(c: map<nat, nat>, op: A.Op, m: Memory, g: History, l: Local) {
    if PhaseOf(l).Called? then PhaseOf(l).op == op && Contents(m, g.live) == c
    else PhaseOf(l).Performed? && A.Perform(c, op, Contents(m, g.live), PhaseOf(l).res)
  }

  // One step in the middle of a call.
  lemma AloneStep(m: Memory, g: History, h: Ranks, t: nat, l: Local, mo: int, c: Choice, c0: map<nat, nat>, op: A.Op)
    returns (g': History, h': Ranks)
    requires Good(m, g, h, t, l) && Progress(c0, op, m, g, l) && (op.Insert? ==> op.k != KEYMAX)
    requires ChoiceOk(m, c) && l != Outside && !Returning(l) && !Doomed(l)
    ensures var o := Exec(m, l, mo, c); o.Next? && Good(o.m, g', h', t, o.l) && Progress(c0, op, o.m, g', o.l)
    ensures !l.LinkCas? && !l.UpCas? ==> h' == h
  {
    hide MemOk, ThreadOk, Ranked, Tall, PendingKnown, Exec, Contents, PhaseOf, Doomed, Guarantee, A.Perform, Grown;
    var mine;
    g', mine := ThreadStep(m, g, t, l, mo, c);
    h' := ThreadClimbs(m, g, h, t, l, mo, c);
    var o := Exec(m, l, mo, c);
    OwnKnown(m, h, l, o.m, o.l, h');
    assert EventOf(l, c) == A.Internal;
  }

  // ---------- how far it is to the end of a level ----------

  ghost function Beyond(h: Ranks, i: nat, n: nat): set<nat>
    requires i < |h|
  {
    set x | x in h[i] && h[i][x] > Rank(h, i, n)
  }

  // The nodes on the levels below i, counted on each.
  ghost function Weight(h: Ranks, i: nat): nat
    requires i <= |h|
  {
    if i == 0 then 0 else Weight(h, i - 1) + |h[i - 1]|
  }

  lemma Smaller(a: set<nat>, b: set<nat>, x: nat)
    requires a <= b && x in b && x !in a
    ensures |a| < |b|
  {
    assert b == a + (b - a) && x in b - a;
  }

  lemma BeyondLess(h: Ranks, i: nat, x: nat, y: nat)
    requires On(h, i, x) && On(h, i, y) && Rank(h, i, x) < Rank(h, i, y)
    ensures |Beyond(h, i, y)| < |Beyond(h, i, x)|
  {
    Smaller(Beyond(h, i, y), Beyond(h, i, x), y);
  }

  lemma BeyondOnLevel(h: Ranks, i: nat, x: nat)
    requires On(h, i, x)
    ensures |Beyond(h, i, x)| < |h[i]|
  {
    Smaller(Beyond(h, i, x), h[i].Keys, x);
    assert |h[i].Keys| == |h[i]|;
  }

  lemma {:induction false} WeightBound(m: Memory, h: Ranks, i: nat)
    requires Ranked(m, h) && i <= NUM_LEVELS
    ensures Weight(h, i) <= i * |m.nodes|
  {
    if i > 0 {
      WeightBound(m, h, i - 1);
      forall n | n in h[i - 1] ensures n in m.nodes { assert Placed(m, h, i - 1, n); }
      FewerKeys(h[i - 1].Keys, m.nodes.Keys);
      assert |h[i - 1].Keys| == |h[i - 1]| && |m.nodes.Keys| == |m.nodes|;
      assert i * |m.nodes| == (i - 1) * |m.nodes| + |m.nodes|;
    }
  }

  lemma FewerKeys(a: set<nat>, b: set<nat>)
    requires a <= b
    ensures |a| <= |b|
  {
    assert b == a + (b - a);
  }
}
