// A call of naive_delete_min that no other thread interrupts: what it does to any memory that
// the machine can be in, and exactly when it follows the null pointer behind the tail.

module FraserAlone {
  import A = AtomicSet
  import opened FraserModel
  import opened FraserInvariant
  import opened FraserEffects
  import opened FraserRefinement

  // A thread at l makes the steps of cs, or as many as there are before its call returns.
  function Solo(m: Memory, l: Local, cs: seq<Choice>): Outcome
    decreases |cs|
  {
    if cs == [] || l.Leaving? then Next(m, l)
    else match Exec(m, l, cs[0])
      case Fault => Fault
      case Next(m', l') => Solo(m', l', cs[1..])
  }

  predicate Allowed(m: Memory, l: Local, cs: seq<Choice>)
    decreases |cs|
  {
    cs == [] || l.Leaving? ||
    (ChoiceOk(m, l, cs[0]) &&
      match Exec(m, l, cs[0])
      case Fault => true
      case Next(m', l') => Allowed(m', l', cs[1..]))
  }

  predicate Least(s: set<nat>, v: nat) {
    v in s && forall w :: w in s ==> v <= w
  }

  // ---------- after the claim ----------

  // Once an operation has taken effect, its answer stands and no value changes any more.
  lemma {:induction false} Settled(m: Memory, chain: seq<nat>, l: Local, cs: seq<Choice>)
    requires MemOk(m, chain) && LocalOk(m, l) && PhaseOf(m, l).Performed? && Allowed(m, l, cs)
    ensures var o := Solo(m, l, cs); o.Next? && PhaseOf(o.m, o.l) == PhaseOf(m, l) && Values(o.m) == Values(m)
    decreases |cs|
  {
    hide MemOk, LocalOk, Exec, ChoiceOk, Values, Guarantee, PhaseOf;
    if cs != [] && !l.Leaving? {
      SettledWhere(m, l);
      var chain', mine := ThreadStep(m, chain, l, cs[0]);
      var o := Exec(m, l, cs[0]);
      Settled(o.m, chain', o.l, cs[1..]);
    }
  }

  lemma SettledWhere(m: Memory, l: Local)
    requires PhaseOf(m, l).Performed?
    ensures l != Outside && l != NaiveEnd(NULL)
  {
  }

  // ---------- on the way along the bottom level ----------

  ghost predicate ClaimedUpTo(m: Memory, chain: seq<nat>, i: nat) {
    i < |chain| && forall j :: 0 < j <= i ==> m.Deleted(chain[j]) > 0
  }

  // The call stands at chain[i], everything before which is claimed.
  ghost predicate At(m: Memory, chain: seq<nat>, l: Local, i: nat) {
    match l
    case NaiveNext(first) => i < |chain| - 1 && first == chain[i] && ClaimedUpTo(m, chain, i)
    case NaiveEnd(first) => 0 < i < |chain| && first == chain[i] && ClaimedUpTo(m, chain, i - 1)
    case NaiveFlag(first) => 0 < i < |chain| - 1 && first == chain[i] && ClaimedUpTo(m, chain, i - 1)
    case NaiveClaim(first) => 0 < i < |chain| && first == chain[i] && ClaimedUpTo(m, chain, i - 1)
                              && (first == TAIL || m.Deleted(first) == 0)
    case _ => false
  }

  // So many steps settle the answer.
  function Need(chain: seq<nat>, l: Local, i: nat): int {
    3 * (|chain| - 1 - i) + (if l.NaiveEnd? then 4 else if l.NaiveFlag? || l == NaiveClaim(TAIL) then 3 else 2)
  }

  // Nothing has been claimed yet, or the least value has.
  ghost predicate Removing(m: Memory, o: Outcome, done: bool) {
    && o.Next?
    && ((!done && o.m == m && PhaseOf(o.m, o.l) == A.Called(A.DeleteMin))
        || exists v :: Least(Values(m), v) && Values(o.m) == Values(m) - {v} && PhaseOf(o.m, o.l) == A.Performed(A.Removed(v)))
  }

  // The tail has not been claimed yet, or it has and the call returns without a value.
  ghost predicate GivingUp(m: Memory, o: Outcome, done: bool) {
    && o.Next?
    && ((!done && o.m == m && PhaseOf(m, o.l) == A.Called(A.DeleteMin))
        || (!done && TAIL in m.nodes && o == Next(m.Bump(TAIL), NaiveTail(TAIL)))
        || (TAIL in m.nodes && o == Next(m.Bump(TAIL), Leaving(A.Unset))))
  }

  ghost predicate Crashing(o: Outcome, done: bool) {
    o == Fault || (!done && PhaseOf(o.m, o.l) == A.Called(A.DeleteMin))
  }

  // What becomes of a call on memory m; done means that it has had its steps.
  ghost predicate Outcomes(m: Memory, o: Outcome, done: bool) {
    if Values(m) != {} then Removing(m, o, done)
    else if m.Deleted(TAIL) == 0 then GivingUp(m, o, done)
    else Crashing(o, done)
  }

  lemma Underway(m: Memory, l: Local)
    requires PhaseOf(m, l) == A.Called(A.DeleteMin)
    ensures Outcomes(m, Next(m, l), false)
  {
    hide Values;
  }

  lemma NothingAlive(m: Memory, chain: seq<nat>)
    requires MemOk(m, chain) && ClaimedUpTo(m, chain, |chain| - 2)
    ensures Values(m) == {}
  {
    forall n | Alive(m, n) ensures false {
      assert NodeOk(m, n);
      var j :| 0 <= j < |chain| && chain[j] == n;
    }
  }

  // The first node that is not claimed holds the least value.
  lemma FirstAlive(m: Memory, chain: seq<nat>, i: nat)
    requires MemOk(m, chain) && 0 < i < |chain| - 1 && ClaimedUpTo(m, chain, i - 1) && m.Deleted(chain[i]) == 0
    ensures Alive(m, chain[i]) && Least(Values(m), m.Val(chain[i]))
  {
    ChainSorted(m, chain, 0, i);
    ChainSorted(m, chain, i, |chain| - 1);
    var n := chain[i];
    forall w | w in Values(m) ensures m.Val(n) <= w {
      var x: nat :| x in m.linked && Alive(m, x) && m.Val(x) == w;
      AliveBehind(m, chain, i, x);
    }
  }

  lemma AliveBehind(m: Memory, chain: seq<nat>, i: nat, x: nat)
    requires MemOk(m, chain) && 0 < i < |chain| && ClaimedUpTo(m, chain, i - 1) && Alive(m, x)
    ensures Rank(m, chain[i]) <= Rank(m, x)
  {
    assert NodeOk(m, x);
    var j :| 0 <= j < |chain| && chain[j] == x;
    if i < j { ChainSorted(m, chain, i, j); }
  }

  // The fetch-and-increment, on a node that is not the tail.
  lemma ClaimTakes(m: Memory, chain: seq<nat>, l: Local, i: nat, cs: seq<Choice>)
    requires MemOk(m, chain) && At(m, chain, l, i) && l.NaiveClaim? && i < |chain| - 1
    requires cs != [] && Allowed(m, l, cs)
    ensures Outcomes(m, Solo(m, l, cs), |cs| >= Need(chain, l, i))
  {
    hide ChoiceOk, Values, Guarantee;
    ChainSorted(m, chain, i, |chain| - 1);
    FirstAlive(m, chain, i);
    assert NodeOk(m, l.first);
    var m' := m.Bump(l.first);
    var l' := NaiveTail(l.first);
    assert Exec(m, l, cs[0]) == Next(m', l');
    BumpEffect(m, chain, l.first, m');
    assert LocalOk(m', l');
    Settled(m', chain, l', cs[1..]);
    var o := Solo(m, l, cs);
    assert o == Solo(m', l', cs[1..]);
    assert Removing(m, o, true) by {
      assert Least(Values(m), m.Val(l.first)) && Values(o.m) == Values(m) - {m.Val(l.first)};
      assert PhaseOf(o.m, o.l) == A.Performed(A.Removed(m.Val(l.first)));
    }
  }

  // The fetch-and-increment on the tail.
  lemma ClaimTail(m: Memory, chain: seq<nat>, cs: seq<Choice>)
    requires MemOk(m, chain) && ClaimedUpTo(m, chain, |chain| - 2) && cs != []
    ensures Outcomes(m, Solo(m, NaiveClaim(TAIL), cs), |cs| >= 3)
  {
    hide Values;
    NothingAlive(m, chain);
    assert NodeOk(m, TAIL);
    var m' := m.Bump(TAIL);
    if m.Deleted(TAIL) == 0 {
      ReturnsUnset(m', cs[1..]);
    } else {
      ReadsBehind(m', cs[1..]);
    }
  }

  lemma ReturnsUnset(m: Memory, cs: seq<Choice>)
    requires TAIL in m.nodes && m.Next(TAIL) == Link(NULL, false)
    ensures Solo(m, NaiveTail(TAIL), cs) == Next(m, if cs == [] then NaiveTail(TAIL) else Leaving(A.Unset))
  {
    if cs != [] { assert Exec(m, NaiveTail(TAIL), cs[0]) == Next(m, Leaving(A.Unset)); }
  }

  lemma ReadsBehind(m: Memory, cs: seq<Choice>)
    requires TAIL in m.nodes && m.Next(TAIL) == Link(NULL, false) && NULL !in m.nodes
    ensures Solo(m, NaiveNext(TAIL), cs) ==
            if cs == [] then Next(m, NaiveNext(TAIL)) else if |cs| == 1 then Next(m, NaiveEnd(NULL)) else Fault
  {
    if cs != [] {
      assert Exec(m, NaiveNext(TAIL), cs[0]) == Next(m, NaiveEnd(NULL));
      if |cs| > 1 { assert Exec(m, NaiveEnd(NULL), cs[1..][0]) == Fault; }
    }
  }

  // One read of the walk.
  lemma NaiveTurn(m: Memory, chain: seq<nat>, l: Local, i: nat, c: Choice) returns (l': Local, i': nat)
    requires MemOk(m, chain) && At(m, chain, l, i) && !l.NaiveClaim?
    ensures Exec(m, l, c) == Next(m, l') && At(m, chain, l', i') && Need(chain, l', i') == Need(chain, l, i) - 1
  {
    assert NodeOk(m, chain[i]) && NodeOk(m, TAIL);
    if i < |chain| - 1 { ChainSorted(m, chain, i, |chain| - 1); }
    i' := i;
    match l
    case NaiveNext(first) =>
      ChainNext(m, chain, i);
      l', i' := NaiveEnd(chain[i + 1]), i + 1;
    case NaiveEnd(first) =>
      if first == TAIL {
        TailLast(m, chain, i);
        l' := NaiveClaim(TAIL);
      } else {
        assert NodeOk(m, m.Next(first).to);
        l' := NaiveFlag(first);
      }
    case NaiveFlag(first) =>
      l' := if m.Deleted(first) != 0 then NaiveNext(first) else NaiveClaim(first);
  }

  lemma {:induction false} NaiveWalk(m: Memory, chain: seq<nat>, l: Local, i: nat, cs: seq<Choice>)
    requires MemOk(m, chain) && At(m, chain, l, i) && Allowed(m, l, cs)
    ensures Outcomes(m, Solo(m, l, cs), |cs| >= Need(chain, l, i))
    decreases |cs|
  {
    hide MemOk, Outcomes, Exec, ChoiceOk;
    if cs == [] {
      Underway(m, l);
    } else if l.NaiveClaim? {
      if l.first == TAIL {
        ClaimsTail(m, chain, l, i);
        ClaimTail(m, chain, cs);
      } else {
        ClaimsNode(m, chain, l, i);
        ClaimTakes(m, chain, l, i, cs);
      }
    } else {
      var l', i' := NaiveTurn(m, chain, l, i, cs[0]);
      NaiveWalk(m, chain, l', i', cs[1..]);
    }
  }

  lemma ClaimsTail(m: Memory, chain: seq<nat>, l: Local, i: nat)
    requires MemOk(m, chain) && At(m, chain, l, i) && l == NaiveClaim(TAIL)
    ensures i == |chain| - 1
  {
    TailLast(m, chain, i);
  }

  lemma ClaimsNode(m: Memory, chain: seq<nat>, l: Local, i: nat)
    requires MemOk(m, chain) && At(m, chain, l, i) && l.NaiveClaim? && l.first != TAIL
    ensures i < |chain| - 1
  {
  }

  // ---------- whole calls ----------

  // A call of naive_delete_min follows a null pointer if and only if no value is present and
  // the tail has been claimed before; it returns without a value, claiming the tail, if and
  // only if no value is present and the tail has not been claimed; and otherwise it takes the
  // least value.  No earlier step faults either.
  lemma NaiveExactly(m: Memory, chain: seq<nat>, cs: seq<Choice>)
    requires MemOk(m, chain) && Allowed(m, Begin(A.DeleteMin), cs)
    ensures var o := Solo(m, Begin(A.DeleteMin), cs);
      && (o == Fault ==> Values(m) == {} && m.Deleted(TAIL) > 0)
      && (o.Next? && o.l == Leaving(A.Unset) ==> Values(m) == {} && m.Deleted(TAIL) == 0)
    ensures var o := Solo(m, Begin(A.DeleteMin), cs);
      |cs| >= 3 * |chain| ==>
        && (o == Fault <==> Values(m) == {} && m.Deleted(TAIL) > 0)
        && (TAIL in m.nodes && o == Next(m.Bump(TAIL), Leaving(A.Unset)) <==> Values(m) == {} && m.Deleted(TAIL) == 0)
        && (Removing(m, o, true) <==> Values(m) != {})
  {
    hide Values;
    NaiveWalk(m, chain, NaiveNext(HEAD), 0, cs);
  }

  // So of two calls on a list that holds no value, however it was emptied, the second follows
  // the null pointer if the first does not.
  lemma EmptyTwice(m: Memory, chain: seq<nat>, cs: seq<Choice>, cs': seq<Choice>)
    requires MemOk(m, chain) && Values(m) == {} && m.Deleted(TAIL) == 0
    requires |cs| >= 3 * |chain| && Allowed(m, Begin(A.DeleteMin), cs)
    requires TAIL in m.nodes && |cs'| >= 3 * |chain| && Allowed(m.Bump(TAIL), Begin(A.DeleteMin), cs')
    ensures Solo(m, Begin(A.DeleteMin), cs) == Next(m.Bump(TAIL), Leaving(A.Unset))
    ensures Solo(m.Bump(TAIL), Begin(A.DeleteMin), cs') == Fault
  {
    hide Values, Solo, Allowed;
    NaiveExactly(m, chain, cs);
    BumpEffect(m, chain, TAIL, m.Bump(TAIL));
    NaiveExactly(m.Bump(TAIL), chain, cs');
  }
}
