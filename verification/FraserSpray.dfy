// When spray_delete_min returns a value and when it gives up: exactly, for a call that runs alone, and
// in any interleaving.

module FraserSpray {
  import A = AtomicSet
  import opened FraserModel
  import opened FraserInvariant
  import opened FraserEffects
  import opened FraserRuns
  import opened FraserHindsight
  import opened FraserAlone

  // ---------- running alone ----------

  // n is reached from cur over k nodes that are all claimed.
  ghost predicate Passes(m: Memory, cur: nat, n: nat, k: nat)
    decreases k
  {
    if k == 0 then cur == n else m.Deleted(cur) > 0 && cur != TAIL && Passes(m, m.Next(cur).to, n, k - 1)
  }

  // n is the first node from cur on that is not claimed, or the tail if there is none before it.
  ghost predicate FirstFree(m: Memory, cur: nat, n: nat) {
    (n == TAIL || m.Deleted(n) == 0) && exists k: nat :: Passes(m, cur, n, k)
  }

  lemma {:induction false} FreeOnce(m: Memory, cur: nat, n: nat, k: nat, n': nat, k': nat)
    requires Passes(m, cur, n, k) && (n == TAIL || m.Deleted(n) == 0)
    requires Passes(m, cur, n', k') && (n' == TAIL || m.Deleted(n') == 0)
    ensures n == n'
    decreases k
  {
    if k > 0 && k' > 0 { FreeOnce(m, m.Next(cur).to, n, k - 1, n', k' - 1); }
  }

  // The linked nodes behind n.
  ghost function Above(m: Memory, n: nat): set<nat> {
    set x | x in m.linked && Rank(m, x) > Rank(m, n)
  }

  lemma AboveLess(m: Memory, n: nat)
    requires AllOk(m) && n in m.linked && n != TAIL
    ensures m.Next(n).to in m.linked && m.Next(n).to != HEAD && |Above(m, m.Next(n).to)| < |Above(m, n)|
  {
    assert NodeOk(m, n);
    var a, b := Above(m, m.Next(n).to), Above(m, n);
    assert a <= b && m.Next(n).to in b - a;
    assert b == a + (b - a);
  }

  // At the tail the spray gives up; any other node it claims, and returns its value.
  ghost predicate EndsAt(m: Memory, n: nat, o: Outcome) {
    if n == TAIL then o == Next(m, Leaving(A.Missed))
    else
      && o.Next? && o.l == Leaving(A.Removed(m.Val(n))) && Alive(m, n)
      && o.m.Deleted(n) == 1 && Values(o.m) == Values(m) - {m.Val(n)}
  }

  // What a spray that has arrived at cur does in the end.
  ghost predicate Sprayed(m: Memory, cur: nat, o: Outcome) {
    exists n :: FirstFree(m, cur, n) && EndsAt(m, n, o)
  }

  lemma Onward(m: Memory, cur: nat, o: Outcome)
    requires m.Deleted(cur) > 0 && cur != TAIL && Sprayed(m, m.Next(cur).to, o)
    ensures Sprayed(m, cur, o)
  {
    hide EndsAt;
    var n :| FirstFree(m, m.Next(cur).to, n) && EndsAt(m, n, o);
    var k: nat :| Passes(m, m.Next(cur).to, n, k);
    assert Passes(m, cur, n, k + 1);
  }

  lemma AtTail(m: Memory, chain: seq<nat>, l: Local, cs: seq<Choice>)
    requires MemOk(m, chain) && (l == SprayLast(TAIL) || l == SprayStop(TAIL)) && |cs| >= 1
    ensures Sprayed(m, TAIL, Solo(m, l, cs))
  {
    assert NodeOk(m, TAIL);
    assert Passes(m, TAIL, TAIL, 0);
    assert Exec(m, l, cs[0]) == Next(m, Leaving(A.Missed));
    assert Solo(m, l, cs) == Solo(m, Leaving(A.Missed), cs[1..]);
    assert FirstFree(m, TAIL, TAIL) && EndsAt(m, TAIL, Solo(m, l, cs));
  }

  // The claim, and marking the node's pointer.
  lemma Claims(m: Memory, chain: seq<nat>, cur: nat, cs: seq<Choice>)
    requires MemOk(m, chain) && Proper(m, cur) && m.Deleted(cur) == 0
    requires |cs| >= 5 && Allowed(m, SprayLast(cur), cs)
    ensures Sprayed(m, cur, Solo(m, SprayLast(cur), cs))
  {
    InMemory(m, chain, cur);
    var m1, v := m.Bump(cur), m.Val(cur);
    var m2 := m1.SetNext(cur, Link(m.Next(cur).to, true));
    ClaimEffect(m, chain, cur, m1, m2);
    var leave := Leave(A.Removed(v));
    ClaimSteps(m, cur, m1, m2, cs);
    hide Values, MemOk, ChoiceOk, Exec, Solo, Allowed;
    Five(m, SprayLast(cur), cs, m, SprayTest(cur), m, SprayClaim(cur), m1, MarkRead(cur, leave),
         m1, MarkCas(cur, m.Next(cur).to, leave), m2, Leaving(A.Removed(v)));
    assert Passes(m, cur, cur, 0);
    assert FirstFree(m, cur, cur) && EndsAt(m, cur, Next(m2, Leaving(A.Removed(v))));
  }

  lemma ClaimEffect(m: Memory, chain: seq<nat>, cur: nat, m1: Memory, m2: Memory)
    requires MemOk(m, chain) && Proper(m, cur) && m.Deleted(cur) == 0
    requires m1 == m.Bump(cur) && cur in m1.nodes && m2 == m1.SetNext(cur, Link(m.Next(cur).to, true))
    ensures Alive(m, cur) && !m.Next(cur).marked && m2.Deleted(cur) == 1 && Values(m2) == Values(m) - {m.Val(cur)}
  {
    assert NodeOk(m, cur);
    BumpEffect(m, chain, cur, m1);
    hide Values, MemOk, Guarantee;
    MarkEffect(m1, chain, cur, m2);
  }

  lemma ClaimSteps(m: Memory, cur: nat, m1: Memory, m2: Memory, cs: seq<Choice>)
    requires cur in m.nodes && m.Deleted(cur) == 0 && !m.Next(cur).marked && m.Next(cur) != Link(NULL, false) && |cs| >= 5
    requires m1 == m.Bump(cur) && m2 == m1.SetNext(cur, Link(m.Next(cur).to, true))
    ensures var leave := Leave(A.Removed(m.Val(cur)));
      && Exec(m, SprayLast(cur), cs[0]) == Next(m, SprayTest(cur))
      && Exec(m, SprayTest(cur), cs[1]) == Next(m, SprayClaim(cur))
      && Exec(m, SprayClaim(cur), cs[2]) == Next(m1, MarkRead(cur, leave))
      && Exec(m1, MarkRead(cur, leave), cs[3]) == Next(m1, MarkCas(cur, m.Next(cur).to, leave))
      && Exec(m1, MarkCas(cur, m.Next(cur).to, leave), cs[4]) == Next(m2, Leaving(A.Removed(m.Val(cur))))
  {
  }

  lemma Five(m: Memory, l: Local, cs: seq<Choice>, m1: Memory, l1: Local, m2: Memory, l2: Local, m3: Memory, l3: Local,
             m4: Memory, l4: Local, m5: Memory, l5: Local)
    requires |cs| >= 5 && !l.Leaving? && !l1.Leaving? && !l2.Leaving? && !l3.Leaving? && !l4.Leaving? && l5.Leaving?
    requires Exec(m, l, cs[0]) == Next(m1, l1) && Exec(m1, l1, cs[1]) == Next(m2, l2) && Exec(m2, l2, cs[2]) == Next(m3, l3)
    requires Exec(m3, l3, cs[3]) == Next(m4, l4) && Exec(m4, l4, cs[4]) == Next(m5, l5)
    ensures Solo(m, l, cs) == Next(m5, l5)
  {
    hide Exec;
    assert Solo(m4, l4, cs[4..]) == Next(m5, l5) by { assert cs[4..][0] == cs[4]; }
    assert Solo(m3, l3, cs[3..]) == Solo(m4, l4, cs[4..]) by { assert cs[3..][0] == cs[3] && cs[3..][1..] == cs[4..]; }
    assert Solo(m2, l2, cs[2..]) == Solo(m3, l3, cs[3..]) by { assert cs[2..][0] == cs[2] && cs[2..][1..] == cs[3..]; }
    assert Solo(m1, l1, cs[1..]) == Solo(m2, l2, cs[2..]) by { assert cs[1..][0] == cs[1] && cs[1..][1..] == cs[2..]; }
  }

  lemma {:induction false} FlagAlone(m: Memory, chain: seq<nat>, cur: nat, cs: seq<Choice>)
    requires MemOk(m, chain) && cur in m.linked && cur != HEAD
    requires Allowed(m, SprayFlag(cur), cs) && |cs| >= 3 * |Above(m, cur)| + 6
    ensures Sprayed(m, cur, Solo(m, SprayFlag(cur), cs))
    decreases |Above(m, cur)|
  {
    hide Sprayed, Above, ChoiceOk;
    InMemory(m, chain, cur);
    var l1 := if m.Deleted(cur) != 0 then SprayMore(cur) else SprayLast(cur);
    assert Exec(m, SprayFlag(cur), cs[0]) == Next(m, l1);
    if cur == TAIL {
      if m.Deleted(TAIL) != 0 {
        assert Exec(m, l1, cs[1]) == Next(m, SprayLast(TAIL));
        AtTail(m, chain, SprayLast(TAIL), cs[2..]);
        assert cs[1..][1..] == cs[2..];
      } else {
        AtTail(m, chain, SprayLast(TAIL), cs[1..]);
      }
    } else if m.Deleted(cur) == 0 {
      Claims(m, chain, cur, cs[1..]);
    } else {
      AboveLess(m, cur);
      var next := m.Next(cur).to;
      assert Exec(m, SprayMore(cur), cs[1]) == Next(m, SprayNext(cur));
      assert Exec(m, SprayNext(cur), cs[2]) == Next(m, SprayFlag(next));
      Three(m, cur, next, cs);
      FlagAlone(m, chain, next, cs[3..]);
      Onward(m, cur, Solo(m, SprayFlag(next), cs[3..]));
    }
  }

  lemma Three(m: Memory, cur: nat, next: nat, cs: seq<Choice>)
    requires |cs| >= 3 && Allowed(m, SprayFlag(cur), cs)
    requires Exec(m, SprayFlag(cur), cs[0]) == Next(m, SprayMore(cur)) && Exec(m, SprayMore(cur), cs[1]) == Next(m, SprayNext(cur))
    requires Exec(m, SprayNext(cur), cs[2]) == Next(m, SprayFlag(next))
    ensures Solo(m, SprayFlag(cur), cs) == Solo(m, SprayFlag(next), cs[3..]) && Allowed(m, SprayFlag(next), cs[3..])
  {
    hide Exec, ChoiceOk;
    One(m, SprayFlag(cur), cs, SprayMore(cur));
    assert cs[1..][0] == cs[1] && cs[1..][1..] == cs[2..];
    One(m, SprayMore(cur), cs[1..], SprayNext(cur));
    assert cs[2..][0] == cs[2] && cs[2..][1..] == cs[3..];
    One(m, SprayNext(cur), cs[2..], SprayFlag(next));
  }

  lemma One(m: Memory, l: Local, cs: seq<Choice>, l': Local)
    requires cs != [] && !l.Leaving? && Exec(m, l, cs[0]) == Next(m, l') && Allowed(m, l, cs)
    ensures Solo(m, l, cs) == Solo(m, l', cs[1..]) && Allowed(m, l', cs[1..])
  {
    hide Exec, ChoiceOk;
  }

  lemma InMemory(m: Memory, chain: seq<nat>, n: nat)
    requires MemOk(m, chain) && n in m.linked
    ensures n in m.nodes && n != NULL && (m.Next(n) == Link(NULL, false) <==> n == TAIL)
    ensures n != HEAD && n != TAIL ==> Proper(m, n)
  {
    assert NodeOk(m, n);
    if n != TAIL { assert NodeOk(m, m.Next(n).to); }
  }

  // A spray that has come down at cur and runs alone: at the head it gives up; otherwise it claims
  // the first unclaimed node from cur on and returns its value, and gives up, having changed
  // nothing, only if there is none before the tail.
  lemma SprayAlone(m: Memory, chain: seq<nat>, cur: nat, cs: seq<Choice>)
    requires MemOk(m, chain) && cur in m.linked
    requires Allowed(m, SprayStop(cur), cs) && |cs| >= 3 * |m.linked| + 7
    ensures if cur == HEAD then Solo(m, SprayStop(cur), cs) == Next(m, Leaving(A.Missed)) else Sprayed(m, cur, Solo(m, SprayStop(cur), cs))
  {
    hide Sprayed, ChoiceOk;
    InMemory(m, chain, cur);
    if cur == HEAD {
      assert Exec(m, SprayStop(cur), cs[0]) == Next(m, Leaving(A.Missed));
    } else if cur == TAIL {
      AtTail(m, chain, SprayStop(TAIL), cs);
    } else {
      assert Exec(m, SprayStop(cur), cs[0]) == Next(m, SprayFlag(cur));
      AboveBound(m, cur);
      FlagAlone(m, chain, cur, cs[1..]);
    }
  }

  lemma AboveBound(m: Memory, n: nat)
    ensures |Above(m, n)| <= |m.linked|
  {
    assert m.linked == Above(m, n) + (m.linked - Above(m, n));
  }

  // ---------- in any interleaving ----------

  // Where a spray gives up: at the head, at the tail, or at a node that is claimed.
  predicate GivesUp(m: Memory, l: Local) {
    || l == SprayStop(HEAD) || l == SprayStop(TAIL) || l == SprayLast(TAIL)
    || ((l.SprayTest? || l.SprayClaim?) && m.Deleted(l.cur) > 0)
  }

  predicate InSpray(l: Local) {
    || l.SprayArrive? || l.SprayStop? || l.SprayFlag? || l.SprayMore? || l.SprayNext? || l.SprayLast? || l.SprayTest? || l.SprayClaim?
    || ((l.MarkRead? || l.MarkCas?) && l.after.Leave? && l.after.reply.Removed?)
    || (l.Leaving? && (l.reply.Removed? || l.reply == A.Missed))
  }

  lemma SprayStep(m: Memory, chain: seq<nat>, l: Local, c: Choice)
    requires MemOk(m, chain) && LocalOk(m, l) && InSpray(l) && !l.Leaving? && Exec(m, l, c).Next?
    ensures InSpray(Exec(m, l, c).l) && !(Exec(m, l, c).l == Leaving(A.Missed) && !GivesUp(m, l))
  {
    hide ChainOk, NodeOk;
    if l.SprayStop? || l.SprayLast? { InMemory(m, chain, l.cur); }
  }

  // A call of spray_delete_min that starts at state i and is about to return 0 at state j: at some
  // step in between it stood at the head or at the tail, or at a node that was claimed.
  lemma {:induction false} MissedWhy(r: Run, t: nat, i: nat, j: nat) returns (k: nat)
    requires r.Valid() && i < j < |r.states| && r.who[i] == t && r.Pc(i) == Outside && t in r.states[i].threads
    requires r.choices[i].op == A.Spray && Inside(r, t, i, j)
    ensures t in r.states[j].threads && InSpray(r.states[j].threads[t])
    ensures r.states[j].threads[t] == Leaving(A.Missed) ==> i < k < j && r.who[k] == t && GivesUp(r.states[k].mem, r.Pc(k))
    decreases j - i
  {
    hide Step, Init, Inv, GivesUp, InSpray;
    k := i;
    if j == i + 1 {
      SprayStarts(r.states[i], t, r.choices[i], r.states[j]);
    } else {
      k := MissedWhy(r, t, i, j - 1);
      var chain := RunInv(r, j - 1);
      SprayGoes(r.states[j - 1], chain, r.who[j - 1], r.choices[j - 1], r.states[j], t);
      if r.who[j - 1] == t { k := j - 1; }
    }
  }

  lemma SprayStarts(s: Machine, t: nat, c: Choice, s': Machine)
    requires Step(s, t, c, s') && s.threads[t] == Outside && c.op == A.Spray
    ensures t in s'.threads && InSpray(s'.threads[t]) && s'.threads[t] != Leaving(A.Missed)
  {
  }

  lemma SprayGoes(s: Machine, chain: seq<nat>, u: nat, c: Choice, s': Machine, t: nat)
    requires Inv(s, chain) && Step(s, u, c, s') && t in s.threads && t in s'.threads && InSpray(s.threads[t]) && s'.threads[t] != Outside
    ensures InSpray(s'.threads[t])
    ensures u != t ==> s'.threads[t] == s.threads[t]
    ensures u == t && s'.threads[t] == Leaving(A.Missed) ==> GivesUp(s.mem, s.threads[t])
  {
    hide MemOk, LocalOk, Exec, ChoiceOk, GivesUp;
    if u == t {
      var l := s.threads[t];
      CrashOnly(s.mem, chain, l, c);
      LeavesTo(s.mem, l, c);
      SprayStep(s.mem, chain, l, c);
    }
  }

  lemma LeavesTo(m: Memory, l: Local, c: Choice)
    ensures l.Leaving? ==> Exec(m, l, c) == Next(m, Outside)
  {
  }
}
