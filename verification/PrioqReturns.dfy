// In every reachable state an idle thread that calls an operation and then runs alone gets its answer,
// the one that the sequential queue gives.

module PrioqReturns {
  import opened PrioqParams
  import opened PrioqModel
  import opened PrioqInvariant
  import opened PrioqRuns
  import opened PrioqHeights
  import opened PrioqAlone
  import opened PrioqInsertAlone
  import opened PrioqDeleteAlone

  lemma IdleReady(s: Machine, g: History, h: Ranks, t: nat, l: Local)
    requires Inv(s, g) && Heights(s, h) && t in s.threads && s.threads[t] == Outside
    requires l == DelObserve || (l.InsAlloc? && KEYMIN < l.k < KEYS)
    ensures Good(s.mem, g, h, t, l)
  {
    hide MemOk, Ranked;
    assert ThreadOk(s.mem, g, t, Outside);
  }

  // insert(k, v) for a key below the sentinel's.
  lemma InsertReturns(r: Run, n: nat, t: nat, k: nat, v: nat, cs: seq<Choice>, c0: map<nat, nat>)
    requires r.Valid() && n < |r.states| && t in r.states[n].threads && r.states[n].threads[t] == Outside
    requires KEYMIN < k < KEYMAX && Holds(r.states[n].mem, c0)
    requires Allowed(r.states[n].mem, InsAlloc(k, v), r.states[n].maxOffset, cs) && |cs| >= 64 * |r.states[n].mem.nodes| + 133
    ensures var o := Solo(r.states[n].mem, InsAlloc(k, v), r.states[n].maxOffset, cs);
      && o.Next? && o.l == InsDone && Holds(o.m, if k in c0 then c0 else c0[k := v])
      && PrioqInsertAlone.Ended(r.states[n].mem, o.m, Call(k, v, cs[0].id, cs[0].level, k in c0))
  {
    hide Inv, Heights, Good, Solo, Allowed, Holds, PrioqInsertAlone.Ended;
    var g, h := RunHeights(r, n);
    IdleReady(r.states[n], g, h, t, InsAlloc(k, v));
    InsertAlone(r.states[n].mem, g, h, t, k, v, r.states[n].maxOffset, cs, c0);
  }

  // deletemin().
  lemma DeleteReturns(r: Run, n: nat, t: nat, cs: seq<Choice>, c0: map<nat, nat>)
    requires r.Valid() && n < |r.states| && t in r.states[n].threads && r.states[n].threads[t] == Outside
    requires Holds(r.states[n].mem, c0)
    requires Allowed(r.states[n].mem, DelObserve, r.states[n].maxOffset, cs) && |cs| >= 67 * |r.states[n].mem.nodes| + 191
    ensures var o := Solo(r.states[n].mem, DelObserve, r.states[n].maxOffset, cs);
      o.Next? && exists g :: Inv(r.states[n], g) && PrioqDeleteAlone.Result(r.states[n].mem, g, r.states[n].maxOffset, c0, o.m, o.l)
  {
    hide Inv, Heights, Good, Solo, Allowed, Holds, PrioqDeleteAlone.Result;
    var g, h := RunHeights(r, n);
    IdleReady(r.states[n], g, h, t, DelObserve);
    DeleteAlone(r.states[n].mem, g, h, t, r.states[n].maxOffset, cs, c0);
  }
}
