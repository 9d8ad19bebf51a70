// Every way a step changes shared memory: each keeps the memory invariant for a
// suitable continuation of the history and stays within the guarantee.

module PrioqEffects {
  import opened PrioqModel
  import opened PrioqInvariant
  import opened PrioqStability

  // The abstract map: the keys and values of the live nodes.
  ghost function KeySet(m: Memory, live: seq<nat>): set<nat> {
    set j | 0 <= j < |live| :: m.Key(live[j])
  }

  ghost function ValueOf(m: Memory, live: seq<nat>, k: nat): nat
    requires k in KeySet(m, live)
  {
    var j :| 0 <= j < |live| && m.Key(live[j]) == k; m.Val(live[j])
  }

  ghost function Contents(m: Memory, live: seq<nat>): map<nat, nat> {
    map k | k in KeySet(m, live) :: ValueOf(m, live, k)
  }

  lemma ContentsAt(m: Memory, live: seq<nat>, j: nat)
    requires Sorted(m, live) && j < |live|
    ensures m.Key(live[j]) in Contents(m, live)
    ensures Contents(m, live)[m.Key(live[j])] == m.Val(live[j])
  {
    var k := m.Key(live[j]);
    assert k in KeySet(m, live);
    var i :| 0 <= i < |live| && m.Key(live[i]) == k && ValueOf(m, live, k) == m.Val(live[i]);
    assert i == j;
  }

  lemma ContentsIndex(m: Memory, live: seq<nat>, k: nat) returns (j: nat)
    requires Sorted(m, live) && k in Contents(m, live)
    ensures j < |live| && m.Key(live[j]) == k && Contents(m, live)[k] == m.Val(live[j])
  {
    j :| 0 <= j < |live| && m.Key(live[j]) == k && ValueOf(m, live, k) == m.Val(live[j]);
  }

  ghost predicate SameContents(m: Memory, g: History, m': Memory, g': History) {
    && Sorted(m, g.live) && Sorted(m', g'.live)
    && Contents(m', g'.live) == Contents(m, g.live)
  }

  lemma SameMap(m: Memory, m': Memory, live: seq<nat>)
    requires Sorted(m, live) && Sorted(m', live)
    requires forall j :: 0 <= j < |live| ==> m'.Key(live[j]) == m.Key(live[j]) && m'.Val(live[j]) == m.Val(live[j])
    ensures Contents(m', live) == Contents(m, live)
  {
    var c, c' := Contents(m, live), Contents(m', live);
    assert c'.Keys == c.Keys;
    forall k | k in c ensures c'[k] == c[k] {
      var j := ContentsIndex(m, live, k);
      ContentsAt(m', live, j);
    }
  }

  lemma ContentsKept(m: Memory, g: History, m': Memory)
    requires MemOk(m, g)
    requires Sorted(m', g.live)
    requires forall n :: NodeKept(m, m', n)
    ensures Contents(m', g.live) == Contents(m, g.live)
  {
    forall j | 0 <= j < |g.live| ensures m'.Key(g.live[j]) == m.Key(g.live[j]) && m'.Val(g.live[j]) == m.Val(g.live[j]) {
      assert NodeOk(m, g.live[j]) by { assert g.Linked(g.live[j]); }
      assert NodeKept(m, m', g.live[j]);
    }
    SameMap(m, m', g.live);
  }

  // An effect that moves no level-0 pointer of the head or a linked node.
  lemma PointersSame(m: Memory, g: History, m': Memory)
    requires forall x :: x == HEAD || g.Linked(x) ==> m'.Next(x, 0) == m.Next(x, 0)
    ensures forall p :: PointerKept(m, g, m', p)
  {
  }

  // Every unlinked node but n is as before.
  lemma PrivatesSame(m: Memory, g: History, m': Memory, g': History, mine: Option<nat>)
    requires forall x :: x in m.nodes && !g.Linked(x) && x != HEAD && x != TAIL && mine != Some(x) ==>
               x in m'.nodes && m'.nodes[x] == m.nodes[x] && !g'.Linked(x) && (x in m'.freed ==> x in m.freed)
    ensures forall x :: PrivateKept(m, g, m', g', mine, x)
  {
  }

  // Outside node n nothing changed, and n is neither linked nor a sentinel.
  ghost predicate EditsUnlinked(m: Memory, g: History, m': Memory, n: nat) {
    && !g.Linked(n) && n != HEAD && n != TAIL
    && n in m'.nodes
    && m'.nodes.Keys == m.nodes.Keys + {n}
    && (forall x :: x in m.nodes && x != n ==> m'.nodes[x] == m.nodes[x])
    && m'.freed == m.freed
  }

  lemma UnlinkedEditMem(m: Memory, g: History, m': Memory, n: nat)
    requires MemOk(m, g)
    requires EditsUnlinked(m, g, m', n)
    ensures MemOk(m', g)
  {
    assert forall x, i :: x != n ==> m'.Next(x, i) == m.Next(x, i);
    forall x | g.Linked(x) ensures NodeOk(m', x) && m'.Key(x) == m.Key(x) && m'.Inserting(x) == m.Inserting(x) {
      assert NodeOk(m, x);
    }
    assert forall j :: 0 <= j < |g.live| ==> g.Linked(g.live[j]);
    assert forall j :: 0 <= j < |g.dead| ==> g.Linked(g.dead[j]);
    forall x, i ensures UpperOk(m', g, x, i) {
      assert UpperOk(m, g, x, i);
    }
  }

  lemma UnlinkedEditGuarantee(m: Memory, g: History, m': Memory, t: nat, n: nat)
    requires EditsUnlinked(m, g, m', n)
    requires NodeKept(m, m', n)
    requires forall i :: LinkKept(m, m', n, i)
    ensures Guarantee(m, g, m', g, t, Some(n))
  {
    assert forall x, i :: x != n ==> m'.Next(x, i) == m.Next(x, i);
    forall x ensures NodeKept(m, m', x) { if x != n && x in m.nodes { assert m'.nodes[x] == m.nodes[x]; } }
    forall x, i ensures LinkKept(m, m', x, i) { assert x == n ==> LinkKept(m, m', n, i); }
    PointersSame(m, g, m');
    PrivatesSame(m, g, m', g, Some(n));
  }

  lemma UnlinkedEdit(m: Memory, g: History, m': Memory, t: nat, n: nat)
    requires MemOk(m, g)
    requires EditsUnlinked(m, g, m', n)
    requires NodeKept(m, m', n)
    requires forall i :: LinkKept(m, m', n, i)
    ensures MemOk(m', g)
    ensures Guarantee(m, g, m', g, t, Some(n))
    ensures SameContents(m, g, m', g)
  {
    UnlinkedEditMem(m, g, m', n);
    UnlinkedEditGuarantee(m, g, m', t, n);
    ContentsKept(m, g, m');
  }

  // ---------- free_node ----------

  lemma FreeGuarantee(m: Memory, g: History, m': Memory, g': History, t: nat, n: nat, mine: Option<nat>)
    requires m' == m.(freed := m.freed + [n])
    requires g' == g.(claim := g'.claim) && |g'.claim| == |g.claim|
    requires ClaimsKept(g, g', t)
    requires mine == Some(n) || (mine == None && g.Linked(n))
    ensures Guarantee(m, g, m', g', t, mine)
  {
    assert forall x, i :: m'.Next(x, i) == m.Next(x, i);
    assert forall x :: g'.Linked(x) == g.Linked(x);
    PointersSame(m, g, m');
    PrivatesSame(m, g, m', g', mine);
  }

  lemma FreeMem(m: Memory, g: History, m': Memory, g': History, n: nat)
    requires MemOk(m, g)
    requires m' == m.(freed := m.freed + [n])
    requires g' == g.(claim := g'.claim) && |g'.claim| == |g.claim|
    requires FreedOk(m', g')
    ensures MemOk(m', g')
  {
    assert forall x, i :: m'.Next(x, i) == m.Next(x, i);
    assert forall x :: m'.Key(x) == m.Key(x) && m'.Inserting(x) == m.Inserting(x);
    assert forall x :: g'.Linked(x) == g.Linked(x);
    forall x | g.Linked(x) ensures NodeOk(m', x) { assert NodeOk(m, x); }
    forall x, i ensures UpperOk(m', g', x, i) { assert UpperOk(m, g, x, i); }
    assert forall j :: g'.DeadLink(j) == g.DeadLink(j);
    assert forall j :: g'.LiveAt(j) == g.LiveAt(j);
  }

  // free_node of a node that was never linked.
  lemma FreePrivate(m: Memory, g: History, m': Memory, t: nat, n: nat)
    requires MemOk(m, g)
    requires n in m.nodes && n != HEAD && n != TAIL && !g.Linked(n) && n !in m.freed
    requires m' == m.(freed := m.freed + [n])
    ensures MemOk(m', g)
    ensures Guarantee(m, g, m', g, t, Some(n))
    ensures SameContents(m, g, m', g)
  {
    FreeMem(m, g, m', g, n);
    FreeGuarantee(m, g, m', g, t, n, Some(n));
    ContentsKept(m, g, m');
  }

  // free_node of a dead node that thread t still owed.
  lemma FreeClaimed(m: Memory, g: History, m': Memory, t: nat, n: nat) returns (g': History)
    requires MemOk(m, g)
    requires n in g.pos && g.pos[n] < |g.claim| && g.claim[g.pos[n]] == Some(t)
    requires m' == m.(freed := m.freed + [n])
    ensures g' == g.(claim := g.claim[g.pos[n] := None])
    ensures MemOk(m', g')
    ensures Guarantee(m, g, m', g', t, None)
    ensures SameContents(m, g, m', g')
    ensures n !in m.freed
  {
    g' := g.(claim := g.claim[g.pos[n] := None]);
    assert NodeOk(m, n) by { assert g.Linked(n); }
    FreeMem(m, g, m', g', n);
    FreeGuarantee(m, g, m', g', t, n, None);
    ContentsKept(m, g, m');
  }

  // ---------- inserting := 0 on a linked node ----------

  lemma FinishMem(m: Memory, g: History, m': Memory, n: nat)
    requires MemOk(m, g)
    requires g.Linked(n) && n in m.nodes
    requires m' == m.ClearInserting(n)
    ensures MemOk(m', g)
  {
    assert NodeOk(m, n);
    assert forall x, i :: m'.Next(x, i) == m.Next(x, i);
    assert forall x :: m'.Key(x) == m.Key(x) && (m'.Inserting(x) ==> m.Inserting(x));
    forall x | g.Linked(x) ensures NodeOk(m', x) { assert NodeOk(m, x); }
    forall x, i ensures UpperOk(m', g, x, i) { assert UpperOk(m, g, x, i); }
  }

  lemma FinishGuarantee(m: Memory, g: History, m': Memory, t: nat, n: nat)
    requires g.Linked(n) && n in m.nodes
    requires m' == m.ClearInserting(n)
    ensures Guarantee(m, g, m', g, t, None)
  {
    assert forall x, i :: m'.Next(x, i) == m.Next(x, i);
    PointersSame(m, g, m');
    PrivatesSame(m, g, m', g, None);
  }

  lemma FinishEffect(m: Memory, g: History, m': Memory, t: nat, n: nat)
    requires MemOk(m, g)
    requires g.Linked(n) && n in m.nodes
    requires m' == m.ClearInserting(n)
    ensures MemOk(m', g)
    ensures Guarantee(m, g, m', g, t, None)
    ensures SameContents(m, g, m', g)
  {
    FinishMem(m, g, m', n);
    FinishGuarantee(m, g, m', t, n);
    ContentsKept(m, g, m');
  }

  // ---------- a write to an upper pointer of the head or a linked node ----------

  lemma UpperWriteMem(m: Memory, g: History, m': Memory, n: nat, i: nat, q: nat)
    requires MemOk(m, g)
    requires (n == HEAD || g.Linked(n)) && i > 0 && m.CanRead(n, i)
    requires m.Next(n, i - 1).Link?
    requires HasLevel(m, g, q, i)
    requires m' == m.Write(n, i, Link(q, false))
    ensures MemOk(m', g)
  {
    if n != HEAD { assert NodeOk(m, n); }
    assert forall x, j :: !(x == n && j == i) ==> m'.Next(x, j) == m.Next(x, j);
    assert forall x :: m'.Key(x) == m.Key(x) && m'.Inserting(x) == m.Inserting(x);
    forall x | g.Linked(x) ensures NodeOk(m', x) { assert NodeOk(m, x); }
    forall x, j ensures UpperOk(m', g, x, j) { assert UpperOk(m, g, x, j); }
  }

  lemma UpperWriteGuarantee(m: Memory, g: History, m': Memory, t: nat, n: nat, i: nat, q: nat)
    requires (n == HEAD || g.Linked(n)) && i > 0 && m.CanRead(n, i)
    requires m' == m.Write(n, i, Link(q, false))
    ensures Guarantee(m, g, m', g, t, None)
  {
    assert forall x, j :: !(x == n && j == i) ==> m'.Next(x, j) == m.Next(x, j);
    PointersSame(m, g, m');
    PrivatesSame(m, g, m', g, None);
  }

  lemma UpperWrite(m: Memory, g: History, m': Memory, t: nat, n: nat, i: nat, q: nat)
    requires MemOk(m, g)
    requires (n == HEAD || g.Linked(n)) && i > 0 && m.CanRead(n, i)
    requires m.Next(n, i - 1).Link?
    requires HasLevel(m, g, q, i)
    requires m' == m.Write(n, i, Link(q, false))
    ensures MemOk(m', g)
    ensures Guarantee(m, g, m', g, t, None)
    ensures SameContents(m, g, m', g)
  {
    UpperWriteMem(m, g, m', n, i, q);
    UpperWriteGuarantee(m, g, m', t, n, i, q);
    ContentsKept(m, g, m');
  }
}
