// The three changes to the level-0 list: linking a node, marking the first live
// node deleted, and swinging the head over deleted nodes.

module PrioqLevelZero {
  import opened PrioqModel
  import opened PrioqInvariant
  import opened PrioqStability
  import opened PrioqEffects
  import AtomicQueue

  // ---------- linking ----------

  // The only unmarked pointers lead into the live part: p stands right before live[j].
  ghost predicate Slot(g: History, p: nat, s: nat, j: nat) {
    && j <= |g.live|
    && s == g.LiveAt(j)
    && (if j > 0 then p == g.live[j - 1]
        else if |g.dead| == 0 then p == HEAD
        else p == g.dead[|g.dead| - 1])
  }

  lemma FindSlot(m: Memory, g: History, p: nat, s: nat) returns (j: nat)
    requires MemOk(m, g)
    requires p == HEAD || g.Linked(p)
    requires m.Next(p, 0) == Link(s, false)
    ensures Slot(g, p, s, j)
  {
    if p == HEAD {
      j := 0;
    } else if p in g.pos {
      j := 0;
      assert m.Next(g.dead[g.pos[p]], 0) == g.DeadLink(g.pos[p]);
    } else {
      var i :| 0 <= i < |g.live| && g.live[i] == p;
      assert m.Next(g.live[i], 0) == Link(g.LiveAt(i + 1), false);
      j := i + 1;
    }
  }

  function Spliced(live: seq<nat>, j: nat, n: nat): (r: seq<nat>)
    requires j <= |live|
    ensures |r| == |live| + 1
  {
    live[..j] + [n] + live[j..]
  }

  lemma SplicedMembers(live: seq<nat>, j: nat, n: nat)
    requires j <= |live|
    ensures forall x :: x in Spliced(live, j, n) <==> x == n || x in live
  {
    var r := Spliced(live, j, n);
    forall x | x in live ensures x in r {
      var i :| 0 <= i < |live| && live[i] == x;
      assert r[if i < j then i else i + 1] == x;
    }
    assert r[j] == n;
  }

  lemma SplicedSorted(m: Memory, live: seq<nat>, j: nat, n: nat)
    requires j <= |live|
    requires Sorted(m, live)
    requires j > 0 ==> m.Key(live[j - 1]) < m.Key(n)
    requires j < |live| ==> m.Key(n) < m.Key(live[j])
    ensures Sorted(m, Spliced(live, j, n))
  {
    var r := Spliced(live, j, n);
    forall i, i' | 0 <= i < i' < |r| ensures m.Key(r[i]) < m.Key(r[i']) {
      assert i < j ==> i == j - 1 || m.Key(live[i]) < m.Key(live[j - 1]);
      assert i' > j ==> i' == j + 1 || m.Key(live[j]) < m.Key(live[i' - 1]);
    }
  }

  lemma SplicedAt(live: seq<nat>, j: nat, n: nat, i: nat)
    requires j <= |live| && i < |live|
    ensures Spliced(live, j, n)[if i < j then i else i + 1] == live[i]
    ensures Spliced(live, j, n)[j] == n
  {
  }

  lemma SplicedKey(m: Memory, live: seq<nat>, j: nat, n: nat, k: nat)
    requires j <= |live|
    requires Sorted(m, live) && Sorted(m, Spliced(live, j, n))
    ensures k in Contents(m, live) ==>
              k != m.Key(n) && k in Contents(m, Spliced(live, j, n)) && Contents(m, Spliced(live, j, n))[k] == Contents(m, live)[k]
    ensures k in Contents(m, Spliced(live, j, n)) && k != m.Key(n) ==> k in Contents(m, live)
  {
    var r := Spliced(live, j, n);
    if k in Contents(m, live) {
      var i := ContentsIndex(m, live, k);
      SplicedAt(live, j, n, i);
      ContentsAt(m, r, if i < j then i else i + 1);
    }
    if k in Contents(m, r) && k != m.Key(n) {
      var i := ContentsIndex(m, r, k);
      var i' := if i < j then i else i - 1;
      assert i != j by { assert r[j] == n; }
      SplicedAt(live, j, n, i');
      ContentsAt(m, live, i');
    }
  }

  lemma SplicedContents(m: Memory, live: seq<nat>, j: nat, n: nat)
    requires j <= |live|
    requires Sorted(m, live) && Sorted(m, Spliced(live, j, n))
    ensures m.Key(n) !in Contents(m, live)
    ensures Contents(m, Spliced(live, j, n)) == Contents(m, live)[m.Key(n) := m.Val(n)]
  {
    var r := Spliced(live, j, n);
    var c, c' := Contents(m, live), Contents(m, r);
    assert r[j] == n;
    ContentsAt(m, r, j);
    forall k: nat
      ensures k in c ==> k != m.Key(n) && k in c' && c'[k] == c[k]
      ensures k in c' && k != m.Key(n) ==> k in c
    {
      SplicedKey(m, live, j, n, k);
    }
    assert c'.Keys == c[m.Key(n) := m.Val(n)].Keys;
  }

  // What LinkCas has established when its swap succeeds.
  ghost predicate LinkReady(m: Memory, g: History, a: Ins) {
    && InsertOk(m, g, LinkCas(a))
    && m.Next(a.preds[0], 0) == Link(a.succs[0], false)
  }

  lemma SlotKeys(m: Memory, g: History, a: Ins, j: nat)
    requires MemOk(m, g) && LinkReady(m, g, a)
    requires Slot(g, a.preds[0], a.succs[0], j)
    ensures j > 0 ==> m.Key(g.live[j - 1]) < a.k
    ensures j < |g.live| ==> a.k < m.Key(g.live[j])
  {
    assert PredOk(m, g, a.k, a.preds[0], 0);
    assert SuccOk(m, g, a.k, a.succs[0], 0);
    if j > 0 {
      assert g.Linked(g.live[j - 1]);
      assert NodeOk(m, g.live[j - 1]);
    }
  }

  // p, s, j name the slot, n the node that the write at p puts there.
  ghost predicate LinkWrite(m: Memory, g: History, m': Memory, g': History, p: nat, s: nat, n: nat, j: nat) {
    && (p == HEAD || g.Linked(p))
    && Slot(g, p, s, j)
    && m.CanRead(p, 0) && m.Next(p, 0) == Link(s, false)
    && NodeOk(m, n) && !g.Linked(n) && n !in m.freed
    && (forall i :: m.Next(n, i).Link? ==> i == 0)
    && m.Next(n, 0) == Link(s, false)
    && m' == m.Write(p, 0, Link(n, false))
    && g' == g.(live := Spliced(g.live, j, n))
    && Sorted(m, g'.live)
  }

  lemma SplicedLiveAt(g: History, g': History, n: nat, j: nat, i: nat)
    requires j <= |g.live|
    requires g' == g.(live := Spliced(g.live, j, n))
    ensures g'.LiveAt(i) == if i < j then g.LiveAt(i) else if i == j then n else g.LiveAt(i - 1)
  {
  }

  lemma LinkDead(m: Memory, g: History, m': Memory, g': History, p: nat, s: nat, n: nat, j: nat)
    requires PositionsOk(g) && ChainOk(m, g) && NodesOk(m, g)
    requires LinkWrite(m, g, m', g', p, s, n, j)
    ensures forall i {:trigger m'.Next(g'.dead[i], 0)} :: 0 <= i < |g'.dead| ==> m'.Next(g'.dead[i], 0) == g'.DeadLink(i)
    ensures m'.Next(HEAD, 0) == g'.HeadLink()
  {
    SplicedLiveAt(g, g', n, j, 0);
    if j > 0 { assert g.Linked(g.live[j - 1]) && NodeOk(m, g.live[j - 1]); }
    if |g.dead| > 0 { assert g.Linked(g.dead[|g.dead| - 1]) && NodeOk(m, g.dead[|g.dead| - 1]); }
    forall i | 0 <= i < |g'.dead| ensures m'.Next(g'.dead[i], 0) == g'.DeadLink(i) {
      assert m.Next(g.dead[i], 0) == g.DeadLink(i);
      assert g.Linked(g.dead[i]) && NodeOk(m, g.dead[i]);
      assert g.pos[g.dead[i]] == i;
    }
  }

  // No live node but the one before the slot is the node written to.
  lemma OtherLive(m: Memory, g: History, p: nat, s: nat, j: nat, i: nat)
    requires PositionsOk(g) && NodesOk(m, g) && Sorted(m, g.live)
    requires Slot(g, p, s, j) && i < |g.live| && i + 1 != j
    ensures g.live[i] != p
  {
    assert g.Linked(g.live[i]) && NodeOk(m, g.live[i]);
    if j > 0 {
      assert m.Key(g.live[i]) != m.Key(g.live[j - 1]);
    }
  }

  lemma LinkLive(m: Memory, g: History, m': Memory, g': History, p: nat, s: nat, n: nat, j: nat, i: nat)
    requires PositionsOk(g) && ChainOk(m, g) && NodesOk(m, g) && Sorted(m, g.live)
    requires LinkWrite(m, g, m', g', p, s, n, j)
    requires i < |g'.live|
    ensures m'.Next(g'.live[i], 0) == Link(g'.LiveAt(i + 1), false)
  {
    SplicedLiveAt(g, g', n, j, i);
    SplicedLiveAt(g, g', n, j, i + 1);
    if i == j {
      assert p != n;
    } else if i + 1 == j {
      assert g'.live[i] == p;
    } else {
      var i' := if i < j then i else i - 1;
      assert g'.live[i] == g.live[i'];
      OtherLive(m, g, p, s, j, i');
      assert m.Next(g.live[i'], 0) == Link(g.LiveAt(i' + 1), false);
    }
  }

  lemma LinkUppers(m: Memory, g: History, m': Memory, g': History, p: nat, n: nat)
    requires UppersOk(m, g)
    requires m.CanRead(p, 0) && m.Next(p, 0).Link?
    requires m' == m.Write(p, 0, Link(n, false))
    requires forall x :: g'.Linked(x) <==> x == n || g.Linked(x)
    requires forall i :: m.Next(n, i).Link? ==> i == 0
    ensures UppersOk(m', g')
  {
    assert forall x, i :: !(x == p && i == 0) ==> m'.Next(x, i) == m.Next(x, i);
    assert forall x, i :: m'.Next(x, i).Link? <==> m.Next(x, i).Link?;
    forall x, i ensures UpperOk(m', g', x, i) {
      assert UpperOk(m, g, x, i);
    }
  }

  lemma LinkGuarantee(m: Memory, g: History, m': Memory, g': History, t: nat, p: nat, s: nat, n: nat)
    requires p == HEAD || g.Linked(p)
    requires !g.Linked(n) && n != HEAD && n != TAIL
    requires m.CanRead(p, 0)
    requires m.Next(p, 0) == Link(s, false)
    requires m' == m.Write(p, 0, Link(n, false))
    requires g' == g.(live := g'.live)
    requires forall x :: g'.Linked(x) <==> x == n || g.Linked(x)
    ensures Guarantee(m, g, m', g', t, Some(n))
  {
    assert forall x, i :: !(x == p && i == 0) ==> m'.Next(x, i) == m.Next(x, i);
    assert m'.Next(p, 0) == Link(n, false);
    forall x ensures PointerKept(m, g, m', x) { }
    PrivatesSame(m, g, m', g', Some(n));
  }

  lemma LinkNodes(m: Memory, g: History, m': Memory, g': History, p: nat, s: nat, n: nat, j: nat)
    requires SentinelsOk(m) && PositionsOk(g) && NodesOk(m, g)
    requires LinkWrite(m, g, m', g', p, s, n, j)
    ensures forall x :: g'.Linked(x) <==> x == n || g.Linked(x)
    ensures SentinelsOk(m') && PositionsOk(g') && NodesOk(m', g')
  {
    SplicedMembers(g.live, j, n);
    assert forall x, i :: !(x == p && i == 0) ==> m'.Next(x, i) == m.Next(x, i);
    assert p != TAIL;
    forall x | g'.Linked(x) ensures NodeOk(m', x) { assert NodeOk(m, x); }
  }

  lemma LinkRest(m: Memory, g: History, m': Memory, g': History, p: nat, s: nat, n: nat, j: nat)
    requires FreedOk(m, g) && PassedOk(m, g)
    requires LinkWrite(m, g, m', g', p, s, n, j)
    ensures FreedOk(m', g') && PassedOk(m', g') && Sorted(m', g'.live)
  {
    SplicedMembers(g.live, j, n);
    assert forall x :: m'.Key(x) == m.Key(x) && m'.Inserting(x) == m.Inserting(x);
  }

  lemma LinkChain(m: Memory, g: History, m': Memory, g': History, p: nat, s: nat, n: nat, j: nat)
    requires PositionsOk(g) && ChainOk(m, g) && NodesOk(m, g) && Sorted(m, g.live)
    requires LinkWrite(m, g, m', g', p, s, n, j)
    ensures ChainOk(m', g')
  {
    LinkDead(m, g, m', g', p, s, n, j);
    forall i | 0 <= i < |g'.live| ensures m'.Next(g'.live[i], 0) == Link(g'.LiveAt(i + 1), false) {
      LinkLive(m, g, m', g', p, s, n, j, i);
    }
  }

  lemma LinkMem(m: Memory, g: History, m': Memory, g': History, p: nat, s: nat, n: nat, j: nat)
    requires MemOk(m, g)
    requires LinkWrite(m, g, m', g', p, s, n, j)
    ensures MemOk(m', g')
    ensures forall x :: g'.Linked(x) <==> x == n || g.Linked(x)
  {
    LinkNodes(m, g, m', g', p, s, n, j);
    LinkChain(m, g, m', g', p, s, n, j);
    LinkUppers(m, g, m', g', p, n);
    LinkRest(m, g, m', g', p, s, n, j);
  }

  lemma LinkContents(m: Memory, m': Memory, live: seq<nat>, j: nat, p: nat, n: nat)
    requires j <= |live| && m.CanRead(p, 0)
    requires Sorted(m, live) && Sorted(m, Spliced(live, j, n))
    requires m' == m.Write(p, 0, Link(n, false))
    ensures m.Key(n) !in Contents(m, live)
    ensures Contents(m', Spliced(live, j, n)) == Contents(m, live)[m.Key(n) := m.Val(n)]
  {
    SplicedContents(m, live, j, n);
    assert forall x :: m'.Key(x) == m.Key(x) && m'.Val(x) == m.Val(x);
    SameMap(m, m', Spliced(live, j, n));
  }

  // The successful swap of line 193 adds an absent key.
  lemma LinkEffect(m: Memory, g: History, a: Ins, m': Memory, t: nat) returns (g': History)
    requires MemOk(m, g) && LinkReady(m, g, a)
    requires m.CanRead(a.preds[0], 0)
    requires m' == m.Write(a.preds[0], 0, Link(a.new_, false))
    ensures MemOk(m', g')
    ensures g'.Linked(a.new_) && g'.claim == g.claim
    ensures Guarantee(m, g, m', g', t, Some(a.new_))
    ensures a.k !in Contents(m, g.live)
    ensures Contents(m', g'.live) == Contents(m, g.live)[a.k := a.v]
  {
    var p, s, n := a.preds[0], a.succs[0], a.new_;
    assert PredOk(m, g, a.k, p, 0);
    var j := FindSlot(m, g, p, s);
    SlotKeys(m, g, a, j);
    g' := g.(live := Spliced(g.live, j, n));
    SplicedSorted(m, g.live, j, n);
    assert LinkWrite(m, g, m', g', p, s, n, j);
    LinkMem(m, g, m', g', p, s, n, j);
    LinkGuarantee(m, g, m', g', t, p, s, n);
    LinkContents(m, m', g.live, j, p, n);
  }

  // ---------- marking ----------

  lemma FirstLive(m: Memory, g: History, x: nat, y: nat)
    requires MemOk(m, g)
    requires x == HEAD || x in g.pos
    requires m.Next(x, 0) == Link(y, false) && y != TAIL
    ensures |g.live| > 0 && y == g.live[0]
    ensures if |g.dead| == 0 then x == HEAD else x == g.dead[|g.dead| - 1]
  {
    if x in g.pos {
      assert m.Next(g.dead[g.pos[x]], 0) == g.DeadLink(g.pos[x]);
    }
  }

  ghost function Marked(g: History): History
    requires |g.live| > 0
  {
    History(g.dead + [g.live[0]], g.live[1..], g.pos[g.live[0] := |g.dead|], g.claim)
  }

  lemma MarkedLinked(m: Memory, g: History)
    requires Sorted(m, g.live) && |g.live| > 0 && PositionsOk(g)
    ensures PositionsOk(Marked(g))
    ensures forall n :: Marked(g).Linked(n) <==> g.Linked(n)
  {
    var g' := Marked(g);
    forall n | n in g.live ensures g'.Linked(n) {
      var i :| 0 <= i < |g.live| && g.live[i] == n;
      if i > 0 { assert g'.live[i - 1] == n; }
    }
    forall n | n in g'.pos ensures n !in g'.live {
      forall i | 0 <= i < |g'.live| ensures g'.live[i] != n {
        assert g'.live[i] == g.live[i + 1];
        assert m.Key(g.live[0]) < m.Key(g.live[i + 1]);
      }
    }
  }

  lemma MarkChain(m: Memory, g: History, m': Memory, x: nat)
    requires MemOk(m, g)
    requires |g.live| > 0
    requires if |g.dead| == 0 then x == HEAD else x == g.dead[|g.dead| - 1]
    requires m.CanRead(x, 0)
    requires m' == m.Write(x, 0, Link(g.live[0], true))
    ensures ChainOk(m', Marked(g))
  {
    var g' := Marked(g);
    assert forall i :: 0 <= i < |g.live| ==> g.Linked(g.live[i]) && NodeOk(m, g.live[i]);
    assert forall i :: 0 <= i < |g.dead| ==> g.Linked(g.dead[i]) && NodeOk(m, g.dead[i]);
    forall i | 0 <= i < |g'.dead| ensures m'.Next(g'.dead[i], 0) == g'.DeadLink(i) {
      if i == |g.dead| {
        assert m.Next(g.live[0], 0) == Link(g.LiveAt(1), false);
      } else {
        assert m.Next(g.dead[i], 0) == g.DeadLink(i);
        assert g.pos[g.dead[i]] == i;
      }
    }
    forall i | 0 <= i < |g'.live| ensures m'.Next(g'.live[i], 0) == Link(g'.LiveAt(i + 1), false) {
      assert g'.live[i] == g.live[i + 1];
      assert m.Next(g.live[i + 1], 0) == Link(g.LiveAt(i + 2), false);
    }
  }

  lemma MarkGuarantee(m: Memory, g: History, m': Memory, g': History, t: nat, x: nat, y: nat)
    requires x == HEAD || g.Linked(x)
    requires m.CanRead(x, 0)
    requires m.Next(x, 0) == Link(y, false)
    requires m' == m.Write(x, 0, Link(y, true))
    requires HistoryKept(g, g') && g'.claim == g.claim
    requires forall n :: g'.Linked(n) <==> g.Linked(n)
    ensures Guarantee(m, g, m', g', t, None)
  {
    assert forall z, i :: !(z == x && i == 0) ==> m'.Next(z, i) == m.Next(z, i);
    assert m'.Next(x, 0) == Link(y, true);
    forall z ensures PointerKept(m, g, m', z) { }
    PrivatesSame(m, g, m', g', None);
  }

  lemma MarkNodes(m: Memory, g: History, m': Memory, x: nat)
    requires SentinelsOk(m) && NodesOk(m, g) && PassedOk(m, g) && FreedOk(m, g) && |g.live| > 0
    requires x != TAIL && m.CanRead(x, 0)
    requires m' == m.Write(x, 0, Link(g.live[0], true))
    requires forall n :: Marked(g).Linked(n) <==> g.Linked(n)
    ensures SentinelsOk(m') && NodesOk(m', Marked(g)) && PassedOk(m', Marked(g)) && FreedOk(m', Marked(g))
  {
    var g' := Marked(g);
    assert forall z, i :: !(z == x && i == 0) ==> m'.Next(z, i) == m.Next(z, i);
    assert forall z :: m'.Inserting(z) == m.Inserting(z);
    forall z | g'.Linked(z) ensures NodeOk(m', z) { assert NodeOk(m, z); }
    assert forall n :: n in g'.live ==> n in g.live;
  }

  lemma MarkUppers(m: Memory, g: History, m': Memory, x: nat)
    requires UppersOk(m, g) && |g.live| > 0
    requires m.CanRead(x, 0) && m.Next(x, 0).Link?
    requires m' == m.Write(x, 0, Link(g.live[0], true))
    requires forall n :: Marked(g).Linked(n) <==> g.Linked(n)
    ensures UppersOk(m', Marked(g))
  {
    assert forall z, i :: !(z == x && i == 0) ==> m'.Next(z, i) == m.Next(z, i);
    forall z, i ensures UpperOk(m', Marked(g), z, i) { assert UpperOk(m, g, z, i); }
  }

  lemma MarkMem(m: Memory, g: History, m': Memory, x: nat)
    requires MemOk(m, g)
    requires |g.live| > 0
    requires if |g.dead| == 0 then x == HEAD else x == g.dead[|g.dead| - 1]
    requires m.CanRead(x, 0) && m.Next(x, 0).Link?
    requires m' == m.Write(x, 0, Link(g.live[0], true))
    ensures MemOk(m', Marked(g))
  {
    MarkedLinked(m, g);
    MarkNodes(m, g, m', x);
    MarkChain(m, g, m', x);
    MarkUppers(m, g, m', x);
    RestSorted(m, g.live);
    assert forall z :: m'.Key(z) == m.Key(z);
  }

  lemma RestContents(m: Memory, live: seq<nat>, k: nat)
    requires |live| > 0 && Sorted(m, live) && Sorted(m, live[1..])
    ensures k in Contents(m, live) ==> m.Key(live[0]) <= k
    ensures k in Contents(m, live[1..]) <==> k in Contents(m, live) && k != m.Key(live[0])
    ensures k in Contents(m, live[1..]) ==> k in Contents(m, live) && Contents(m, live[1..])[k] == Contents(m, live)[k]
  {
    if k in Contents(m, live) {
      var i := ContentsIndex(m, live, k);
      if i > 0 {
        assert live[1..][i - 1] == live[i];
        ContentsAt(m, live[1..], i - 1);
      }
    }
    if k in Contents(m, live[1..]) {
      var i := ContentsIndex(m, live[1..], k);
      assert live[1..][i] == live[i + 1];
      ContentsAt(m, live, i + 1);
    }
  }

  lemma RestSorted(m: Memory, live: seq<nat>)
    requires |live| > 0 && Sorted(m, live)
    ensures Sorted(m, live[1..])
  {
    forall i, j | 0 <= i < j < |live[1..]| ensures m.Key(live[1..][i]) < m.Key(live[1..][j]) {
      assert live[1..][i] == live[i + 1] && live[1..][j] == live[j + 1];
    }
  }

  lemma MapWithout(c: map<nat, nat>, c': map<nat, nat>, k0: nat)
    requires forall k: nat :: k in c' <==> k in c && k != k0
    requires forall k: nat :: k in c' ==> c'[k] == c[k]
    ensures c' == c - {k0}
  {
    assert c'.Keys == (c - {k0}).Keys;
  }

  lemma FirstIsMin(m: Memory, live: seq<nat>)
    requires |live| > 0 && Sorted(m, live)
    ensures Sorted(m, live[1..])
    ensures AtomicQueue.IsMin(Contents(m, live), m.Key(live[0]))
    ensures Contents(m, live)[m.Key(live[0])] == m.Val(live[0])
    ensures Contents(m, live[1..]) == Contents(m, live) - {m.Key(live[0])}
  {
    RestSorted(m, live);
    ContentsAt(m, live, 0);
    var c, c', k0 := Contents(m, live), Contents(m, live[1..]), m.Key(live[0]);
    forall k: nat
      ensures k in c ==> k0 <= k
      ensures k in c' <==> k in c && k != k0
      ensures k in c' ==> k in c && c'[k] == c[k]
    {
      RestContents(m, live, k);
    }
    MapWithout(c, c', k0);
  }

  lemma MarkContents(m: Memory, m': Memory, live: seq<nat>, x: nat)
    requires Sorted(m, live) && |live| > 0 && m.CanRead(x, 0)
    requires m' == m.Write(x, 0, Link(live[0], true))
    ensures AtomicQueue.IsMin(Contents(m, live), m.Key(live[0]))
    ensures Contents(m, live)[m.Key(live[0])] == m.Val(live[0])
    ensures Contents(m', live[1..]) == Contents(m, live) - {m.Key(live[0])}
  {
    FirstIsMin(m, live);
    assert forall z :: m'.Key(z) == m.Key(z) && m'.Val(z) == m.Val(z);
    SameMap(m, m', live[1..]);
  }

  // The fetch-and-or of line 334 that finds the pointer unmarked removes the minimum.
  lemma MarkEffect(m: Memory, g: History, m': Memory, t: nat, x: nat, y: nat) returns (g': History)
    requires MemOk(m, g)
    requires x == HEAD || x in g.pos
    requires m.CanRead(x, 0) && m.Next(x, 0) == Link(y, false) && y != TAIL
    requires m' == m.Write(x, 0, Link(y, true))
    ensures MemOk(m', g')
    ensures Guarantee(m, g, m', g', t, None)
    ensures g'.claim == g.claim
    ensures y in g'.pos && g'.pos[y] == |g.dead| && NodeOk(m, y)
    ensures x in g.pos ==> g.pos[x] + 1 == |g.dead|
    ensures x !in g.pos ==> |g.dead| == 0
    ensures AtomicQueue.IsMin(Contents(m, g.live), m.Key(y))
    ensures Contents(m, g.live)[m.Key(y)] == m.Val(y)
    ensures Contents(m', g'.live) == Contents(m, g.live) - {m.Key(y)}
  {
    FirstLive(m, g, x, y);
    HeadNotDead(m, g);
    g' := Marked(g);
    assert NodeOk(m, y) by { assert g.Linked(y); }
    MarkedLinked(m, g);
    MarkMem(m, g, m', x);
    MarkGuarantee(m, g, m', g', t, x, y);
    MarkContents(m, m', g.live, x);
  }

  // ---------- swinging the head ----------

  lemma SwingGuarantee(m: Memory, g: History, m': Memory, g': History, t: nat, n: nat)
    requires n != TAIL && m.CanRead(HEAD, 0)
    requires m.Next(HEAD, 0).Marked()
    requires m' == m.Write(HEAD, 0, Link(n, true))
    requires g' == g.(claim := g'.claim) && |g.claim| <= |g'.claim|
    requires ClaimsKept(g, g', t)
    ensures Guarantee(m, g, m', g', t, None)
  {
    assert forall z, i :: !(z == HEAD && i == 0) ==> m'.Next(z, i) == m.Next(z, i);
    assert m'.Next(HEAD, 0) == Link(n, true);
    forall z ensures PointerKept(m, g, m', z) { }
    assert forall z :: g'.Linked(z) == g.Linked(z);
    PrivatesSame(m, g, m', g', None);
  }

  lemma SwingMem(m: Memory, g: History, m': Memory, g': History, n: nat)
    requires MemOk(m, g)
    requires m.CanRead(HEAD, 0) && m.Next(HEAD, 0).Link?
    requires n in g.pos && |g.claim| <= g.pos[n]
    requires m' == m.Write(HEAD, 0, Link(n, true))
    requires g' == g.(claim := g'.claim) && |g'.claim| == g.pos[n]
    requires forall j :: 0 <= j < |g.claim| ==> g'.claim[j] == g.claim[j]
    requires forall j :: |g.claim| <= j < g.pos[n] ==> !m.Inserting(g.dead[j])
    ensures MemOk(m', g')
  {
    HeadNotDead(m, g);
    assert forall z, i :: !(z == HEAD && i == 0) ==> m'.Next(z, i) == m.Next(z, i);
    assert forall z :: m'.Key(z) == m.Key(z) && m'.Inserting(z) == m.Inserting(z);
    assert forall z :: g'.Linked(z) == g.Linked(z);
    forall z | g.Linked(z) ensures NodeOk(m', z) { assert NodeOk(m, z); }
    assert forall i :: 0 <= i < |g.live| ==> g.Linked(g.live[i]) && NodeOk(m, g.live[i]);
    assert forall i :: 0 <= i < |g.dead| ==> g.Linked(g.dead[i]) && NodeOk(m, g.dead[i]);
    assert forall j :: g'.DeadLink(j) == g.DeadLink(j);
    assert forall j :: g'.LiveAt(j) == g.LiveAt(j);
    forall z, i ensures UpperOk(m', g', z, i) { assert UpperOk(m, g, z, i); }
  }

  // The successful swap of line 357: the head moves forward, over no node that is
  // still being inserted, and thread t takes over the nodes it cut off.
  lemma SwingEffect(m: Memory, g: History, m': Memory, t: nat, d: Del) returns (g': History)
    requires MemOk(m, g) && WonOk(m, g, d)
    requires Owes(g, t, 0, 0)
    requires m.CanRead(HEAD, 0) && m.Next(HEAD, 0) == d.obs
    requires m' == m.Write(HEAD, 0, Link(d.newhead.value, true))
    ensures MemOk(m', g')
    ensures Guarantee(m, g, m', g', t, None)
    ensures SameContents(m, g, m', g')
    ensures d.obs.node in g'.pos && d.newhead.value in g'.pos
    ensures g'.pos[d.obs.node] <= g'.pos[d.newhead.value] <= |g'.claim|
    ensures Owes(g', t, g'.pos[d.obs.node], g'.pos[d.newhead.value])
    ensures d.obs.marked
  {
    var n := d.newhead.value;
    assert d.obs == g.HeadLink() && |g.dead| > 0;
    assert d.obs.node == g.dead[|g.claim|];
    HeadNotDead(m, g);
    g' := g.(claim := g.claim + seq(g.pos[n] - |g.claim|, j => Some(t)));
    SwingMem(m, g, m', g', n);
    SwingGuarantee(m, g, m', g', t, n);
    ContentsKept(m, g, m');
  }
}
