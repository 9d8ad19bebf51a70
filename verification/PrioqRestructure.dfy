// The restructure of a deletemin that runs alone after its swap of the head: where the head's upper
// pointers lead afterwards.

module PrioqRestructure {
  import opened PrioqParams
  import opened PrioqModel

  // ---------- walks over deleted nodes ----------

  // The node's own pointer on level 0 is marked: restructure passes it.
  predicate Dead(m: Memory, n: nat) {
    m.Next(n, 0).Marked()
  }

  function After(m: Memory, i: nat, n: nat): nat {
    if m.Next(n, i).Link? then m.Next(n, i).node else TAIL
  }

  // k steps along level i from p to q, each onto a dead node.
  ghost predicate Marches(m: Memory, i: nat, p: nat, q: nat, k: nat)
    decreases k
  {
    if k == 0 then p == q else Dead(m, After(m, i, p)) && Marches(m, i, After(m, i, p), q, k - 1)
  }

  // The walk along level i from p over dead nodes ends at z.
  ghost predicate EndsAt(m: Memory, i: nat, p: nat, z: nat) {
    !Dead(m, After(m, i, z)) && exists k: nat :: Marches(m, i, p, z, k)
  }

  lemma {:induction false} MarchesOn(m: Memory, i: nat, p: nat, q: nat, k: nat)
    requires Marches(m, i, p, q, k) && Dead(m, After(m, i, q))
    ensures Marches(m, i, p, After(m, i, q), k + 1)
    decreases k
  {
    if k > 0 {
      MarchesOn(m, i, After(m, i, p), q, k - 1);
    }
  }

  lemma {:induction false} MarchesSame(m: Memory, i: nat, p: nat, z: nat, k: nat, z': nat, k': nat)
    requires Marches(m, i, p, z, k) && !Dead(m, After(m, i, z))
    requires Marches(m, i, p, z', k') && !Dead(m, After(m, i, z'))
    ensures z == z'
    decreases k
  {
    if k > 0 && k' > 0 {
      MarchesSame(m, i, After(m, i, p), z, k - 1, z', k' - 1);
    }
  }

  lemma EndsOnce(m: Memory, i: nat, p: nat, z: nat, z': nat)
    requires EndsAt(m, i, p, z) && EndsAt(m, i, p, z')
    ensures z == z'
  {
    var k: nat :| Marches(m, i, p, z, k);
    var k': nat :| Marches(m, i, p, z', k');
    MarchesSame(m, i, p, z, k, z', k');
  }

  // ---------- where restructure takes the head ----------

  // The head's pointer on level i leads to a dead node.
  predicate Stale(m: Memory, i: nat) {
    Dead(m, After(m, i, HEAD))
  }

  // Level i, begun with pred at q, is left with pred at p.
  ghost predicate Leaves(m: Memory, i: nat, q: nat, p: nat) {
    if Stale(m, i) then EndsAt(m, i, q, p) else p == q
  }

  // restructure comes to level i with pred at p: the end of the walk on the nearest level above
  // whose head pointer was stale, or the head.
  ghost predicate StartsAt(m: Memory, i: nat, p: nat)
    decreases NUM_LEVELS - i
  {
    if i >= NUM_LEVELS - 1 then p == HEAD
    else var above := i + 1; exists q :: StartsAt(m, above, q) && Leaves(m, above, q, p)
  }

  // The head's pointer on level i is made to lead to f.
  ghost predicate Lands(m: Memory, i: nat, f: nat) {
    if Stale(m, i) then exists p, z :: StartsAt(m, i, p) && EndsAt(m, i, p, z) && f == After(m, i, z)
    else f == After(m, i, HEAD)
  }

  lemma {:induction false} StartsOnce(m: Memory, i: nat, p: nat, p': nat)
    requires StartsAt(m, i, p) && StartsAt(m, i, p')
    ensures p == p'
    decreases NUM_LEVELS - i
  {
    if i < NUM_LEVELS - 1 {
      var q :| StartsAt(m, i + 1, q) && Leaves(m, i + 1, q, p);
      var q' :| StartsAt(m, i + 1, q') && Leaves(m, i + 1, q', p');
      StartsOnce(m, i + 1, q, q');
      if Stale(m, i + 1) { EndsOnce(m, i + 1, q, p, p'); }
    }
  }

  // Lands is a function of the memory and the level.
  lemma LandsOnce(m: Memory, i: nat, f: nat, f': nat)
    requires Lands(m, i, f) && Lands(m, i, f')
    ensures f == f'
  {
    if Stale(m, i) {
      var p, z :| StartsAt(m, i, p) && EndsAt(m, i, p, z) && f == After(m, i, z);
      var p', z' :| StartsAt(m, i, p') && EndsAt(m, i, p', z') && f' == After(m, i, z');
      StartsOnce(m, i, p, p');
      EndsOnce(m, i, p, z, z');
    }
  }

  lemma LandsLive(m: Memory, i: nat, f: nat)
    requires Lands(m, i, f)
    ensures !Dead(m, f)
  {
  }

  // ---------- the steps ----------

  // Of ms only the head's pointers above level i have been rebuilt.
  ghost predicate Rebuilt(ms: Memory, m: Memory, i: nat) {
    && HEAD in ms.nodes && HEAD in m.nodes
    && m == ms.(nodes := ms.nodes[HEAD := m.nodes[HEAD]])
    && (forall j :: 0 <= j <= i ==> m.Next(HEAD, j) == ms.Next(HEAD, j))
    && (forall j :: i < j < NUM_LEVELS ==> RebuiltAt(ms, m, j))
    && m.Next(HEAD, 0) == ms.Next(HEAD, 0)
  }

  ghost predicate RebuiltAt(ms: Memory, m: Memory, j: nat) {
    m.Next(HEAD, j).Link? && !m.Next(HEAD, j).marked && Lands(ms, j, m.Next(HEAD, j).node)
  }

  // The walk of level i has come to pred.
  ghost predicate Walking(ms: Memory, i: nat, pred: nat) {
    Stale(ms, i) && exists p, k: nat :: StartsAt(ms, i, p) && Marches(ms, i, p, pred, k)
  }

  ghost predicate Restructures(ms: Memory, m: Memory, l: Local) {
    match l
    case ReHead(d, v, i, pred) => 0 < i < NUM_LEVELS && Rebuilt(ms, m, i) && StartsAt(ms, i, pred)
    case RePred(d, v, i, pred, hd) =>
      0 < i < NUM_LEVELS && Rebuilt(ms, m, i) && StartsAt(ms, i, pred) && m.Next(HEAD, i) == Link(hd, false)
    case ReTest(d, v, i, pred, hd, cur) =>
      0 < i < NUM_LEVELS && Rebuilt(ms, m, i) && StartsAt(ms, i, pred) && m.Next(HEAD, i) == Link(hd, false)
      && m.Next(pred, i) == Link(cur, false)
    case ReSkip(d, v, i, pred, hd, cur) =>
      0 < i < NUM_LEVELS && Rebuilt(ms, m, i) && Walking(ms, i, pred) && m.Next(HEAD, i) == Link(hd, false)
      && m.Next(pred, i) == Link(cur, false)
    case ReNext(d, v, i, pred, hd) =>
      0 < i < NUM_LEVELS && Rebuilt(ms, m, i) && Walking(ms, i, pred) && m.Next(HEAD, i) == Link(hd, false)
    case ReCas(d, v, i, pred, hd, cur) =>
      0 < i < NUM_LEVELS && Rebuilt(ms, m, i) && Walking(ms, i, pred) && m.Next(HEAD, i) == Link(hd, false)
      && m.Next(pred, i) == Link(cur, false) && !Dead(m, cur)
    case FreeRead(d, v, cur) => Rebuilt(ms, m, 0) && d.obs.Link? && cur == d.obs.node
    case _ => false
  }

  // Whatever is not above level i is as it was.
  lemma Same(ms: Memory, m: Memory, i: nat, n: nat, j: nat)
    requires Rebuilt(ms, m, i) && (n != HEAD || j <= i)
    ensures m.Next(n, j) == ms.Next(n, j)
  {
  }

  lemma SameDead(ms: Memory, m: Memory, i: nat, n: nat)
    requires Rebuilt(ms, m, i)
    ensures Dead(m, n) <==> Dead(ms, n)
  {
    Same(ms, m, i, n, 0);
  }

  // A level that is not stale keeps its head pointer.
  lemma SkipsLevel(ms: Memory, m: Memory, i: nat, pred: nat, hd: nat)
    requires 0 < i < NUM_LEVELS && Rebuilt(ms, m, i) && StartsAt(ms, i, pred) && m.Next(HEAD, i) == Link(hd, false)
    requires !Dead(m, hd)
    ensures Rebuilt(ms, m, i - 1) && StartsAt(ms, i - 1, pred)
  {
    Same(ms, m, i, HEAD, i);
    SameDead(ms, m, i, hd);
    hide Dead;
    assert Lands(ms, i, hd);
    forall j | i - 1 < j < NUM_LEVELS ensures RebuiltAt(ms, m, j) {}
  }

  lemma Begins(ms: Memory, m: Memory, i: nat, pred: nat, hd: nat)
    requires i < NUM_LEVELS && Rebuilt(ms, m, i) && StartsAt(ms, i, pred) && m.Next(HEAD, i) == Link(hd, false) && Dead(m, hd)
    ensures Walking(ms, i, pred)
  {
    Same(ms, m, i, HEAD, i);
    SameDead(ms, m, i, hd);
    hide Dead;
    assert Marches(ms, i, pred, pred, 0);
  }

  lemma WalksOn(ms: Memory, m: Memory, i: nat, pred: nat, cur: nat)
    requires i < NUM_LEVELS && Rebuilt(ms, m, i) && Walking(ms, i, pred) && m.Next(pred, i) == Link(cur, false) && Dead(m, cur)
    ensures Walking(ms, i, cur)
  {
    Same(ms, m, i, pred, i);
    SameDead(ms, m, i, cur);
    hide Dead;
    var p, k: nat :| StartsAt(ms, i, p) && Marches(ms, i, p, pred, k);
    MarchesOn(ms, i, p, pred, k);
  }

  // The swap puts the head where the walk ended, and the walk below starts there.
  lemma Swaps(ms: Memory, m: Memory, i: nat, pred: nat, cur: nat, m': Memory)
    requires 0 < i < NUM_LEVELS && Rebuilt(ms, m, i) && Walking(ms, i, pred) && m.Next(pred, i) == Link(cur, false) && !Dead(m, cur)
    requires m.CanRead(HEAD, i) && m' == m.Write(HEAD, i, Link(cur, false))
    ensures Rebuilt(ms, m', i - 1) && StartsAt(ms, i - 1, pred)
  {
    Same(ms, m, i, pred, i);
    SameDead(ms, m, i, cur);
    hide Dead;
    var p, k: nat :| StartsAt(ms, i, p) && Marches(ms, i, p, pred, k);
    assert EndsAt(ms, i, p, pred);
    assert Lands(ms, i, cur);
    assert ms.nodes[HEAD := m.nodes[HEAD]][HEAD := m'.nodes[HEAD]] == ms.nodes[HEAD := m'.nodes[HEAD]];
    forall j | i - 1 < j < NUM_LEVELS ensures RebuiltAt(ms, m', j) {
      if j > i { assert RebuiltAt(ms, m, j) && m'.Next(HEAD, j) == m.Next(HEAD, j); }
    }
  }

  lemma RestructureTurn(ms: Memory, m: Memory, l: Local, mo: int, ch: Choice)
    requires Restructures(ms, m, l) && !l.FreeRead? && Exec(m, l, mo, ch).Next?
    ensures var o := Exec(m, l, mo, ch); Restructures(ms, o.m, o.l)
  {
    hide Rebuilt, StartsAt, Walking, Dead, Stale;
    match l
    case ReHead(d, v, i, pred) =>
    case RePred(d, v, i, pred, hd) =>
    case ReTest(d, v, i, pred, hd, cur) =>
      if Dead(m, hd) { Begins(ms, m, i, pred, hd); } else { SkipsLevel(ms, m, i, pred, hd); }
      DeadIs(m, hd);
    case ReSkip(d, v, i, pred, hd, cur) =>
      if Dead(m, cur) { WalksOn(ms, m, i, pred, cur); }
      DeadIs(m, cur);
    case ReNext(d, v, i, pred, hd) =>
    case ReCas(d, v, i, pred, hd, cur) => Swaps(ms, m, i, pred, cur, Exec(m, l, mo, ch).m);
  }

  lemma DeadIs(m: Memory, n: nat)
    ensures Dead(m, n) <==> m.Next(n, 0).Marked()
  {
  }
}
