// An insertion that runs alone returns, within a number of steps that is a function of how many nodes
// there are, and leaves behind exactly what it should.

module PrioqInsertAlone {
  import opened PrioqParams
  import opened PrioqModel
  import opened PrioqInvariant
  import opened PrioqEffects
  import opened PrioqInsertSteps
  import opened PrioqRuns
  import opened PrioqHeights
  import opened PrioqAlone
  import A = AtomicQueue

  // ---------- what an insertion running alone knows ----------

  // Some marked pointer leads to n.
  ghost predicate Deleted(m: Memory, n: nat) {
    exists q :: m.Next(q, 0) == Link(n, true)
  }

  // The search for k passes n.
  ghost predicate Passes(m: Memory, k: nat, n: nat) {
    n == HEAD || m.Key(n) < k || m.Next(n, 0).Marked() || Deleted(m, n)
  }

  // The search for k may stop in front of n.
  predicate Stops(m: Memory, k: nat, n: nat) {
    m.Key(n) >= k && !m.Next(n, 0).Marked()
  }

  // No pointer on level j but the new node's has changed.
  ghost predicate Untouched(m0: Memory, m: Memory, id: nat, j: nat) {
    forall x :: x != id ==> m.Next(x, j) == m0.Next(x, j)
  }

  ghost predicate UntouchedFrom(m0: Memory, m: Memory, id: nat, i: nat) {
    forall j {:trigger Untouched(m0, m, id, j)} :: i <= j < NUM_LEVELS ==> Untouched(m0, m, id, j)
  }

  // p and s were neighbours on level j, and the search for k ends between them.
  ghost predicate Gap(m0: Memory, k: nat, id: nat, j: nat, p: nat, s: nat) {
    p != id && s != id && m0.Next(p, j) == Link(s, false) && Passes(m0, k, p) && Stops(m0, k, s)
  }

  // On level j the node has been put into that gap, and nothing else changed.
  ghost predicate Between(m0: Memory, m: Memory, k: nat, id: nat, j: nat, p: nat, s: nat) {
    && Gap(m0, k, id, j, p, s) && m.Next(p, j) == Link(id, false) && m.Next(id, j) == Link(s, false)
    && forall x :: x != id && x != p ==> m.Next(x, j) == m0.Next(x, j)
  }

  ghost predicate Spliced(m0: Memory, m: Memory, k: nat, id: nat, j: nat) {
    exists p, s :: Between(m0, m, k, id, j, p, s)
  }

  ghost predicate SplicedBelow(m0: Memory, m: Memory, k: nat, id: nat, i: nat) {
    forall j {:trigger Spliced(m0, m, k, id, j)} :: 0 <= j < i ==> Spliced(m0, m, k, id, j)
  }

  // The node stands on its bottom levels, all of them unless the search of the next one ended in
  // front of a deleted node.
  ghost predicate Built(m0: Memory, m: Memory, k: nat, id: nat, level: nat) {
    exists top: nat ::
      && 0 < top <= level && SplicedBelow(m0, m, k, id, top) && UntouchedFrom(m0, m, id, top)
      && (top < level ==> exists p, s :: Gap(m0, k, id, top, p, s) && Deleted(m0, s))
  }

  // What the insertion has found on level j.
  ghost predicate Found(m0: Memory, a: Ins, j: nat) {
    j in a.preds && j in a.succs && Gap(m0, a.k, a.new_, j, a.preds[j], a.succs[j])
  }

  ghost predicate FoundFrom(m0: Memory, a: Ins, i: nat) {
    forall j {:trigger Found(m0, a, j)} :: i <= j < NUM_LEVELS ==> Found(m0, a, j)
  }

  // The call as it was made, the new node as it was drawn, and whether the key was there.
  datatype Call = Call(k: nat, v: nat, id: nat, level: nat, present: bool)

  ghost predicate Mine(m0: Memory, m: Memory, c: Call, a: Ins) {
    && a.k == c.k && a.v == c.v && a.new_ == c.id && c.id in m.nodes && m.nodes[c.id].level == c.level
    && c.level <= NUM_LEVELS && m.freed == m0.freed
    && (forall x :: x != c.id ==> m.Key(x) == m0.Key(x))
    && (a.del.Some? ==> Deleted(m0, a.del.value))
  }

  ghost predicate Searching(m0: Memory, m: Memory, c: Call, a: Ins, x: nat, i: nat) {
    && Mine(m0, m, c, a) && UntouchedFrom(m0, m, c.id, 0) && i < NUM_LEVELS
    && FoundFrom(m0, a, i + 1) && x != c.id && Passes(m0, c.k, x)
  }

  ghost predicate Located(m0: Memory, m: Memory, c: Call, a: Ins) {
    Mine(m0, m, c, a) && UntouchedFrom(m0, m, c.id, 0) && FoundFrom(m0, a, 0)
  }

  ghost predicate Raising(m0: Memory, m: Memory, c: Call, a: Ins, i: nat) {
    && Mine(m0, m, c, a) && 0 < i < c.level && SplicedBelow(m0, m, c.k, c.id, i)
    && UntouchedFrom(m0, m, c.id, i) && FoundFrom(m0, a, 1) && !c.present
  }

  // Where the call stands.
  ghost predicate Stage(m0: Memory, m: Memory, c: Call, l: Local) {
    match l
    case LocateRead(a, up, x, i) => up == 0 && Searching(m0, m, c, a, x, i)
    case LocateTest(a, up, x, i, xn, mk) => up == 0 && Searching(m0, m, c, a, x, i) && m.Next(x, i) == Link(xn, mk)
    case DupMark(a) => Located(m0, m, c, a)
    case DupSame(a) => Located(m0, m, c, a)
    case DupClear(a) => Located(m0, m, c, a) && c.present
    case DupFree(a) => Located(m0, m, c, a) && c.present && !m.Inserting(c.id)
    case Prepare(a) => Located(m0, m, c, a)
    case LinkCas(a) => Located(m0, m, c, a)
    case UpNew(a, i) => Raising(m0, m, c, a, i)
    case UpSucc(a, i) => Raising(m0, m, c, a, i)
    case UpPrepare(a, i) => Raising(m0, m, c, a, i)
    case UpCas(a, i) => Raising(m0, m, c, a, i)
    case Finish(a) => Mine(m0, m, c, a) && !c.present && Built(m0, m, c.k, c.id, c.level)
    case InsDone => Ended(m0, m, c)
    case _ => false
  }

  // The new node is linked; or, if the key was there, it is freed, and no pointer has changed.
  ghost predicate Ended(m0: Memory, m: Memory, c: Call) {
    && c.id in m.nodes && !m.Inserting(c.id)
    && if c.present then m.freed == m0.freed + [c.id] && UntouchedFrom(m0, m, c.id, 0)
       else m.freed == m0.freed && Built(m0, m, c.k, c.id, c.level)
  }

  // At most so many steps are left.
  function Up(i: nat): int { 4 * (NUM_LEVELS - i) + 1 }

  ghost function Need(h: Ranks, l: Local): int {
    match l
    case LocateRead(_, _, x, i) => if i < |h| then 2 * (Weight(h, i) + |Beyond(h, i, x)|) + 132 else 0
    case LocateTest(_, _, x, i, _, _) => if i < |h| then 2 * (Weight(h, i) + |Beyond(h, i, x)|) + 131 else 0
    case DupMark(_) => 130
    case DupSame(_) => 129
    case Prepare(_) => 128
    case LinkCas(_) => 127
    case UpNew(_, i) => Up(i)
    case UpSucc(_, i) => Up(i) - 1
    case UpPrepare(_, i) => Up(i) - 2
    case UpCas(_, i) => Up(i) - 3
    case DupClear(_) => 2
    case DupFree(_) => 1
    case Finish(_) => 1
    case _ => 0
  }

  // ---------- the search ----------

  lemma ReadTurn(m0: Memory, m: Memory, g: History, h: Ranks, t: nat, c: Call, l: Local)
    requires Good(m, g, h, t, l) && l.LocateRead? && Stage(m0, m, c, l)
    requires DoLocateRead(m, l.a, l.up, l.x, l.i).Next?
    ensures Stage(m0, m, c, DoLocateRead(m, l.a, l.up, l.x, l.i).l)
  {
    hide Good, UntouchedFrom, FoundFrom, Passes, Mine;
  }

  // What the search stands on is not the new node, which is on no level yet.
  lemma NotOwn(m: Memory, g: History, h: Ranks, t: nat, l: Local)
    requires Good(m, g, h, t, l) && l.LocateTest? && l.up == 0
    ensures l.xn != l.a.new_ && On(h, l.i, l.x) && On(h, l.i, l.xn) && l.i < |h|
  {
  }

  lemma OldPointer(m0: Memory, m: Memory, id: nat, i: nat, j: nat, x: nat)
    requires UntouchedFrom(m0, m, id, i) && i <= j < NUM_LEVELS && x != id
    ensures m.Next(x, j) == m0.Next(x, j)
  {
    assert Untouched(m0, m, id, j);
  }

  lemma TestGoesOn(m0: Memory, m: Memory, g: History, h: Ranks, t: nat, c: Call, l: Local)
    requires Good(m, g, h, t, l) && l.LocateTest? && Stage(m0, m, c, l)
    requires m.CanRead(l.xn, 0) && (m.Key(l.xn) < l.a.k || m.Next(l.xn, 0).Marked() || (l.i == 0 && l.mk))
    ensures Stage(m0, m, c, DoLocateTest(m, l.a, l.up, l.x, l.i, l.xn, l.mk).l)
  {
    NotOwn(m, g, h, t, l);
    hide Good, UntouchedFrom, FoundFrom;
    OldPointer(m0, m, c.id, 0, 0, l.xn);
    OldPointer(m0, m, c.id, 0, l.i, l.x);
    assert l.i == 0 && l.mk ==> m0.Next(l.x, 0) == Link(l.xn, true);
    FoundSame(m0, l.a, l.a.(del := Some(l.xn)), l.i + 1);
  }

  lemma FoundSame(m0: Memory, a: Ins, a': Ins, i: nat)
    requires FoundFrom(m0, a, i) && a'.preds == a.preds && a'.succs == a.succs && a'.k == a.k && a'.new_ == a.new_
    ensures FoundFrom(m0, a', i)
  {
    forall j | i <= j < NUM_LEVELS ensures Found(m0, a', j) { assert Found(m0, a, j); }
  }

  lemma UpperUnmarked(m: Memory, g: History, h: Ranks, t: nat, l: Local)
    requires Good(m, g, h, t, l) && l.LocateTest? && l.i > 0 && m.Next(l.x, l.i) == Link(l.xn, l.mk)
    ensures !l.mk
  {
    assert PredOk(m, g, l.a.k, l.x, l.i) && UpperOk(m, g, l.x, l.i);
  }

  lemma TestFinds(m0: Memory, m: Memory, g: History, h: Ranks, t: nat, c: Call, l: Local)
    requires Good(m, g, h, t, l) && l.LocateTest? && Stage(m0, m, c, l)
    requires m.CanRead(l.xn, 0) && m.Key(l.xn) >= l.a.k && !m.Next(l.xn, 0).Marked() && !(l.i == 0 && l.mk)
    ensures var a' := l.a.(preds := l.a.preds[l.i := l.x], succs := l.a.succs[l.i := l.xn]);
      Mine(m0, m, c, a') && FoundFrom(m0, a', l.i)
  {
    NotOwn(m, g, h, t, l);
    if l.i > 0 { UpperUnmarked(m, g, h, t, l); }
    hide Good, UntouchedFrom, Passes, FoundFrom;
    OldPointer(m0, m, c.id, 0, l.i, l.x);
    OldPointer(m0, m, c.id, 0, 0, l.xn);
    FoundMore(m0, l.a, l.i, l.x, l.xn);
  }

  lemma FoundMore(m0: Memory, a: Ins, i: nat, x: nat, xn: nat)
    requires FoundFrom(m0, a, i + 1) && Gap(m0, a.k, a.new_, i, x, xn)
    ensures FoundFrom(m0, a.(preds := a.preds[i := x], succs := a.succs[i := xn]), i)
  {
    hide Gap;
    var a' := a.(preds := a.preds[i := x], succs := a.succs[i := xn]);
    forall j | i <= j < NUM_LEVELS ensures Found(m0, a', j) {
      if j > i { assert Found(m0, a, j); }
    }
  }

  lemma TestStops(m0: Memory, m: Memory, g: History, h: Ranks, t: nat, c: Call, l: Local)
    requires Good(m, g, h, t, l) && l.LocateTest? && Stage(m0, m, c, l)
    requires m.CanRead(l.xn, 0) && m.Key(l.xn) >= l.a.k && !m.Next(l.xn, 0).Marked() && !(l.i == 0 && l.mk)
    ensures Stage(m0, m, c, DoLocateTest(m, l.a, l.up, l.x, l.i, l.xn, l.mk).l)
  {
    TestFinds(m0, m, g, h, t, c, l);
    var a' := l.a.(preds := l.a.preds[l.i := l.x], succs := l.a.succs[l.i := l.xn]);
    hide Good, UntouchedFrom, FoundFrom, Passes, Mine, Stage;
    StageSearching(m0, m, c, l);
    TestEnds(m, l, a');
    Continues(m0, m, c, a', l.x, l.i);
  }

  lemma StageSearching(m0: Memory, m: Memory, c: Call, l: Local)
    requires l.LocateTest? && Stage(m0, m, c, l)
    ensures l.up == 0 && Searching(m0, m, c, l.a, l.x, l.i)
  {
  }

  lemma TestEnds(m: Memory, l: Local, a': Ins)
    requires l.LocateTest? && l.up == 0 && m.CanRead(l.xn, 0)
    requires m.Key(l.xn) >= l.a.k && !m.Next(l.xn, 0).Marked() && !(l.i == 0 && l.mk)
    requires a' == l.a.(preds := l.a.preds[l.i := l.x], succs := l.a.succs[l.i := l.xn])
    ensures var l' := DoLocateTest(m, l.a, l.up, l.x, l.i, l.xn, l.mk).l;
      if l.i == 0 then l' == DupMark(a') || l' == Prepare(a') else l' == LocateRead(a', 0, l.x, l.i - 1)
  {
  }

  lemma Continues(m0: Memory, m: Memory, c: Call, a: Ins, x: nat, i: nat)
    requires Mine(m0, m, c, a) && UntouchedFrom(m0, m, c.id, 0) && i < NUM_LEVELS
    requires FoundFrom(m0, a, i) && x != c.id && Passes(m0, c.k, x)
    ensures if i == 0 then Stage(m0, m, c, DupMark(a)) && Stage(m0, m, c, Prepare(a)) else Stage(m0, m, c, LocateRead(a, 0, x, i - 1))
  {
    hide UntouchedFrom, FoundFrom, Passes, Mine;
  }

  lemma SearchNearer(m: Memory, g: History, h: Ranks, t: nat, l: Local, mo: int, ch: Choice)
    requires Good(m, g, h, t, l) && (l.LocateRead? || l.LocateTest?) && l.up == 0 && Exec(m, l, mo, ch).Next?
    requires l.LocateTest? ==> m.Next(l.x, l.i) == Link(l.xn, l.mk)
    ensures Need(h, Exec(m, l, mo, ch).l) < Need(h, l)
  {
    Indexed(m, g, h, t, l);
    hide Good, Weight, Beyond, On, Rank, Ranked, Need, Exec;
    SearchGoesTo(m, l, mo, ch);
    if l.LocateRead? {
      ReadNearer(h, l, Exec(m, l, mo, ch).l);
    } else {
      RiseAt(m, g, h, t, l);
      if l.i > 0 { BelowToo(m, g, h, t, l); }
      TestNearer(h, l, Exec(m, l, mo, ch).l);
    }
  }

  // Where a step of the search leads.
  lemma SearchGoesTo(m: Memory, l: Local, mo: int, ch: Choice)
    requires (l.LocateRead? || l.LocateTest?) && l.up == 0 && Exec(m, l, mo, ch).Next?
    ensures var l' := Exec(m, l, mo, ch).l; l.LocateRead? ==> l'.LocateTest? && l'.x == l.x && l'.i == l.i
    ensures var l' := Exec(m, l, mo, ch).l; l.LocateTest? ==>
      || (l'.LocateRead? && l'.x == l.xn && l'.i == l.i)
      || (l.i > 0 && l'.LocateRead? && l'.x == l.x && l'.i == l.i - 1)
      || (l.i == 0 && (l'.DupMark? || l'.Prepare?))
  {
  }

  lemma ReadNearer(h: Ranks, l: Local, l': Local)
    requires l.LocateRead? && l'.LocateTest? && l'.x == l.x && l'.i == l.i < |h|
    ensures Need(h, l') < Need(h, l)
  {
    hide Weight, Beyond;
  }

  lemma TestNearer(h: Ranks, l: Local, l': Local)
    requires l.LocateTest? && On(h, l.i, l.x) && On(h, l.i, l.xn) && Rank(h, l.i, l.x) < Rank(h, l.i, l.xn)
    requires l.i > 0 ==> On(h, l.i - 1, l.x)
    requires
      || (l'.LocateRead? && l'.x == l.xn && l'.i == l.i)
      || (l.i > 0 && l'.LocateRead? && l'.x == l.x && l'.i == l.i - 1)
      || (l.i == 0 && (l'.DupMark? || l'.Prepare?))
    ensures Need(h, l') < Need(h, l)
  {
    BeyondLess(h, l.i, l.x, l.xn);
    if l.i > 0 {
      BeyondOnLevel(h, l.i - 1, l.x);
      WeightStep(h, l.i);
    }
    hide Weight, Beyond, Rank;
  }

  lemma Indexed(m: Memory, g: History, h: Ranks, t: nat, l: Local)
    requires Good(m, g, h, t, l) && (l.LocateRead? || l.LocateTest?)
    ensures l.i < |h|
  {
  }

  lemma RiseAt(m: Memory, g: History, h: Ranks, t: nat, l: Local)
    requires Good(m, g, h, t, l) && l.LocateTest? && m.Next(l.x, l.i) == Link(l.xn, l.mk)
    ensures On(h, l.i, l.x) && On(h, l.i, l.xn) && Rank(h, l.i, l.x) < Rank(h, l.i, l.xn)
  {
    RisesFrom(m, g, h, l.i, l.x);
  }

  lemma BelowToo(m: Memory, g: History, h: Ranks, t: nat, l: Local)
    requires Good(m, g, h, t, l) && l.LocateTest? && l.i > 0
    ensures On(h, l.i - 1, l.x)
  {
    NextBelow(m, h, l.i, l.x);
  }

  lemma WeightStep(h: Ranks, i: nat)
    requires 0 < i <= |h|
    ensures Weight(h, i) == Weight(h, i - 1) + |h[i - 1]|
  {
  }

  // ---------- the steps after the search ----------

  lemma DupTurn(m0: Memory, m: Memory, c: Call, l: Local, mo: int, ch: Choice)
    requires Stage(m0, m, c, l) && (l.DupMark? || l.DupSame? || l.DupClear? || l.DupFree? || l.Prepare?)
    requires Exec(m, l, mo, ch).Next? && c.id !in m0.nodes
    requires l.DupSame? && Exec(m, l, mo, ch).l.DupClear? ==> c.present
    ensures Stage(m0, Exec(m, l, mo, ch).m, c, Exec(m, l, mo, ch).l)
  {
    hide FoundFrom, Deleted, UntouchedFrom;
    var m' := Exec(m, l, mo, ch).m;
    OnlyNew(m0, m, m', c.id, 0);
  }

  // A write to the new node only.
  lemma OnlyNew(m0: Memory, m: Memory, m': Memory, id: nat, i: nat)
    requires UntouchedFrom(m0, m, id, i)
    requires forall x, j :: x != id ==> m'.Next(x, j) == m.Next(x, j)
    ensures UntouchedFrom(m0, m', id, i)
  {
    forall j | i <= j < NUM_LEVELS ensures Untouched(m0, m', id, j) { assert Untouched(m0, m, id, j); }
  }

  // The swap of level i succeeds.
  lemma SplicesIn(m0: Memory, m: Memory, c: Call, a: Ins, i: nat, m': Memory)
    requires Mine(m0, m, c, a) && i < NUM_LEVELS && Found(m0, a, i) && Aims(m, a, i)
    requires SplicedBelow(m0, m, c.k, c.id, i) && UntouchedFrom(m0, m, c.id, i)
    requires m.CanRead(a.preds[i], i) && m' == m.Write(a.preds[i], i, Link(a.new_, false))
    ensures Mine(m0, m', c, a) && SplicedBelow(m0, m', c.k, c.id, i + 1) && UntouchedFrom(m0, m', c.id, i + 1)
  {
    hide Passes, Stops, Deleted;
    assert Untouched(m0, m, c.id, i);
    assert Between(m0, m', c.k, c.id, i, a.preds[i], a.succs[i]);
    forall j | 0 <= j < i + 1 ensures Spliced(m0, m', c.k, c.id, j) {
      if j < i {
        assert Spliced(m0, m, c.k, c.id, j);
        SplicedStays(m0, m, m', c.k, c.id, j);
      }
    }
    forall j | i + 1 <= j < NUM_LEVELS ensures Untouched(m0, m', c.id, j) { assert Untouched(m0, m, c.id, j); }
  }

  lemma SplicedStays(m0: Memory, m: Memory, m': Memory, k: nat, id: nat, j: nat)
    requires Spliced(m0, m, k, id, j) && forall x :: m'.Next(x, j) == m.Next(x, j)
    ensures Spliced(m0, m', k, id, j)
  {
    var p, s :| Between(m0, m, k, id, j, p, s);
    assert Between(m0, m', k, id, j, p, s);
  }

  // On to the next level, or to the end.
  lemma NextLevel(m0: Memory, m: Memory, c: Call, a: Ins, i: nat)
    requires Mine(m0, m, c, a) && 0 < i <= c.level && FoundFrom(m0, a, 1)
    requires SplicedBelow(m0, m, c.k, c.id, i) && UntouchedFrom(m0, m, c.id, i) && !c.present
    ensures Stage(m0, m, c, UpLoop(m, a, i))
  {
    hide SplicedBelow, UntouchedFrom, FoundFrom;
  }

  lemma FoundUpper(m0: Memory, a: Ins)
    requires FoundFrom(m0, a, 0)
    ensures FoundFrom(m0, a, 1) && Found(m0, a, 0)
  {
    forall j | 1 <= j < NUM_LEVELS ensures Found(m0, a, j) { assert Found(m0, a, j); }
    assert Found(m0, a, 0);
  }

  lemma LinkTurn(m0: Memory, m: Memory, h: Ranks, c: Call, l: Local, mo: int, ch: Choice)
    requires Stage(m0, m, c, l) && l.LinkCas? && Tall(m, h, l) && c.level >= 1 && !c.present
    requires Exec(m, l, mo, ch).Next?
    ensures var o := Exec(m, l, mo, ch); Stage(m0, o.m, c, o.l) && (o.l == Finish(l.a) || o.l == UpNew(l.a, 1))
  {
    hide FoundFrom, UntouchedFrom, SplicedBelow, Gap, Stage;
    LinkStage(m0, m, h, c, l);
    FoundUpper(m0, l.a);
    OldPointer(m0, m, c.id, 0, 0, l.a.preds[0]);
    GapIs(m0, l.a, 0);
    NoneBelow(m0, m, c);
    var o := Exec(m, l, mo, ch);
    SplicesIn(m0, m, c, l.a, 0, o.m);
    NextLevel(m0, o.m, c, l.a, 1);
    SameLoop(m, o.m, l.a, 1);
  }

  lemma LinkStage(m0: Memory, m: Memory, h: Ranks, c: Call, l: Local)
    requires Stage(m0, m, c, l) && l.LinkCas? && Tall(m, h, l)
    ensures Located(m0, m, c, l.a) && Aims(m, l.a, 0)
    ensures 0 in l.a.preds && l.a.preds[0] != c.id
  {
    assert Found(m0, l.a, 0);
  }

  lemma GapIs(m0: Memory, a: Ins, i: nat)
    requires Found(m0, a, i)
    ensures a.preds[i] != a.new_ && a.succs[i] != a.new_ && m0.Next(a.preds[i], i) == Link(a.succs[i], false)
    ensures Stops(m0, a.k, a.succs[i])
  {
  }

  lemma NoneBelow(m0: Memory, m: Memory, c: Call)
    ensures SplicedBelow(m0, m, c.k, c.id, 0)
  {
  }

  lemma SameLoop(m: Memory, m': Memory, a: Ins, i: nat)
    requires a.new_ in m.nodes && a.new_ in m'.nodes && m'.nodes[a.new_].level == m.nodes[a.new_].level
    ensures UpLoop(m', a, i) == UpLoop(m, a, i)
  {
  }

  lemma UpCasTurn(m0: Memory, m: Memory, h: Ranks, c: Call, l: Local, mo: int, ch: Choice)
    requires Stage(m0, m, c, l) && l.UpCas? && Tall(m, h, l)
    requires Exec(m, l, mo, ch).Next?
    ensures var o := Exec(m, l, mo, ch); Stage(m0, o.m, c, o.l) && (o.l == Finish(l.a) || o.l == UpNew(l.a, l.i + 1))
  {
    hide FoundFrom, UntouchedFrom, SplicedBelow, Gap;
    FoundAt(m0, l.a, l.i);
    GapIs(m0, l.a, l.i);
    OldPointer(m0, m, c.id, l.i, l.i, l.a.preds[l.i]);
    hide Stage;
    var o := Exec(m, l, mo, ch);
    SplicesIn(m0, m, c, l.a, l.i, o.m);
    NextLevel(m0, o.m, c, l.a, l.i + 1);
    SameLoop(m, o.m, l.a, l.i + 1);
  }

  lemma FoundAt(m0: Memory, a: Ins, i: nat)
    requires FoundFrom(m0, a, 1) && 1 <= i < NUM_LEVELS
    ensures Found(m0, a, i)
  {
    assert Found(m0, a, i);
  }

  // Running alone, the new node is not deleted, and what stood behind it on level 0 is not marked.
  lemma StillUnmarked(m0: Memory, m: Memory, c: Call, a: Ins, i: nat)
    requires Raising(m0, m, c, a, i)
    ensures !m.Next(c.id, 0).Marked()
    ensures Found(m0, a, i) && Gap(m0, c.k, c.id, i, a.preds[i], a.succs[i]) && !m.Next(a.succs[i], 0).Marked()
  {
    assert Spliced(m0, m, c.k, c.id, 0);
    assert Found(m0, a, i);
  }

  lemma UpTurn(m0: Memory, m: Memory, c: Call, l: Local, mo: int, ch: Choice)
    requires Stage(m0, m, c, l) && (l.UpNew? || l.UpSucc? || l.UpPrepare?) && Exec(m, l, mo, ch).Next?
    ensures var o := Exec(m, l, mo, ch); Stage(m0, o.m, c, o.l)
    ensures var l' := Exec(m, l, mo, ch).l;
      if l.UpNew? then l' == UpSucc(l.a, l.i) else if l.UpSucc? then l' == UpPrepare(l.a, l.i) || l' == Finish(l.a)
      else l' == UpCas(l.a, l.i)
  {
    StillUnmarked(m0, m, c, l.a, l.i);
    hide Gap, FoundFrom, UntouchedFrom, SplicedBelow, Spliced, Deleted;
    var m' := Exec(m, l, mo, ch).m;
    if l.UpPrepare? { PreparesUpper(m0, m, m', c, l.a, l.i); }
  }

  lemma PreparesUpper(m0: Memory, m: Memory, m': Memory, c: Call, a: Ins, i: nat)
    requires Raising(m0, m, c, a, i) && m.CanRead(c.id, i) && i in a.succs
    requires m' == m.Write(c.id, i, Link(a.succs[i], false))
    ensures Raising(m0, m', c, a, i)
  {
    hide FoundFrom, Deleted, Gap;
    forall j | 0 <= j < i ensures Spliced(m0, m', c.k, c.id, j) {
      assert Spliced(m0, m, c.k, c.id, j);
      SplicedStays(m0, m, m', c.k, c.id, j);
    }
    OnlyNew(m0, m, m', c.id, i);
  }

  lemma FinishTurn(m0: Memory, m: Memory, c: Call, l: Local, mo: int, ch: Choice)
    requires Stage(m0, m, c, l) && l.Finish? && Exec(m, l, mo, ch).Next?
    ensures var o := Exec(m, l, mo, ch); o.l == InsDone && Stage(m0, o.m, c, o.l)
  {
    hide Built;
    BuiltStays(m0, m, Exec(m, l, mo, ch).m, c);
  }

  lemma BuiltStays(m0: Memory, m: Memory, m': Memory, c: Call)
    requires Built(m0, m, c.k, c.id, c.level) && forall x, j :: m'.Next(x, j) == m.Next(x, j)
    ensures Built(m0, m', c.k, c.id, c.level)
  {
    var top: nat :|
      && 0 < top <= c.level && SplicedBelow(m0, m, c.k, c.id, top) && UntouchedFrom(m0, m, c.id, top)
      && (top < c.level ==> exists p, s :: Gap(m0, c.k, c.id, top, p, s) && Deleted(m0, s));
    hide Gap, Deleted;
    forall j | 0 <= j < top ensures Spliced(m0, m', c.k, c.id, j) {
      assert Spliced(m0, m, c.k, c.id, j);
      SplicedStays(m0, m, m', c.k, c.id, j);
    }
    OnlyNew(m0, m, m', c.id, top);
  }

  // ---------- the whole call ----------

  // Where the duplicate test succeeds the key is there; where the swap does it is not.
  ghost predicate Tells(m: Memory, l: Local, c: Call) {
    && (l.DupSame? && 0 in l.a.preds && 0 in l.a.succs && m.Next(l.a.preds[0], 0) == Link(l.a.succs[0], false) ==> c.present)
    && (l.LinkCas? && 0 in l.a.preds && 0 in l.a.succs && m.Next(l.a.preds[0], 0) == Link(l.a.succs[0], false) ==> !c.present)
  }

  lemma ToldAt(m: Memory, l: Local, c: Call, mo: int, ch: Choice)
    requires Tells(m, l, c) && Exec(m, l, mo, ch).Next?
    ensures l.DupSame? && Exec(m, l, mo, ch).l.DupClear? ==> c.present
  {
  }

  lemma LinkTold(m0: Memory, m: Memory, c: Call, l: Local)
    requires Stage(m0, m, c, l) && l.LinkCas? && Tells(m, l, c)
    ensures !c.present
  {
    assert Found(m0, l.a, 0);
    OldPointer(m0, m, c.id, 0, 0, l.a.preds[0]);
  }

  lemma Telling(m0: Memory, m: Memory, g: History, h: Ranks, t: nat, c: Call, l: Local, c0: map<nat, nat>)
    requires Good(m, g, h, t, l) && Stage(m0, m, c, l) && Progress(c0, A.Insert(c.k, c.v), m, g, l)
    requires c.present <==> c.k in c0
    requires KEYMIN < c.k < KEYMAX
    ensures Tells(m, l, c)
  {
    hide MemOk, Ranked, Tall, ClaimOk, Contents, PrivateOk, LocatedOk;
    if l.DupSame? && 0 in l.a.preds && 0 in l.a.succs && m.Next(l.a.preds[0], 0) == Link(l.a.succs[0], false) {
      DupSameStep(m, g, l.a);
    }
    if l.LinkCas? && 0 in l.a.preds && 0 in l.a.succs && m.Next(l.a.preds[0], 0) == Link(l.a.succs[0], false) {
      var _ := LinkStep(m, g, t, l.a);
    }
  }

  // Every step brings the end nearer.
  lemma InsertTurn(m0: Memory, m: Memory, g: History, h: Ranks, t: nat, c: Call, l: Local, mo: int, ch: Choice)
    requires Good(m, g, h, t, l) && Stage(m0, m, c, l) && !Returning(l)
    requires Exec(m, l, mo, ch).Next? && c.id !in m0.nodes && c.level >= 1 && Tells(m, l, c)
    ensures var o := Exec(m, l, mo, ch); Stage(m0, o.m, c, o.l) && Need(h, o.l) < Need(h, l)
  {
    hide Good, Stage, Weight, Beyond, Ranked, Tall;
    StageWhere(m0, m, c, l);
    ToldAt(m, l, c, mo, ch);
    if l.LocateRead? || l.LocateTest? {
      SearchTurn(m0, m, g, h, t, c, l, mo, ch);
    } else if l.DupMark? || l.DupSame? || l.DupClear? || l.DupFree? || l.Prepare? {
      DupTurn(m0, m, c, l, mo, ch);
    } else if l.LinkCas? {
      KnowsAims(m, g, h, t, l);
      LinkTold(m0, m, c, l);
      LinkTurn(m0, m, h, c, l, mo, ch);
    } else if l.UpCas? {
      KnowsAims(m, g, h, t, l);
      UpCasTurn(m0, m, h, c, l, mo, ch);
    } else if l.Finish? {
      FinishTurn(m0, m, c, l, mo, ch);
    } else {
      UpTurn(m0, m, c, l, mo, ch);
    }
  }

  lemma StageWhere(m0: Memory, m: Memory, c: Call, l: Local)
    requires Stage(m0, m, c, l)
    ensures l.LocateRead? || l.LocateTest? || l.DupMark? || l.DupSame? || l.DupClear? || l.DupFree? || l.Prepare? || l.LinkCas?
      || l.UpNew? || l.UpSucc? || l.UpPrepare? || l.UpCas? || l.Finish? || l.InsDone?
    ensures l.UpNew? || l.UpSucc? || l.UpPrepare? || l.UpCas? ==> l.i < NUM_LEVELS
    ensures l.LocateTest? ==> m.Next(l.x, l.i) == Link(l.xn, l.mk)
    ensures l.LocateRead? || l.LocateTest? ==> l.up == 0
  {
  }

  lemma KnowsAims(m: Memory, g: History, h: Ranks, t: nat, l: Local)
    requires Good(m, g, h, t, l)
    ensures Tall(m, h, l)
  {
  }

  lemma SearchTurn(m0: Memory, m: Memory, g: History, h: Ranks, t: nat, c: Call, l: Local, mo: int, ch: Choice)
    requires Good(m, g, h, t, l) && Stage(m0, m, c, l) && (l.LocateRead? || l.LocateTest?)
    requires Exec(m, l, mo, ch).Next?
    ensures var o := Exec(m, l, mo, ch); Stage(m0, o.m, c, o.l) && Need(h, o.l) < Need(h, l)
  {
    hide Good, Stage, Need;
    StageWhere(m0, m, c, l);
    SearchNearer(m, g, h, t, l, mo, ch);
    if l.LocateRead? {
      ReadTurn(m0, m, g, h, t, c, l);
    } else if m.Key(l.xn) < l.a.k || m.Next(l.xn, 0).Marked() || (l.i == 0 && l.mk) {
      TestGoesOn(m0, m, g, h, t, c, l);
    } else {
      TestStops(m0, m, g, h, t, c, l);
    }
  }

  lemma NotDoomed(m0: Memory, m: Memory, c: Call, l: Local)
    requires Stage(m0, m, c, l) && c.k < KEYMAX
    ensures !Doomed(l) && l != Outside
  {
  }

  // Links change the ranks, but then only the levels left count.
  lemma SameNeed(h: Ranks, h': Ranks, l: Local, l': Local, m: Memory, mo: int, ch: Choice)
    requires (l.LinkCas? || l.UpCas?) && Exec(m, l, mo, ch).Next? && Exec(m, l, mo, ch).l == l'
    requires Need(h, l') < Need(h, l)
    requires l'.Finish? || l'.UpNew?
    ensures Need(h', l') < Need(h, l)
  {
  }

  lemma SwapWhere(m0: Memory, m: Memory, g: History, h: Ranks, t: nat, c: Call, l: Local, mo: int, ch: Choice)
    requires Good(m, g, h, t, l) && Stage(m0, m, c, l) && (l.LinkCas? || l.UpCas?) && c.level >= 1 && Tells(m, l, c)
    requires Exec(m, l, mo, ch).Next?
    ensures Exec(m, l, mo, ch).l.Finish? || Exec(m, l, mo, ch).l.UpNew?
  {
    hide Good, Stage;
    KnowsAims(m, g, h, t, l);
    StageWhere(m0, m, c, l);
    ToldAt(m, l, c, mo, ch);
    if l.LinkCas? { LinkTold(m0, m, c, l); LinkTurn(m0, m, h, c, l, mo, ch); } else { UpCasTurn(m0, m, h, c, l, mo, ch); }
  }

  lemma {:induction false} InsertRuns(m0: Memory, m: Memory, g: History, h: Ranks, t: nat, c: Call, l: Local, mo: int,
                                      cs: seq<Choice>, c0: map<nat, nat>)
    requires Good(m, g, h, t, l) && Stage(m0, m, c, l) && Progress(c0, A.Insert(c.k, c.v), m, g, l)
    requires KEYMIN < c.k < KEYMAX && c.id !in m0.nodes && c.level >= 1 && (c.present <==> c.k in c0)
    requires Allowed(m, l, mo, cs) && |cs| >= Need(h, l)
    ensures var o := Solo(m, l, mo, cs); o.Next? && o.l == InsDone && Ended(m0, o.m, c) && Result(c0, c, o.m)
    decreases |cs|
  {
    hide Good, Stage, Progress, Exec, Need, ChoiceOk, Doomed, Ended, Result, Tells;
    if l == InsDone {
      AtEnd(m0, m, g, h, t, c, c0);
    } else {
      NotDone(m0, m, g, h, t, c, l);
      NotDoomed(m0, m, c, l);
      NeedMore(m0, m, g, h, t, c, l);
      Telling(m0, m, g, h, t, c, l, c0);
      var g', h' := AloneStep(m, g, h, t, l, mo, cs[0], c0, A.Insert(c.k, c.v));
      InsertTurn(m0, m, g, h, t, c, l, mo, cs[0]);
      var o := Exec(m, l, mo, cs[0]);
      if l.LinkCas? || l.UpCas? {
        SwapWhere(m0, m, g, h, t, c, l, mo, cs[0]);
        SameNeed(h, h', l, o.l, m, mo, cs[0]);
      }
      InsertRuns(m0, o.m, g', h', t, c, o.l, mo, cs[1..], c0);
    }
  }

  lemma NotDone(m0: Memory, m: Memory, g: History, h: Ranks, t: nat, c: Call, l: Local)
    requires Stage(m0, m, c, l) && l != InsDone
    ensures !Returning(l)
  {
  }

  lemma NeedMore(m0: Memory, m: Memory, g: History, h: Ranks, t: nat, c: Call, l: Local)
    requires Good(m, g, h, t, l) && Stage(m0, m, c, l) && l != InsDone
    ensures Need(h, l) > 0
  {
    hide Weight, Beyond;
    if l.LocateRead? || l.LocateTest? { Indexed(m, g, h, t, l); }
  }

  // The memory then represents the contents with the pair added, if its key was not there.
  ghost predicate Result(c0: map<nat, nat>, c: Call, m: Memory) {
    Holds(m, if c.k in c0 then c0 else c0[c.k := c.v])
  }

  lemma AtEnd(m0: Memory, m: Memory, g: History, h: Ranks, t: nat, c: Call, c0: map<nat, nat>)
    requires Good(m, g, h, t, InsDone) && Stage(m0, m, c, InsDone) && Progress(c0, A.Insert(c.k, c.v), m, g, InsDone)
    ensures Ended(m0, m, c) && Result(c0, c, m)
  {
    hide MemOk, Ended, Ranked, Contents, Holds;
    InvHolds(m, g);
  }

  // An insertion of any key below the sentinel's, called in any well-formed state by a thread that
  // then runs alone, returns after at most 64 steps a node and 133 more.  The memory then
  // represents what it did, with the pair added if its key was not there; the new node is marked as
  // inserted; and it is either freed, no pointer having changed, or stands on its bottom levels
  // between the neighbours that the search ends at.
  lemma InsertAlone(m: Memory, g: History, h: Ranks, t: nat, k: nat, v: nat, mo: int, cs: seq<Choice>, c0: map<nat, nat>)
    requires Good(m, g, h, t, InsAlloc(k, v)) && Holds(m, c0) && KEYMIN < k < KEYMAX
    requires Allowed(m, InsAlloc(k, v), mo, cs) && |cs| >= 64 * |m.nodes| + 133
    ensures var o := Solo(m, InsAlloc(k, v), mo, cs);
      && o.Next? && o.l == InsDone && Holds(o.m, if k in c0 then c0 else c0[k := v])
      && Ended(m, o.m, Call(k, v, cs[0].id, cs[0].level, k in c0))
  {
    hide Good, Stage, Progress, Exec, Need, ChoiceOk, Doomed, Ended, Holds, Contents;
    var l, c := InsAlloc(k, v), Call(k, v, cs[0].id, cs[0].level, k in c0);
    CallProgress(m, g, h, t, k, v, c0);
    NotDoomedYet(l);
    var g', h' := AloneStep(m, g, h, t, l, mo, cs[0], c0, A.Insert(k, v));
    var o := Exec(m, l, mo, cs[0]);
    HeadKnown(m, g, h, t, l);
    Allocated(m, c, mo, cs[0]);
    FirstNeed(m, g, h, t, c, o.l);
    InsertRuns(m, o.m, g', h', t, c, o.l, mo, cs[1..], c0);
    ResultIs(c0, c, Solo(m, l, mo, cs).m);
  }

  lemma CallProgress(m: Memory, g: History, h: Ranks, t: nat, k: nat, v: nat, c0: map<nat, nat>)
    requires Good(m, g, h, t, InsAlloc(k, v)) && Holds(m, c0)
    ensures Progress(c0, A.Insert(k, v), m, g, InsAlloc(k, v))
  {
    hide MemOk, Ranked, Contents, Holds;
    InvHolds(m, g);
    HoldsUnique(m, c0, Contents(m, g.live));
  }

  lemma NotDoomedYet(l: Local)
    requires l.InsAlloc?
    ensures !Doomed(l)
  {
  }

  lemma ResultIs(c0: map<nat, nat>, c: Call, m: Memory)
    requires Result(c0, c, m)
    ensures Holds(m, if c.k in c0 then c0 else c0[c.k := c.v])
  {
  }

  lemma HeadKnown(m: Memory, g: History, h: Ranks, t: nat, l: Local)
    requires Good(m, g, h, t, l)
    ensures HEAD in m.nodes
  {
  }

  lemma Allocated(m: Memory, c: Call, mo: int, ch: Choice)
    requires ChoiceOk(m, ch) && c.id == ch.id && c.level == ch.level && HEAD in m.nodes
    ensures c.id !in m.nodes && c.level >= 1
    ensures var o := Exec(m, InsAlloc(c.k, c.v), mo, ch);
      o.Next? && Stage(m, o.m, c, o.l) && o.l.LocateRead? && o.l.x == HEAD && o.l.i == NUM_LEVELS - 1
  {
    var o := Exec(m, InsAlloc(c.k, c.v), mo, ch);
    forall j | 0 <= j < NUM_LEVELS ensures Untouched(m, o.m, c.id, j) {}
  }

  lemma FirstNeed(m: Memory, g: History, h: Ranks, t: nat, c: Call, l: Local)
    requires Good(m, g, h, t, InsAlloc(c.k, c.v)) && l.LocateRead? && l.x == HEAD && l.i == NUM_LEVELS - 1
    ensures Need(h, l) <= 64 * |m.nodes| + 132
  {
    hide Weight, Beyond;
    HeadOn(m, h, NUM_LEVELS - 1);
    RanksAre(m, h);
    BeyondOnLevel(h, NUM_LEVELS - 1, HEAD);
    WeightStep(h, NUM_LEVELS);
    WeightBound(m, h, NUM_LEVELS);
  }
}
