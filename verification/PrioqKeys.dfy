// Which keys insert can be called with: an insertion runs off the list exactly when its key is
// above the stored sentinel, and does its work exactly when its key is below.

module PrioqKeys {
  import opened PrioqParams
  import opened PrioqModel
  import opened PrioqInvariant
  import opened PrioqEffects
  import opened PrioqInsertSteps
  import opened PrioqStability
  import opened PrioqLinearizable
  import opened PrioqRuns
  import A = AtomicQueue

  // The thread is inside an insertion of key k.
  predicate InsertsKey(l: Local, k: nat) {
    match l
    case InsAlloc(key, _) => key == k
    case LocateRead(a, _, _, _) => a.k == k
    case LocateTest(a, _, _, _, _, _) => a.k == k
    case DupMark(a) => a.k == k
    case DupSame(a) => a.k == k
    case DupClear(a) => a.k == k
    case DupFree(a) => a.k == k
    case Prepare(a) => a.k == k
    case LinkCas(a) => a.k == k
    case UpNew(a, _) => a.k == k
    case UpSucc(a, _) => a.k == k
    case UpPrepare(a, _) => a.k == k
    case UpCas(a, _) => a.k == k
    case Finish(a) => a.k == k
    case _ => false
  }

  ghost predicate CannotFault(s: Machine, t: nat) {
    forall c :: ChoiceOk(s.mem, c) && t in s.threads ==> Exec(s.mem, s.threads[t], s.maxOffset, c).Next?
  }

  // In no run does an insertion of k follow a null pointer or fail an assertion.
  ghost predicate NeverFails(k: nat) {
    forall r: Run, i: nat, t: nat ::
      r.Valid() && i < |r.states| && t in r.states[i].threads && InsertsKey(r.states[i].threads[t], k) ==>
        CannotFault(r.states[i], t)
  }

  // The step is one that the atomic queue makes, on the maps that the two memories represent.
  ghost predicate Specified(m: Memory, l: Local, m': Memory, l': Local) {
    forall c, c' :: Holds(m, c) && Holds(m', c') ==> A.StepPhase(c, PhaseOf(l), A.Internal, c', PhaseOf(l'))
  }

  ghost predicate SpecifiedAt(r: Run, i: nat)
    requires i < |r.who| && i + 1 < |r.states|
  {
    var t := r.who[i];
    && t in r.states[i].threads && t in r.states[i + 1].threads
    && Specified(r.states[i].mem, r.states[i].threads[t], r.states[i + 1].mem, r.states[i + 1].threads[t])
  }

  // In every run the steps of an insertion of k are those of the atomic queue's insertion.
  ghost predicate AsSpecified(k: nat) {
    forall r: Run, i: nat ::
      r.Valid() && i < |r.who| && r.who[i] in r.states[i].threads && InsertsKey(r.states[i].threads[r.who[i]], k) ==>
        SpecifiedAt(r, i)
  }

  // For every nonzero key of 32 bits: an insertion never fails if and only if the key is at most the
  // stored sentinel, and is handled as the atomic queue says if and only if it is below.
  lemma KeysExactly(k: nat)
    requires KEYMIN < k < KEYS
    ensures NeverFails(k) <==> k <= KEYMAX
    ensures NeverFails(k) && AsSpecified(k) <==> k < KEYMAX
  {
    hide NeverFails, AsSpecified;
    if k > KEYMAX {
      LargerFails(k);
    } else {
      SmallNeverFails(k);
      if k == KEYMAX { SentinelNotSpecified(); } else { SmallSpecified(k); }
    }
  }

  // ---------- keys up to the sentinel ----------

  lemma SmallNeverFails(k: nat)
    requires k <= KEYMAX
    ensures NeverFails(k)
  {
    hide Step, Init, Inv, Exec, ChoiceOk;
    forall r: Run, i: nat, t: nat |
      r.Valid() && i < |r.states| && t in r.states[i].threads && InsertsKey(r.states[i].threads[t], k)
      ensures CannotFault(r.states[i], t)
    {
      var s := r.states[i];
      var gs := ChronicleUpTo(r, i);
      forall c | ChoiceOk(s.mem, c) ensures Exec(s.mem, s.threads[t], s.maxOffset, c).Next? {
        NeverFaults(s, gs[i], t, c);
      }
    }
  }

  lemma SmallSpecified(k: nat)
    requires k < KEYMAX
    ensures AsSpecified(k)
  {
    hide SpecifiedAt, Step, Init;
    forall r: Run, i: nat |
      r.Valid() && i < |r.who| && r.who[i] in r.states[i].threads && InsertsKey(r.states[i].threads[r.who[i]], k)
      ensures SpecifiedAt(r, i)
    {
      StepSpecified(r, i, k);
    }
  }

  lemma StepSpecified(r: Run, i: nat, k: nat)
    requires r.Valid() && i < |r.who| && k < KEYMAX
    requires r.who[i] in r.states[i].threads && InsertsKey(r.states[i].threads[r.who[i]], k)
    ensures SpecifiedAt(r, i)
  {
    hide MemOk, Init, ChoiceOk, Exec, Specified, Served, PhaseOf, Inv, HistoryKept, NodeKept;
    var gs := ChronicleUpTo(r, i + 1);
    assert Step(r.states[i], r.who[i], r.choices[i], r.states[i + 1]);
    assert Extends(r.states[i], gs[i], r.who[i], r.choices[i], r.states[i + 1], gs[i + 1]);
    InvMem(r.states[i], gs[i]);
    InvMem(r.states[i + 1], gs[i + 1]);
    ServedSpecified(r.states[i], gs[i], r.who[i], k, r.states[i + 1], gs[i + 1], r.choices[i]);
  }

  lemma InvMem(s: Machine, g: History)
    requires Inv(s, g)
    ensures MemOk(s.mem, g)
  {
  }

  lemma ServedSpecified(s: Machine, g: History, t: nat, k: nat, s': Machine, g': History, c: Choice)
    requires MemOk(s.mem, g) && MemOk(s'.mem, g') && k < KEYMAX
    requires t in s.threads && t in s'.threads && InsertsKey(s.threads[t], k)
    requires Served(Abstract(s, g), t, EventOf(s.threads[t], c), Abstract(s', g'))
    ensures Specified(s.mem, s.threads[t], s'.mem, s'.threads[t])
  {
    hide MemOk, A.StepPhase, Holds, Contents;
    InvHolds(s.mem, g);
    InvHolds(s'.mem, g');
    forall d, d' | Holds(s.mem, d) && Holds(s'.mem, d') ensures d == Contents(s.mem, g.live) && d' == Contents(s'.mem, g'.live) {
      HoldsUnique(s.mem, d, Contents(s.mem, g.live));
      HoldsUnique(s'.mem, d', Contents(s'.mem, g'.live));
    }
  }

  // ---------- larger keys ----------

  // In every run an insertion of a larger key stays on the topmost level: it never returns.
  lemma LargerNeverReturns(r: Run, i: nat, t: nat, k: nat)
    requires r.Valid() && i < |r.states| && t in r.states[i].threads && k > KEYMAX
    requires InsertsKey(r.states[i].threads[t], k)
    ensures var l := r.states[i].threads[t];
      l.InsAlloc? || ((l.LocateRead? || l.LocateTest?) && l.up == 0 && l.i == NUM_LEVELS - 1)
  {
    hide Step, Init, MemOk, Extends;
    var gs := ChronicleUpTo(r, i);
    var m, l := r.states[i].mem, r.states[i].threads[t];
    assert ThreadOk(m, gs[i], t, l);
    TopLevelOnly(m, gs[i], l, k);
  }

  lemma TopLevelOnly(m: Memory, g: History, l: Local, k: nat)
    requires MemOk(m, g) && InsertOk(m, g, l) && InsertsKey(l, k) && k > KEYMAX
    ensures l.InsAlloc? || ((l.LocateRead? || l.LocateTest?) && l.up == 0 && l.i == NUM_LEVELS - 1)
  {
    hide MemOk, PrivateOk;
    if l.LocateRead? || l.LocateTest? {
      TooLarge(m, g, l.a, l.up, l.i);
    } else if l.DupMark? || l.DupSame? || l.Prepare? || l.LinkCas? {
      SuccKey(m, g, k, l.a.succs[0], 0);
    }
  }

  // ---------- two runs of one thread on the empty queue ----------

  ghost function EmptyMemory(): Memory {
    Memory(map[HEAD := Node(KEYMIN, 0, NUM_LEVELS, false, seq(NUM_LEVELS, j => Link(TAIL, false))),
               TAIL := Node(KEYMAX, 0, NUM_LEVELS, false, seq(NUM_LEVELS, j => Null))], [])
  }

  // The run is in progress, its one thread at l.
  ghost predicate At(r: Run, m: Memory, l: Local) {
    r.Valid() && r.states[|r.states| - 1] == Machine(m, map[0 := l], 0)
  }

  ghost predicate Continues(r: Run, r': Run) {
    r.states <= r'.states && r.who <= r'.who && r.choices <= r'.choices
  }

  lemma Grow(r: Run, m: Memory, l: Local, c: Choice) returns (r': Run)
    requires At(r, m, l) && ChoiceOk(m, c) && Exec(m, l, 0, c).Next?
    ensures At(r', Exec(m, l, 0, c).m, Exec(m, l, 0, c).l)
    ensures Continues(r, r') && forall k, v :: Calls(r, k, v) ==> Calls(r', k, v)
    ensures r'.states[|r.states| - 1].threads == map[0 := l] && |r'.states| == |r.states| + 1
    ensures r'.who == r.who + [0] && r'.choices == r.choices + [c]
  {
    var o := Exec(m, l, 0, c);
    var s' := Machine(o.m, map[0 := o.l], 0);
    r' := Run(r.states + [s'], r.who + [0], r.choices + [c]);
    assert map[0 := l][0 := o.l] == map[0 := o.l];
    hide Exec, ChoiceOk, Init;
    forall i | 0 <= i < |r'.who| ensures Step(r'.states[i], r'.who[i], r'.choices[i], r'.states[i + 1]) {
      if i < |r.who| { assert Step(r.states[i], r.who[i], r.choices[i], r.states[i + 1]); }
    }
  }

  ghost function Call(k: nat, v: nat, id: nat): Choice { Choice(A.Insert(k, v), id, 1) }

  // The run begins with the call of an insertion into the empty queue.
  ghost predicate Calls(r: Run, k: nat, v: nat) {
    && |r.who| > 0 && |r.choices| > 0 && |r.states| > 0
    && r.who[0] == 0 && r.choices[0] == Call(k, v, 2) && r.states[0] == Machine(EmptyMemory(), map[0 := Outside], 0)
  }

  ghost function WithNode(k: nat, v: nat): Memory {
    var m := EmptyMemory();
    m.(nodes := m.nodes[2 := Node(k, v, 1, true, seq(1, j => Null))])
  }

  // Node x for every level from n on.
  ghost function LevelsFrom(n: nat, x: nat): map<nat, nat>
    decreases NUM_LEVELS - n
  {
    if n >= NUM_LEVELS then map[] else LevelsFrom(n + 1, x)[n := x]
  }

  // The search has recorded head and tail for the levels from n on.
  ghost function FoundFrom(k: nat, v: nat, n: nat): Ins {
    Ins(k, v, 2, None, LevelsFrom(n, HEAD), LevelsFrom(n, TAIL))
  }

  lemma Started(k: nat, v: nat) returns (r: Run)
    requires KEYMIN < k < KEYS
    ensures At(r, WithNode(k, v), LocateRead(FoundFrom(k, v, NUM_LEVELS), 0, HEAD, NUM_LEVELS - 1))
    ensures Calls(r, k, v)
  {
    var m := EmptyMemory();
    r := Run([Machine(m, map[0 := Outside], 0)], [], []);
    assert At(r, m, Outside);
    r := Grow(r, m, Outside, Call(k, v, 2));
    r := Grow(r, m, InsAlloc(k, v), Call(k, v, 2));
    assert FoundFrom(k, v, NUM_LEVELS) == Ins(k, v, 2, None, map[], map[]);
  }

  // A larger key fails on the topmost level: it goes on to the tail and follows its null pointer.
  lemma LargerKeyFaults(k: nat, v: nat) returns (r: Run)
    requires KEYMAX < k < KEYS
    ensures At(r, WithNode(k, v), LocateRead(FoundFrom(k, v, NUM_LEVELS), 0, TAIL, NUM_LEVELS - 1))
    ensures Calls(r, k, v)
    ensures DoLocateRead(WithNode(k, v), FoundFrom(k, v, NUM_LEVELS), 0, TAIL, NUM_LEVELS - 1) == Fault
  {
    var m, a := WithNode(k, v), FoundFrom(k, v, NUM_LEVELS);
    r := Started(k, v);
    r := Grow(r, m, LocateRead(a, 0, HEAD, NUM_LEVELS - 1), Call(k, v, 3));
    r := Grow(r, m, LocateTest(a, 0, HEAD, NUM_LEVELS - 1, TAIL, false), Call(k, v, 3));
  }

  lemma LargerFails(k: nat)
    requires KEYMAX < k < KEYS
    ensures !NeverFails(k)
  {
    var r := LargerKeyFaults(k, 0);
    var i := |r.states| - 1;
    assert ChoiceOk(r.states[i].mem, Call(k, 0, 3));
    assert InsertsKey(r.states[i].threads[0], k) && !CannotFault(r.states[i], 0);
  }

  // On every level the search for the sentinel's key stops between head and tail.
  lemma {:induction false} Descend(r0: Run, v: nat, i: nat) returns (r: Run)
    requires i < NUM_LEVELS
    requires At(r0, WithNode(KEYMAX, v), LocateRead(FoundFrom(KEYMAX, v, i + 1), 0, HEAD, i))
    decreases i
    ensures At(r, WithNode(KEYMAX, v), DupMark(FoundFrom(KEYMAX, v, 0))) && Continues(r0, r)
    ensures Calls(r0, KEYMAX, v) ==> Calls(r, KEYMAX, v)
  {
    var m, a, a' := WithNode(KEYMAX, v), FoundFrom(KEYMAX, v, i + 1), FoundFrom(KEYMAX, v, i);
    r := Grow(r0, m, LocateRead(a, 0, HEAD, i), Call(KEYMAX, v, 3));
    assert a.(preds := a.preds[i := HEAD], succs := a.succs[i := TAIL]) == a';
    r := Grow(r, m, LocateTest(a, 0, HEAD, i, TAIL, false), Call(KEYMAX, v, 3));
    if i > 0 { r := Descend(r, v, i - 1); }
  }

  // The duplicate test then finds the tail's key equal and reports success.
  lemma Dropped(v: nat) returns (r: Run)
    ensures At(r, WithNode(KEYMAX, v), DupClear(FoundFrom(KEYMAX, v, 0)))
    ensures Calls(r, KEYMAX, v)
    ensures r.states[|r.who| - 1] == Machine(WithNode(KEYMAX, v), map[0 := DupSame(FoundFrom(KEYMAX, v, 0))], 0)
    ensures r.who[|r.who| - 1] == 0
  {
    var m, a := WithNode(KEYMAX, v), FoundFrom(KEYMAX, v, 0);
    var r0 := Started(KEYMAX, v);
    r := Descend(r0, v, NUM_LEVELS - 1);
    r := Grow(r, m, DupMark(a), Call(KEYMAX, v, 3));
    assert r.states[|r.states| - 1] == Machine(m, map[0 := DupSame(a)], 0);
    r := Grow(r, m, DupSame(a), Call(KEYMAX, v, 3));
  }

  lemma EmptyHolds(m: Memory)
    requires m.Next(HEAD, 0) == Link(TAIL, false)
    ensures Holds(m, map[])
  {
    var path := [HEAD, TAIL];
    assert LevelPath(m, path);
    assert Represents(m, path, map[]);
  }

  // An insertion of the sentinel's key into the empty queue runs to its return and leaves the queue
  // empty: it is silently dropped.
  lemma SentinelKeyDropped(v: nat) returns (r: Run)
    ensures r.Valid() && |r.who| > 0
    ensures r.EventAt(0) == A.Call(A.Insert(KEYMAX, v)) && r.EventAt(|r.who| - 1) == A.Return(A.Void)
    ensures Holds(r.states[0].mem, map[]) && Holds(r.states[|r.states| - 1].mem, map[])
  {
    var m;
    r, m := Returned(v);
    EmptyHolds(m);
    EmptyHolds(EmptyMemory());
  }

  lemma Returned(v: nat) returns (r: Run, m: Memory)
    ensures Calls(r, KEYMAX, v) && At(r, m, Outside) && m.Next(HEAD, 0) == Link(TAIL, false)
    ensures r.states[|r.who| - 1].threads == map[0 := InsDone] && r.who[|r.who| - 1] == 0
  {
    assert FoundFrom(KEYMAX, v, 0).new_ == 2;
    hide Exec, ChoiceOk, Calls, FoundFrom, LevelsFrom, Continues, WithNode;
    var a, c := FoundFrom(KEYMAX, v, 0), Call(KEYMAX, v, 3);
    r := Dropped(v);
    var m1;
    m1, m := LastSteps(v, a, c);
    r := Grow(r, WithNode(KEYMAX, v), DupClear(a), c);
    r := Grow(r, m1, DupFree(a), c);
    r := Grow(r, m, InsDone, c);
  }

  lemma LastSteps(v: nat, a: Ins, c: Choice) returns (m1: Memory, m2: Memory)
    requires a.new_ == 2 && c == Call(KEYMAX, v, 3)
    ensures Exec(WithNode(KEYMAX, v), DupClear(a), 0, c) == Next(m1, DupFree(a))
    ensures Exec(m1, DupFree(a), 0, c) == Next(m2, InsDone) && Exec(m2, InsDone, 0, c) == Next(m2, Outside)
    ensures ChoiceOk(WithNode(KEYMAX, v), c) && ChoiceOk(m1, c) && ChoiceOk(m2, c)
    ensures m2.Next(HEAD, 0) == Link(TAIL, false)
  {
    m1 := WithNode(KEYMAX, v).ClearInserting(2);
    m2 := m1.(freed := m1.freed + [2]);
  }

  lemma SentinelNotSpecified()
    ensures !AsSpecified(KEYMAX)
  {
    var r := Dropped(0);
    var i := |r.who| - 1;
    var m := WithNode(KEYMAX, 0);
    EmptyHolds(m);
    var l, l' := DupSame(FoundFrom(KEYMAX, 0, 0)), DupClear(FoundFrom(KEYMAX, 0, 0));
    assert !A.StepPhase(map[], PhaseOf(l), A.Internal, map[], PhaseOf(l'));
    assert !Specified(m, l, m, l');
    assert InsertsKey(r.states[i].threads[0], KEYMAX) && !SpecifiedAt(r, i);
  }
}
