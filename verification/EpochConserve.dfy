// The epoch machine loses no block and doubles none: over every run, prompt or not, what has been passed
// to gc_free is on the garbage lists and the allocation lists, once.

module EpochConserve {
  import opened GcParams
  import opened EpochModel
  import opened EpochSafety

  // ---------- all garbage lists together ----------

  type Key = (nat, nat, nat)

  ghost function Keys(s: State): set<Key> {
    set t, k | t in s.threads && k in s.threads[t].garbage :: (t, k.0, k.1)
  }

  // The garbage lists of all threads, by thread, epoch slot and block size.
  ghost function Lists(s: State): map<Key, seq<Retired>> {
    map k | k in Keys(s) :: s.threads[k.0].garbage[(k.1, k.2)]
  }

  ghost function Sum(f: map<Key, seq<Retired>>): multiset<Retired>
    decreases |f|
  {
    if f == map[] then multiset{}
    else
      var k :| k in f;
      Smaller(f, k);
      multiset(f[k]) + Sum(f - {k})
  }

  lemma Smaller(f: map<Key, seq<Retired>>, k: Key)
    requires k in f
    ensures |f - {k}| < |f|
  {
    assert (f - {k}).Keys == f.Keys - {k};
    assert |(f - {k}).Keys| == |f - {k}| && |f.Keys| == |f|;
  }

  lemma {:induction false} SumOne(f: map<Key, seq<Retired>>, k: Key)
    requires k in f
    ensures Sum(f) == multiset(f[k]) + Sum(f - {k})
    decreases |f|
  {
    var j :| j in f && Sum(f) == multiset(f[j]) + Sum(f - {j});
    if j != k {
      Smaller(f, j);
      Smaller(f, k);
      SumOne(f - {j}, k);
      SumOne(f - {k}, j);
      assert f - {j} - {k} == f - {k} - {j};
    }
  }

  lemma SumPut(f: map<Key, seq<Retired>>, k: Key, v: seq<Retired>)
    ensures Sum(f[k := v]) + (if k in f then multiset(f[k]) else multiset{}) == Sum(f) + multiset(v)
  {
    SumOne(f[k := v], k);
    assert f[k := v] - {k} == f - {k};
    if k in f { SumOne(f, k); } else { assert f - {k} == f; }
  }

  // ---------- one step ----------

  // What the step passes to gc_free.
  function Given(s: State, t: nat, a: Action): multiset<Retired> {
    if t in s.threads && s.threads[t].pc.In? && a.Retire?
    then multiset{Retired(a.block, s.now, s.threads[t].trueEpoch)} else multiset{}
  }

  ghost function Kept(s: State): multiset<Retired> {
    Sum(Lists(s)) + multiset(s.alloc)
  }

  lemma SameLists(s: State, s': State)
    requires forall t :: t in s.threads ==> t in s'.threads && s'.threads[t].garbage == s.threads[t].garbage
    requires forall t :: t in s'.threads && t !in s.threads ==> s'.threads[t].garbage == map[]
    ensures Lists(s') == Lists(s)
  {
    assert Keys(s') == Keys(s);
  }

  // One list of one thread is replaced.
  lemma OneList(s: State, s': State, u: nat, slot: nat, cls: nat, v: seq<Retired>)
    requires u in s.threads && s'.threads.Keys == s.threads.Keys
    requires s'.threads[u].garbage == s.threads[u].garbage[(slot, cls) := v]
    requires forall t :: t in s.threads && t != u ==> s'.threads[t].garbage == s.threads[t].garbage
    ensures Sum(Lists(s')) + multiset(s.threads[u].Garbage(slot, cls)) == Sum(Lists(s)) + multiset(v)
  {
    var k := (u, slot, cls);
    var l, l' := Lists(s), Lists(s')[k := v];
    assert Keys(s') == Keys(s) + {k};
    assert Lists(s') == l[k := v];
    SumPut(l, k, v);
  }

  lemma RetireKeeps(s: State, t: nat, block: nat, cls: nat)
    requires t in s.threads
    ensures Kept(DoRetire(s, t, block, cls)) == Kept(s) + multiset{Retired(block, s.now, s.threads[t].trueEpoch)}
  {
    var th, s' := s.threads[t], DoRetire(s, t, block, cls);
    var b := Retired(block, s.now, th.trueEpoch);
    OneList(s, s', t, th.epoch, cls, th.Garbage(th.epoch, cls) + [b]);
    Added(Sum(Lists(s')), Sum(Lists(s)), multiset(th.Garbage(th.epoch, cls)), multiset{b});
  }

  lemma Added(a': multiset<Retired>, a: multiset<Retired>, o: multiset<Retired>, n: multiset<Retired>)
    requires a' + o == a + (o + n)
    ensures a' == a + n
  {
    forall x ensures a'[x] == (a + n)[x] { assert (a' + o)[x] == (a + (o + n))[x]; }
  }

  // A list move in the code's terms: whole chunks go to the allocation list, the newest stays.
  lemma MoveLeavesNewest(s: State, t: nat, a: Action)
    requires t in s.threads && s.threads[t].pc.Move?
    requires var pc := s.threads[t].pc; pc.rest != [] && pc.rest[0] in s.threads && pc.cls < s.sizes
    ensures var pc, s' := s.threads[t].pc, Next(s, t, a);
      var u, slot := pc.rest[0], (pc.curr + 1) % NR_EPOCHS;
      && u in s'.threads
      && exists moved ::
        && s'.alloc == s.alloc + moved && |moved| % BLKS_PER_CHUNK == 0
        && s.threads[u].Garbage(slot, pc.cls) == moved + s'.threads[u].Garbage(slot, pc.cls)
        && (if s.threads[u].Garbage(slot, pc.cls) == [] then s'.threads[u].Garbage(slot, pc.cls) == []
            else 1 <= |s'.threads[u].Garbage(slot, pc.cls)| <= BLKS_PER_CHUNK)
  {
    var pc := s.threads[t].pc;
    var u, slot := pc.rest[0], (pc.curr + 1) % NR_EPOCHS;
    var gar := s.threads[u].Garbage(slot, pc.cls);
    var n := Movable(|gar|);
    assert gar == gar[..n] + gar[n..];
    assert |gar[..n]| % BLKS_PER_CHUNK == 0;
  }

  lemma MoveKeeps(s: State, t: nat, curr: nat, rest: seq<nat>, cls: nat)
    requires t in s.threads
    ensures Kept(DoMove(s, t, curr, rest, cls)) == Kept(s)
  {
    var s' := DoMove(s, t, curr, rest, cls);
    if rest == [] || rest[0] !in s.threads || cls >= s.sizes {
      SameLists(s, s');
    } else {
      var gar := s.threads[rest[0]].Garbage((curr + 1) % NR_EPOCHS, cls);
      var n := Movable(|gar|);
      MoveList(s, t, curr, rest, cls);
      hide Lists, Sum, Movable;
      assert gar == gar[..n] + gar[n..];
      Shifted(Sum(Lists(s')), Sum(Lists(s)), multiset(gar[..n]), multiset(gar[n..]), multiset(s.alloc));
    }
  }

  lemma MoveList(s: State, t: nat, curr: nat, rest: seq<nat>, cls: nat)
    requires t in s.threads && rest != [] && rest[0] in s.threads && cls < s.sizes
    ensures var gar := s.threads[rest[0]].Garbage((curr + 1) % NR_EPOCHS, cls);
      Sum(Lists(DoMove(s, t, curr, rest, cls))) + multiset(gar) == Sum(Lists(s)) + multiset(gar[Movable(|gar|)..])
  {
    var u, slot := rest[0], (curr + 1) % NR_EPOCHS;
    var gar := s.threads[u].Garbage(slot, cls);
    hide Lists, Sum, Movable;
    OneList(s, DoMove(s, t, curr, rest, cls), u, slot, cls, gar[Movable(|gar|)..]);
  }

  lemma Shifted(a': multiset<Retired>, a: multiset<Retired>, m: multiset<Retired>, k: multiset<Retired>, l: multiset<Retired>)
    requires a' + (m + k) == a + k
    ensures a' + (l + m) == a + l
  {
    forall x ensures (a' + (l + m))[x] == (a + l)[x] { assert (a' + (m + k))[x] == (a + k)[x]; }
  }

  lemma StepKeeps(s: State, t: nat, a: Action)
    ensures Kept(Next(s, t, a)) == Kept(s) + Given(s, t, a)
  {
    hide Kept, DoRetire, DoMove;
    if t in s.threads && s.threads[t].pc.In? && a.Retire? {
      RetireKeeps(s, t, a.block, a.cls);
    } else if t in s.threads && s.threads[t].pc.Move? {
      MoveKeeps(s, t, s.threads[t].pc.curr, s.threads[t].pc.rest, s.threads[t].pc.cls);
    } else {
      hide Next, Exec;
      OtherKeeps(s, t, a);
    }
  }

  lemma OtherKeeps(s: State, t: nat, a: Action)
    requires t in s.threads ==> !(s.threads[t].pc.In? && a.Retire?) && !s.threads[t].pc.Move?
    ensures Kept(Next(s, t, a)) == Kept(s)
  {
    hide Sum, Lists, Next;
    SameGarbage(s, t, a);
    SameLists(s, Next(s, t, a));
  }

  // Only thread t's record changes, and not its garbage.
  ghost predicate OwnOnly(s: State, t: nat, s': State) {
    && t in s'.threads && s'.threads == s.threads[t := s'.threads[t]] && s'.alloc == s.alloc
    && s'.threads[t].garbage == if t in s.threads then s.threads[t].garbage else map[]
  }

  lemma EnteringOwn(s: State, t: nat, a: Action)
    requires t in s.threads
    requires var pc := s.threads[t].pc; pc.Register? || pc.Enter? || pc.ReadEpoch? || pc.Settle? || pc.BackOut? || pc.Out? || (pc.In? && !a.Retire?)
    ensures OwnOnly(s, t, Exec(s, t, a))
  {
  }

  lemma ReclaimingOwn(s: State, t: nat, a: Action)
    requires t in s.threads
    requires var pc := s.threads[t].pc;
      pc.LockTest? || pc.LockCas? || pc.First? || pc.ReadCurrent? || pc.CheckCount? || pc.CheckEpoch? || pc.Advance? || pc.Unlock?
    ensures OwnOnly(s, t, Exec(s, t, a))
  {
  }

  lemma SameGarbage(s: State, t: nat, a: Action)
    requires t in s.threads ==> !(s.threads[t].pc.In? && a.Retire?) && !s.threads[t].pc.Move?
    ensures OwnOnly(s, t, Next(s, t, a))
  {
    hide Exec, OwnOnly;
    if t in s.threads {
      var pc := s.threads[t].pc;
      if pc.Register? || pc.Enter? || pc.ReadEpoch? || pc.Settle? || pc.BackOut? || pc.Out? || pc.In? {
        EnteringOwn(s, t, a);
      } else {
        ReclaimingOwn(s, t, a);
      }
    } else {
      NewOwn(s, t);
    }
  }

  lemma NewOwn(s: State, t: nat)
    requires t !in s.threads
    ensures OwnOnly(s, t, SetThread(s, t, NewThread(s.list)))
  {
  }

  // ---------- runs ----------

  function GivenUpTo(r: Run, i: nat): multiset<Retired>
    requires i < |r.states| && |r.who| == |r.actions| == |r.states| - 1
  {
    if i == 0 then multiset{} else GivenUpTo(r, i - 1) + Given(r.states[i - 1], r.who[i - 1], r.actions[i - 1])
  }

  // In every state of every run, what has been passed to gc_free so far is, as a multiset, what is on
  // the garbage lists of the threads and on the allocation lists.
  lemma {:induction false} NothingLost(r: Run, i: nat)
    requires r.Valid() && i < |r.states|
    ensures GivenUpTo(r, i) == Sum(Lists(r.states[i])) + multiset(r.states[i].alloc)
  {
    hide Sum, Next;
    if i == 0 {
      assert Lists(r.states[0]) == map[];
      NoLists();
    } else {
      NothingLost(r, i - 1);
      StepKeeps(r.states[i - 1], r.who[i - 1], r.actions[i - 1]);
    }
  }

  lemma NoLists()
    ensures Sum(map[]) == multiset{}
  {
  }

  // And nothing twice: each passing to gc_free has its own moment.
  lemma {:induction false} GivenOnce(r: Run, i: nat, b: Retired)
    requires r.Valid() && i < |r.states|
    ensures GivenUpTo(r, i)[b] <= 1 && (b in GivenUpTo(r, i) ==> b.at < r.states[i].now)
  {
    hide Next;
    if i > 0 {
      GivenOnce(r, i - 1, b);
      Ticks(r.states[i - 1], r.who[i - 1], r.actions[i - 1]);
    }
  }

  lemma Ticks(s: State, t: nat, a: Action)
    ensures Next(s, t, a).now == s.now + 1
  {
    if t in s.threads {
      match s.threads[t].pc
      case Move(curr, rest, cls) =>
      case Register(seen) =>
      case Settle(ne, seenEpoch) =>
      case _ =>
    }
  }

  // So no block is on two lists, or twice on one.
  lemma OnePlace(r: Run, i: nat, b: Retired)
    requires r.Valid() && i < |r.states|
    ensures Sum(Lists(r.states[i]))[b] + multiset(r.states[i].alloc)[b] <= 1
  {
    NothingLost(r, i);
    GivenOnce(r, i, b);
  }
}
