// Epoch safety: as long as no entry is held up for too long between its reads and its
// write, no block reaches an allocation list while a thread may hold a reference to it.

module EpochSafety {
  import opened GcParams
  import opened EpochModel

  // ---------- the invariant ----------

  // Holds the reclaim lock.
  predicate Reclaiming(pc: Pc) {
    pc.First? || pc.ReadCurrent? || pc.CheckCount? || pc.CheckEpoch? || pc.Move? || pc.Advance? || pc.Unlock?
  }

  // In the middle of gc_enter with the counter already raised.
  predicate Entering(pc: Pc) { pc.ReadEpoch? || pc.Settle? || pc.BackOut? }

  ghost predicate CountOk(th: Thread) {
    && (th.pc.In? ==> th.count >= 2)
    && (Entering(th.pc) ==> th.count == 2)
    && (!th.pc.In? && !Entering(th.pc) ==> th.count == 1)
  }

  // A thread inside a critical section has seen the current epoch or the one before.
  ghost predicate LagOk(s: State, th: Thread) {
    && th.epoch == th.trueEpoch % NR_EPOCHS
    && th.trueEpoch <= s.epochs
    && (th.pc.In? ==> s.epochs <= th.trueEpoch + 1 && th.entered < s.now)
    && (th.pc.Settle? ==> th.pc.ne == th.pc.seenEpoch % NR_EPOCHS && th.pc.seenEpoch <= s.epochs)
  }

  // Every thread inside a critical section has seen the current epoch, but for those in rest.
  ghost predicate CaughtUp(s: State, rest: seq<nat>) {
    forall u :: u in s.threads && s.threads[u].pc.In? && u !in rest ==> s.threads[u].trueEpoch == s.epochs
  }

  ghost predicate ReclaimOk(s: State, pc: Pc) {
    match pc
    case ReadCurrent(first) => CaughtUp(s, first)
    case CheckCount(curr, first, rest) => curr == s.current && rest != [] && CaughtUp(s, rest)
    case CheckEpoch(curr, first, rest) => curr == s.current && rest != [] && CaughtUp(s, rest)
    case Move(curr, rest, cls) => curr == s.current && CaughtUp(s, [])
    case Advance(curr) => curr == s.current && CaughtUp(s, [])
    case _ => true
  }

  ghost predicate AllListed(s: State, rest: seq<nat>) {
    forall u :: u in rest ==> u in s.list
  }

  // A reclaimer walks over registered threads, and never waits for itself.
  ghost predicate WalkOk(s: State, t: nat, pc: Pc) {
    match pc
    case ReadCurrent(first) => AllListed(s, first)
    case CheckCount(_, _, rest) => AllListed(s, rest)
    case CheckEpoch(_, _, rest) => AllListed(s, rest) && rest != [] && rest[0] != t
    case _ => true
  }

  ghost predicate ThreadOk(s: State, t: nat) {
    t in s.threads ==>
      && CountOk(s.threads[t])
      && LagOk(s, s.threads[t])
      && ReclaimOk(s, s.threads[t].pc)
      && WalkOk(s, t, s.threads[t].pc)
      && (!s.threads[t].pc.Register? ==> t in s.list)
  }

  ghost predicate LockOk(s: State) {
    && (forall t :: t in s.threads && Reclaiming(s.threads[t].pc) ==> s.inreclaim)
    && (forall t, u :: t in s.threads && u in s.threads && Reclaiming(s.threads[t].pc) && Reclaiming(s.threads[u].pc) ==> t == u)
  }

  // Whoever may hold block b entered at most one epoch after the retiring thread's.
  ghost predicate RetiredOk(s: State, slot: nat, b: Retired) {
    && b.tag % NR_EPOCHS == slot
    && b.tag <= s.epochs
    && b.at < s.now
    && forall u :: MayHold(s, u, b) ==> s.threads[u].trueEpoch <= b.tag + 1
  }

  ghost predicate GarbageOk(s: State) {
    forall t, slot, cls, b :: t in s.threads && b in s.threads[t].Garbage(slot, cls) ==> RetiredOk(s, slot, b)
  }

  // The safety property: nobody holds a block on an allocation list.
  ghost predicate AllocOk(s: State) {
    forall b :: b in s.alloc ==> b.at < s.now && forall u :: !MayHold(s, u, b)
  }

  ghost predicate Inv(s: State) {
    && s.current == s.epochs % NR_EPOCHS
    && (forall t :: ThreadOk(s, t))
    && (forall t :: t in s.list ==> t in s.threads && !s.threads[t].pc.Register?)
    && LockOk(s)
    && GarbageOk(s)
    && AllocOk(s)
  }

  // ---------- steps ----------

  // A step that changes only thread t's record, not its garbage, and keeps the lock.
  ghost predicate LocalStep(s: State, t: nat, s': State) {
    && t in s.threads && t in s'.threads
    && s' == SetThread(s, t, s'.threads[t])
    && var th, th' := s.threads[t], s'.threads[t];
       && th'.garbage == th.garbage
       && CountOk(th') && LagOk(s', th') && ReclaimOk(s, th'.pc) && WalkOk(s, t, th'.pc)
       && (Reclaiming(th'.pc) ==> Reclaiming(th.pc))
       && (th'.pc.Register? <==> th.pc.Register?)
       && (th'.pc.In? ==>
             || (th.pc.In? && th'.entered == th.entered && th'.trueEpoch == th.trueEpoch)
             || (th'.entered == s.now && (th'.trueEpoch == s.epochs || (th'.trueEpoch + 1 == s.epochs && !PassedOver(s, t)))))
  }

  lemma HoldBefore(s: State, t: nat, s': State, u: nat, b: Retired)
    requires LocalStep(s, t, s') && b.at < s.now
    requires MayHold(s', u, b)
    ensures MayHold(s, u, b) && s'.threads[u].trueEpoch == s.threads[u].trueEpoch
  {
  }

  lemma LocalGarbage(s: State, t: nat, s': State)
    requires LocalStep(s, t, s')
    requires GarbageOk(s) && AllocOk(s)
    ensures GarbageOk(s') && AllocOk(s')
  {
    forall u, slot, cls, b | u in s'.threads && b in s'.threads[u].Garbage(slot, cls) ensures RetiredOk(s', slot, b) {
      assert b in s.threads[u].Garbage(slot, cls);
      assert RetiredOk(s, slot, b);
      forall v | MayHold(s', v, b) ensures s'.threads[v].trueEpoch <= b.tag + 1 { HoldBefore(s, t, s', v, b); }
    }
    forall b, u | b in s'.alloc ensures !MayHold(s', u, b) {
      if MayHold(s', u, b) { HoldBefore(s, t, s', u, b); }
    }
  }

  lemma CaughtUpKept(s: State, t: nat, s': State, rest: seq<nat>)
    requires LocalStep(s, t, s')
    requires CaughtUp(s, rest)
    requires t !in rest ==> PassedOver(s, t)
    ensures CaughtUp(s', rest)
  {
  }

  lemma LocalThreads(s: State, t: nat, s': State)
    requires LocalStep(s, t, s')
    requires forall u :: ThreadOk(s, u)
    ensures forall u :: ThreadOk(s', u)
  {
    forall u ensures ThreadOk(s', u) {
      assert ThreadOk(s, u);
      if u in s'.threads && u != t {
        if PastThread(s.threads[u].pc, t) { assert PassedOver(s, t); }
        match s'.threads[u].pc
        case ReadCurrent(first) => CaughtUpKept(s, t, s', first);
        case CheckCount(_, _, rest) => CaughtUpKept(s, t, s', rest);
        case CheckEpoch(_, _, rest) => CaughtUpKept(s, t, s', rest);
        case Move(_, _, _) => CaughtUpKept(s, t, s', []);
        case Advance(_) => CaughtUpKept(s, t, s', []);
        case _ =>
      }
    }
  }

  lemma LocalInv(s: State, t: nat, s': State)
    requires Inv(s) && LocalStep(s, t, s')
    ensures Inv(s')
  {
    LocalThreads(s, t, s');
    LocalGarbage(s, t, s');
  }

  // The checks of line 358: a thread that passes is outside, still entering, or up to date.
  lemma CheckPassed(s: State, t: nat, rest: seq<nat>)
    requires Inv(s) && t in s.threads
    requires rest != [] && rest[0] in s.threads && CaughtUp(s, rest)
    requires s.threads[rest[0]].count <= 1 || s.threads[rest[0]].epoch == s.current
    ensures CaughtUp(s, rest[1..])
  {
    assert ThreadOk(s, rest[0]);
    forall u | u in s.threads && s.threads[u].pc.In? && u !in rest[1..] ensures s.threads[u].trueEpoch == s.epochs {
      if u in rest {
        assert rest == [rest[0]] + rest[1..];
      }
    }
  }

  lemma LocalPcs(s: State, t: nat, a: Action)
    requires Inv(s) && t in s.threads
    requires EntryOk(s, t)
    requires var pc := s.threads[t].pc;
             pc.Enter? || pc.ReadEpoch? || pc.Settle? || pc.BackOut? || pc.LockTest? || pc.Out? || (pc.In? && !a.Retire?)
    ensures Inv(Exec(s, t, a))
  {
    hide LocalStep, Exec, EntryOk;
    OwnBusiness(s, t, a);
    LocalInv(s, t, Exec(s, t, a));
  }

  lemma OwnBusiness(s: State, t: nat, a: Action)
    requires t in s.threads && ThreadOk(s, t) && s.current == s.epochs % NR_EPOCHS
    requires EntryOk(s, t)
    requires var pc := s.threads[t].pc;
             pc.Enter? || pc.ReadEpoch? || pc.Settle? || pc.BackOut? || pc.LockTest? || pc.Out? || (pc.In? && !a.Retire?)
    ensures LocalStep(s, t, Exec(s, t, a))
  {
  }

  lemma ReclaimPcs(s: State, t: nat, a: Action)
    requires Inv(s) && t in s.threads
    requires var pc := s.threads[t].pc; pc.First? || pc.ReadCurrent? || pc.CheckCount? || pc.CheckEpoch?
    ensures Inv(Exec(s, t, a))
  {
    assert ThreadOk(s, t);
    var s' := Exec(s, t, a);
    match s.threads[t].pc
    case First =>
      forall u | u in s.threads && s.threads[u].pc.In? ensures u in s.list { assert ThreadOk(s, u); }
      LocalInv(s, t, s');
    case ReadCurrent(first) => LocalInv(s, t, s');
    case CheckCount(curr, first, rest) =>
      if rest[0] in s.threads && s.threads[rest[0]].count <= 1 { CheckPassed(s, t, rest); }
      LocalInv(s, t, s');
    case CheckEpoch(curr, first, rest) =>
      if rest[0] in s.threads && s.threads[rest[0]].epoch == curr { CheckPassed(s, t, rest); }
      LocalInv(s, t, s');
  }

  lemma RegisterStep(s: State, t: nat, seen: seq<nat>)
    requires Inv(s) && t in s.threads && s.threads[t].pc == Register(seen)
    ensures Inv(DoRegister(s, t, seen))
  {
    assert ThreadOk(s, t);
    var s' := DoRegister(s, t, seen);
    if s.list == seen {
      forall u ensures ThreadOk(s', u) { assert ThreadOk(s, u); if u != t { SamePeople(s, t, s', u); } }
      SameHolders(s, t, s');
    } else {
      LocalInv(s, t, s');
    }
  }

  // A step that leaves everybody's garbage, entry and epoch alone.
  ghost predicate Quiet(s: State, t: nat, s': State) {
    && t in s'.threads && s'.threads.Keys == s.threads.Keys + {t}
    && s'.epochs == s.epochs && s'.current == s.current && s'.alloc == s.alloc && s'.now == s.now + 1
    && (forall u :: u in s.threads && u != t ==> s'.threads[u] == s.threads[u])
    && !s'.threads[t].pc.In? && (t in s.threads ==> !s.threads[t].pc.In?)
    && s'.threads[t].garbage == (if t in s.threads then s.threads[t].garbage else map[])
  }

  lemma SamePeople(s: State, t: nat, s': State, u: nat)
    requires Quiet(s, t, s') && ThreadOk(s, u) && u != t
    requires forall x :: x in s.list ==> x in s'.list
    ensures ThreadOk(s', u)
  {
  }

  lemma SameHolders(s: State, t: nat, s': State)
    requires Quiet(s, t, s')
    requires GarbageOk(s) && AllocOk(s)
    ensures GarbageOk(s') && AllocOk(s')
  {
    assert forall u, b :: MayHold(s', u, b) ==> MayHold(s, u, b) && s'.threads[u] == s.threads[u];
    forall u, slot, cls, b | u in s'.threads && b in s'.threads[u].Garbage(slot, cls) ensures RetiredOk(s', slot, b) {
      assert b in s.threads[u].Garbage(slot, cls);
      assert RetiredOk(s, slot, b);
    }
  }

  lemma NewThreadStep(s: State, t: nat)
    requires Inv(s) && t !in s.threads
    ensures Inv(SetThread(s, t, NewThread(s.list)))
  {
    var s' := SetThread(s, t, NewThread(s.list));
    forall u ensures ThreadOk(s', u) { assert ThreadOk(s, u); if u != t { SamePeople(s, t, s', u); } }
    SameHolders(s, t, s');
  }

  lemma LockStep(s: State, t: nat)
    requires Inv(s) && t in s.threads && s.threads[t].pc.LockCas?
    ensures Inv(DoLockCas(s, t))
  {
    assert ThreadOk(s, t);
    var s' := DoLockCas(s, t);
    if s.inreclaim {
      LocalInv(s, t, s');
    } else {
      forall u ensures ThreadOk(s', u) { assert ThreadOk(s, u); if u != t { SamePeople(s, t, s', u); } }
      SameHolders(s, t, s');
    }
  }

  lemma UnlockStep(s: State, t: nat)
    requires Inv(s) && t in s.threads && s.threads[t].pc.Unlock?
    ensures Inv(Goto(s, t, Enter).(inreclaim := false))
  {
    assert ThreadOk(s, t);
    var s' := Goto(s, t, Enter).(inreclaim := false);
    forall u ensures ThreadOk(s', u) { assert ThreadOk(s, u); if u != t { SamePeople(s, t, s', u); } }
    SameHolders(s, t, s');
  }

  // Everybody inside has seen the current epoch, so after the advance nobody lags by more than one.
  lemma AdvanceStep(s: State, t: nat, curr: nat)
    requires Inv(s) && t in s.threads && s.threads[t].pc == Advance(curr)
    ensures Inv(DoAdvance(s, t, curr))
  {
    assert ThreadOk(s, t);
    var s' := DoAdvance(s, t, curr);
    assert s'.current == s'.epochs % NR_EPOCHS;
    forall u ensures ThreadOk(s', u) { assert ThreadOk(s, u); }
    assert forall u, b :: MayHold(s', u, b) ==> MayHold(s, u, b) && s'.threads[u] == s.threads[u];
    forall u, slot, cls, b | u in s'.threads && b in s'.threads[u].Garbage(slot, cls) ensures RetiredOk(s', slot, b) {
      assert b in s.threads[u].Garbage(slot, cls);
      assert RetiredOk(s, slot, b);
    }
  }

  // What is retired now can only be held by threads at most one epoch ahead.
  lemma RetireStep(s: State, t: nat, block: nat, cls: nat)
    requires Inv(s) && t in s.threads && s.threads[t].pc.In?
    ensures Inv(DoRetire(s, t, block, cls))
  {
    var s' := DoRetire(s, t, block, cls);
    var b0 := Retired(block, s.now, s.threads[t].trueEpoch);
    assert ThreadOk(s, t);
    forall u ensures ThreadOk(s', u) { assert ThreadOk(s, u); }
    assert forall u, b :: MayHold(s', u, b) <==> MayHold(s, u, b);
    assert RetiredOk(s', s.threads[t].epoch, b0) by {
      forall u | MayHold(s', u, b0) ensures s'.threads[u].trueEpoch <= b0.tag + 1 { assert ThreadOk(s, u); }
    }
    forall u, slot, c, b | u in s'.threads && b in s'.threads[u].Garbage(slot, c) ensures RetiredOk(s', slot, b) {
      if b != b0 || u != t || slot != s.threads[t].epoch || c != cls {
        assert b in s.threads[u].Garbage(slot, c);
        assert RetiredOk(s, slot, b);
      }
    }
  }

  // A block two epochs old: whoever is inside has seen the current epoch and so entered after it was retired.
  lemma OldEnough(s: State, slot: nat, b: Retired, u: nat)
    requires s.current == s.epochs % NR_EPOCHS
    requires CaughtUp(s, []) && RetiredOk(s, slot, b)
    requires slot == (s.current + 1) % NR_EPOCHS
    ensures !MayHold(s, u, b)
  {
    assert b.tag != s.epochs && b.tag + 1 != s.epochs;
  }

  // A list move takes blocks from one garbage list and leaves everything else but t's
  // program counter alone.
  ghost predicate Moved(s: State, t: nat, s': State, slot0: nat) {
    && t in s.threads && s'.threads.Keys == s.threads.Keys
    && s' == s.(threads := s'.threads, alloc := s'.alloc, now := s.now + 1)
    && (forall u :: u in s.threads ==>
          && s'.threads[u] == s.threads[u].(garbage := s'.threads[u].garbage, pc := s'.threads[u].pc)
          && (u != t ==> s'.threads[u].pc == s.threads[u].pc))
    && s.threads[t].pc.Move? && s'.threads[t].pc.Move? && s'.threads[t].pc.curr == s.threads[t].pc.curr
    && (forall u, slot, c, b :: u in s.threads && b in s'.threads[u].Garbage(slot, c) ==> b in s.threads[u].Garbage(slot, c))
    && (forall b :: b in s'.alloc && b !in s.alloc ==> exists u, c :: u in s.threads && b in s.threads[u].Garbage(slot0, c))
  }

  lemma MovedHolders(s: State, t: nat, s': State, slot0: nat)
    requires Moved(s, t, s', slot0)
    ensures forall u, b :: MayHold(s', u, b) <==> MayHold(s, u, b)
  {
  }

  lemma MovedThreads(s: State, t: nat, s': State, slot0: nat)
    requires Moved(s, t, s', slot0)
    requires forall u :: ThreadOk(s, u)
    ensures forall u :: ThreadOk(s', u)
  {
    forall u ensures ThreadOk(s', u) { assert ThreadOk(s, u); }
  }

  lemma MovedBlocks(s: State, t: nat, s': State, slot0: nat)
    requires Moved(s, t, s', slot0)
    requires s.current == s.epochs % NR_EPOCHS && slot0 == (s.current + 1) % NR_EPOCHS
    requires CaughtUp(s, [])
    requires GarbageOk(s) && AllocOk(s)
    ensures GarbageOk(s') && AllocOk(s')
  {
    MovedHolders(s, t, s', slot0);
    forall u, slot, c, b | u in s'.threads && b in s'.threads[u].Garbage(slot, c) ensures RetiredOk(s', slot, b) {
      assert b in s.threads[u].Garbage(slot, c);
      assert RetiredOk(s, slot, b);
    }
    forall b | b in s'.alloc ensures b.at < s'.now && forall u :: !MayHold(s', u, b) {
      if b !in s.alloc {
        var u, c :| u in s.threads && b in s.threads[u].Garbage(slot0, c);
        assert RetiredOk(s, slot0, b);
        forall v ensures !MayHold(s', v, b) { OldEnough(s, slot0, b, v); }
      }
    }
  }

  lemma MoveStep(s: State, t: nat, curr: nat, rest: seq<nat>, cls: nat)
    requires Inv(s) && t in s.threads && s.threads[t].pc == Move(curr, rest, cls)
    ensures Inv(DoMove(s, t, curr, rest, cls))
  {
    assert ThreadOk(s, t);
    var s' := DoMove(s, t, curr, rest, cls);
    if rest == [] || rest[0] !in s.threads || cls >= s.sizes {
      LocalInv(s, t, s');
    } else {
      var slot0 := (curr + 1) % NR_EPOCHS;
      MoveTakes(s, t, curr, rest, cls);
      MovedThreads(s, t, s', slot0);
      MovedBlocks(s, t, s', slot0);
    }
  }

  lemma MoveTakes(s: State, t: nat, curr: nat, rest: seq<nat>, cls: nat)
    requires t in s.threads && s.threads[t].pc == Move(curr, rest, cls)
    requires rest != [] && rest[0] in s.threads && cls < s.sizes
    ensures Moved(s, t, DoMove(s, t, curr, rest, cls), (curr + 1) % NR_EPOCHS)
  {
    var s' := DoMove(s, t, curr, rest, cls);
    var slot0 := (curr + 1) % NR_EPOCHS;
    var gar := s.threads[rest[0]].Garbage(slot0, cls);
    forall b | b in s'.alloc && b !in s.alloc ensures exists u, c :: u in s.threads && b in s.threads[u].Garbage(slot0, c) {
      assert b in gar;
      assert b in s.threads[rest[0]].Garbage(slot0, cls);
    }
  }

  // Every step but a belated entry keeps the invariant.
  lemma StepInv(s: State, t: nat, a: Action)
    requires Inv(s) && EntryOk(s, t)
    ensures Inv(Next(s, t, a))
  {
    hide Inv;
    if t !in s.threads {
      NewThreadStep(s, t);
    } else {
      match s.threads[t].pc
      case Register(seen) => RegisterStep(s, t, seen);
      case LockCas => LockStep(s, t);
      case First => ReclaimPcs(s, t, a);
      case ReadCurrent(_) => ReclaimPcs(s, t, a);
      case CheckCount(_, _, _) => ReclaimPcs(s, t, a);
      case CheckEpoch(_, _, _) => ReclaimPcs(s, t, a);
      case Move(curr, rest, cls) => MoveStep(s, t, curr, rest, cls);
      case Advance(curr) => AdvanceStep(s, t, curr);
      case Unlock => UnlockStep(s, t);
      case In => if a.Retire? { RetireStep(s, t, a.block, a.cls); } else { LocalPcs(s, t, a); }
      case _ => LocalPcs(s, t, a);
    }
  }

  // A thread that lags inside a critical section has not caught up with a reclaimer past it.
  lemma BelatedCaught(s: State, r: nat, t: nat)
    requires r in s.threads && PastThread(s.threads[r].pc, t)
    requires t in s.threads && s.threads[t].pc.In? && s.threads[t].trueEpoch != s.epochs
    ensures !ThreadOk(s, r)
  {
    assert forall rest: seq<nat> :: t !in rest ==> !CaughtUp(s, rest);
  }

  // Exactly when the last step of gc_enter is harmless: it keeps the invariant if and
  // only if the entry was not held up for too long.
  lemma EntryExact(s: State, t: nat, a: Action)
    requires Inv(s) && Finishing(s, t)
    ensures Inv(Next(s, t, a)) <==> EntryOk(s, t)
  {
    if EntryOk(s, t) {
      StepInv(s, t, a);
    } else {
      var s' := Next(s, t, a);
      assert ThreadOk(s, t);
      if s.threads[t].pc.seenEpoch + 1 < s.epochs {
        assert !ThreadOk(s', t);
      } else {
        var r :| r in s.threads && PastThread(s.threads[r].pc, t);
        assert r != t && s'.threads[r] == s.threads[r];
        BelatedCaught(s', r, t);
      }
    }
  }

  // ---------- whole runs ----------

  datatype Run = Run(states: seq<State>, who: seq<nat>, actions: seq<Action>) {
    ghost predicate Valid() {
      && |states| > 0 && |who| == |actions| == |states| - 1
      && Init(states[0])
      && forall i :: 0 <= i < |who| ==> states[i + 1] == Next(states[i], who[i], actions[i])
    }

    // No entry of the run was held up for too long.
    ghost predicate Prompt() {
      |who| < |states| && forall i :: 0 <= i < |who| ==> EntryOk(states[i], who[i])
    }
  }

  lemma InitInv(s: State)
    requires Init(s)
    ensures Inv(s)
  {
  }

  lemma {:induction false} RunInv(r: Run, i: nat)
    requires r.Valid() && r.Prompt() && i < |r.states|
    ensures Inv(r.states[i])
  {
    hide Inv, Next;
    if i == 0 {
      InitInv(r.states[0]);
    } else {
      RunInv(r, i - 1);
      StepInv(r.states[i - 1], r.who[i - 1], r.actions[i - 1]);
    }
  }

  // No block on an allocation list may be held by anybody, and nobody inside a critical section
  // lags more than one epoch behind.
  ghost predicate Safe(s: State) {
    && (forall b, t :: b in s.alloc ==> !MayHold(s, t, b))
    && (forall t :: t in s.threads && s.threads[t].pc.In? ==> s.threads[t].trueEpoch <= s.epochs <= s.threads[t].trueEpoch + 1)
  }

  lemma InvSafe(s: State)
    requires Inv(s)
    ensures Safe(s)
  {
    forall t | t in s.threads && s.threads[t].pc.In? ensures s.threads[t].trueEpoch <= s.epochs <= s.threads[t].trueEpoch + 1 {
      assert ThreadOk(s, t);
    }
  }

  // Epoch safety: in every state of every prompt run, no thread may hold a block that
  // has reached an allocation list, and no thread inside a critical section lags more
  // than one epoch behind.
  lemma EpochSafe(r: Run, i: nat)
    requires r.Valid() && r.Prompt() && i < |r.states|
    ensures Safe(r.states[i])
    ensures forall t :: t in r.states[i].threads ==> r.states[i].threads[t].epoch == r.states[i].threads[t].trueEpoch % NR_EPOCHS
  {
    RunInv(r, i);
    InvSafe(r.states[i]);
    forall t | t in r.states[i].threads
      ensures r.states[i].threads[t].epoch == r.states[i].threads[t].trueEpoch % NR_EPOCHS
    {
      assert ThreadOk(r.states[i], t);
    }
  }

  // While garbage lists are being moved, no thread inside a critical section retires into
  // the slot that is moved, so a list move meets no concurrent gc_free.
  lemma MoveUndisturbed(r: Run, i: nat, t: nat, u: nat)
    requires r.Valid() && r.Prompt() && i < |r.states|
    requires var s := r.states[i];
             t in s.threads && s.threads[t].pc.Move? && u in s.threads && s.threads[u].pc.In?
    ensures r.states[i].threads[u].epoch != (r.states[i].threads[t].pc.curr + 1) % NR_EPOCHS
  {
    RunInv(r, i);
    assert ThreadOk(r.states[i], t) && ThreadOk(r.states[i], u);
  }
}
