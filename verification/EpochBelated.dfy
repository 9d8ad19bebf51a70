// Why the entry must not be held up: a run of two threads, from the initial state, in
// which a block reaches the allocation list while a thread still holds it.  Thread 0 is
// stopped between lines 538 and 541 while the epoch advances twice; its stale epoch is
// congruent to the current one modulo 3, so it does not hold the reclaimer back.

module EpochBelated {
  import opened GcParams
  import opened EpochModel
  import opened EpochSafety

  // ---------- schedules ----------

  ghost predicate Reaches(s: State, s': State) {
    exists sched :: Play(s, sched) == s'
  }

  lemma ReachSelf(s: State)
    ensures Reaches(s, s)
  {
    assert Play(s, []) == s;
  }

  lemma ReachNext(s: State, s1: State, t: nat, a: Action)
    requires Reaches(s, s1)
    ensures Reaches(s, Next(s1, t, a))
  {
    var sched :| Play(s, sched) == s1;
    var more := sched + [(t, a)];
    assert more[..|more| - 1] == sched;
    assert Play(s, more) == Next(s1, t, a);
  }

  // s with thread t at th, n steps later.
  ghost function Put(s: State, t: nat, th: Thread, n: nat): State {
    s.(threads := s.threads[t := th], now := s.now + n)
  }

  lemma PutSelf(s: State, t: nat)
    requires t in s.threads
    ensures Put(s, t, s.threads[t], 0) == s
  {
    assert s.threads[t := s.threads[t]] == s.threads;
  }

  lemma PutPut(s: State, t: nat, th: Thread, n: nat, th': Thread)
    ensures SetThread(Put(s, t, th, n), t, th') == Put(s, t, th', n + 1)
  {
    assert s.threads[t := th][t := th'] == s.threads[t := th'];
  }

  // A step of thread t that changes only its own record.
  lemma Own(s0: State, s: State, t: nat, th: Thread, n: nat, a: Action, th': Thread)
    requires Reaches(s0, Put(s, t, th, n))
    requires Exec(Put(s, t, th, n), t, a) == SetThread(Put(s, t, th, n), t, th')
    ensures Reaches(s0, Put(s, t, th', n + 1))
  {
    PutPut(s, t, th, n, th');
    ReachNext(s0, Put(s, t, th, n), t, a);
  }

  // ---------- two threads ----------

  ghost predicate Clean(th: Thread) {
    forall slot, cls :: th.Garbage(slot, cls) == []
  }

  // Threads 0 and 1 are registered, one block size, nothing freed yet.
  ghost predicate Pair(s: State) {
    && s.sizes == 1 && s.list == [1, 0] && 0 in s.threads && 1 in s.threads
    && s.alloc == [] && s.current == s.epochs % NR_EPOCHS
  }

  // Nothing but thread t's record and the clock differ.
  ghost predicate Only(s: State, s': State, t: nat) {
    && t in s.threads && t in s'.threads
    && s' == s.(threads := s.threads[t := s'.threads[t]], now := s'.now)
    && s'.now > s.now
  }

  // Outside, ready to enter at the epoch it last saw.
  ghost predicate Resting(th: Thread) { th.pc == Out && th.count == 1 && th.entries <= ENTRIES_PER_ATTEMPT }

  // The first two accesses of gc_enter.
  lemma ToSettle(s0: State, s: State, t: nat, th: Thread, n: nat)
    requires Reaches(s0, Put(s, t, th, n))
    requires th.pc == Enter && th.count == 1
    ensures Reaches(s0, Put(s, t, th.(pc := Settle(s.current, s.epochs), count := 2), n + 2))
  {
    Own(s0, s, t, th, n, Exit, th.(pc := ReadEpoch, count := 2));
    Own(s0, s, t, th.(pc := ReadEpoch, count := 2), n + 1, Exit, th.(pc := Settle(s.current, s.epochs), count := 2));
  }

  // Its last access, in an epoch the thread has seen and in one it has not.
  lemma SettleSame(s0: State, s: State, t: nat, th: Thread, n: nat)
    requires Reaches(s0, Put(s, t, th, n))
    requires th.pc.Settle? && th.epoch == th.pc.ne && th.entries < ENTRIES_PER_ATTEMPT
    ensures Reaches(s0, Put(s, t, th.(pc := In, entries := th.entries + 1, trueEpoch := th.pc.seenEpoch, entered := s.now + n), n + 1))
  {
    var th' := th.(pc := In, entries := th.entries + 1, trueEpoch := th.pc.seenEpoch, entered := s.now + n);
    Own(s0, s, t, th, n, Exit, th');
  }

  lemma SettleNew(s0: State, s: State, t: nat, th: Thread, n: nat)
    requires Reaches(s0, Put(s, t, th, n))
    requires th.pc.Settle? && th.epoch != th.pc.ne
    ensures Reaches(s0, Put(s, t, th.(pc := In, epoch := th.pc.ne, entries := 0, trueEpoch := th.pc.seenEpoch, entered := s.now + n), n + 1))
  {
    var th' := th.(pc := In, epoch := th.pc.ne, entries := 0, trueEpoch := th.pc.seenEpoch, entered := s.now + n);
    Own(s0, s, t, th, n, Exit, th');
  }

  lemma Cycle(s0: State, s: State, t: nat) returns (s': State)
    requires Reaches(s0, s) && t in s.threads
    requires Resting(s.threads[t]) && s.threads[t].epoch == s.current && s.threads[t].entries < ENTRIES_PER_ATTEMPT
    ensures Reaches(s0, s') && Only(s, s', t)
    ensures Resting(s'.threads[t]) && s'.threads[t].entries == s.threads[t].entries + 1
    ensures s'.threads[t].epoch == s.threads[t].epoch && s'.threads[t].garbage == s.threads[t].garbage
  {
    hide Exec, SetThread, Reaches;
    var th := s.threads[t];
    PutSelf(s, t);
    OutStep(s0, s, t, th, 0);
    ToSettle(s0, s, t, th.(pc := Enter), 1);
    var th3 := th.(pc := Settle(s.current, s.epochs), count := 2);
    assert th3 == th.(pc := Enter).(pc := Settle(s.current, s.epochs), count := 2);
    SettleSame(s0, s, t, th3, 3);
    var th4 := th3.(pc := In, entries := th.entries + 1, trueEpoch := s.epochs, entered := s.now + 3);
    ExitStep(s0, s, t, th4, 4);
    s' := Put(s, t, th4.(pc := Out, count := 1), 5);
  }

  lemma OutStep(s0: State, s: State, t: nat, th: Thread, n: nat)
    requires Reaches(s0, Put(s, t, th, n)) && th.pc == Out
    ensures Reaches(s0, Put(s, t, th.(pc := Enter), n + 1))
  {
    Own(s0, s, t, th, n, Exit, th.(pc := Enter));
  }

  lemma ExitStep(s0: State, s: State, t: nat, th: Thread, n: nat)
    requires Reaches(s0, Put(s, t, th, n)) && th.pc == In && th.count == 2
    ensures Reaches(s0, Put(s, t, th.(pc := Out, count := 1), n + 1))
  {
    Own(s0, s, t, th, n, Exit, th.(pc := Out, count := 1));
  }

  lemma {:induction false} Cycles(s0: State, s: State, t: nat) returns (s': State)
    requires Reaches(s0, s) && t in s.threads
    requires Resting(s.threads[t]) && s.threads[t].epoch == s.current
    ensures Reaches(s0, s')
    ensures s' == s || Only(s, s', t)
    ensures Resting(s'.threads[t]) && s'.threads[t].entries == ENTRIES_PER_ATTEMPT
    ensures s'.threads[t].epoch == s.threads[t].epoch && s'.threads[t].garbage == s.threads[t].garbage
    decreases ENTRIES_PER_ATTEMPT - s.threads[t].entries
  {
    if s.threads[t].entries == ENTRIES_PER_ATTEMPT {
      s' := s;
    } else {
      var s1 := Cycle(s0, s, t);
      s' := Cycles(s0, s1, t);
    }
  }

  // A thread that the check of line 358 lets pass.
  predicate Passes(s: State, u: nat) {
    u in s.threads && (s.threads[u].count <= 1 || s.threads[u].epoch == s.current)
  }

  // From its 101st entry in one epoch, thread t goes for the lock.
  lemma Approach(s0: State, s: State, t: nat) returns (s': State)
    requires Reaches(s0, s) && t in s.threads && !s.inreclaim
    requires Resting(s.threads[t]) && s.threads[t].epoch == s.current && s.threads[t].entries == ENTRIES_PER_ATTEMPT
    ensures Reaches(s0, s')
    ensures s' == Put(s, t, s.threads[t].(pc := LockCas, entries := 0), 6)
  {
    var th := s.threads[t];
    PutSelf(s, t);
    Own(s0, s, t, th, 0, Exit, th.(pc := Enter));
    Own(s0, s, t, th.(pc := Enter), 1, Exit, th.(pc := ReadEpoch, count := 2));
    Own(s0, s, t, th.(pc := ReadEpoch, count := 2), 2, Exit, th.(pc := Settle(s.current, s.epochs), count := 2));
    var th4 := th.(pc := BackOut, count := 2, entries := th.entries + 1);
    Own(s0, s, t, th.(pc := Settle(s.current, s.epochs), count := 2), 3, Exit, th4);
    Own(s0, s, t, th4, 4, Exit, th.(pc := LockTest, entries := 0));
    Own(s0, s, t, th.(pc := LockTest, entries := 0), 5, Exit, th.(pc := LockCas, entries := 0));
    s' := Put(s, t, th.(pc := LockCas, entries := 0), 6);
  }

  // It takes the lock and reads the list and the epoch.
  lemma Attempt(s0: State, s: State, t: nat) returns (s': State)
    requires Reaches(s0, s) && t in s.threads && !s.inreclaim && s.list == [1, 0]
    requires s.threads[t].pc == LockCas
    ensures Reaches(s0, s')
    ensures s' == Put(s.(inreclaim := true), t, s.threads[t].(pc := CheckCount(s.current, [1, 0], [1, 0])), 3)
  {
    var th := s.threads[t];
    var r := s.(inreclaim := true);
    ReachNext(s0, s, t, Exit);
    assert Next(s, t, Exit) == Put(r, t, th.(pc := First), 1);
    Own(s0, r, t, th.(pc := First), 1, Exit, th.(pc := ReadCurrent([1, 0])));
    Own(s0, r, t, th.(pc := ReadCurrent([1, 0])), 2, Exit, th.(pc := CheckCount(s.current, [1, 0], [1, 0])));
    s' := Put(r, t, th.(pc := CheckCount(s.current, [1, 0], [1, 0])), 3);
  }

  // The check of one thread takes one step or two.
  lemma CheckOne(s0: State, s: State, t: nat, curr: nat, first: seq<nat>, rest: seq<nat>) returns (s': State)
    requires Reaches(s0, s) && t in s.threads && rest != []
    requires s.threads[t].pc == CheckCount(curr, first, rest) && curr == s.current
    requires Passes(s, rest[0])
    ensures Reaches(s0, s') && Only(s, s', t)
    ensures s'.threads[t] == s.threads[t].(pc := NextCheck(curr, first, rest[1..]))
  {
    var th := s.threads[t];
    var th' := th.(pc := NextCheck(curr, first, rest[1..]));
    PutSelf(s, t);
    if s.threads[rest[0]].count > 1 {
      Own(s0, s, t, th, 0, Exit, th.(pc := CheckEpoch(curr, first, rest)));
      Own(s0, s, t, th.(pc := CheckEpoch(curr, first, rest)), 1, Exit, th');
      s' := Put(s, t, th', 2);
    } else {
      Own(s0, s, t, th, 0, Exit, th');
      s' := Put(s, t, th', 1);
    }
  }

  lemma NextChecks(curr: nat)
    ensures NextCheck(curr, [1, 0], [0]) == CheckCount(curr, [1, 0], [0])
    ensures [0][1..] == []
    ensures NextCheck(curr, [1, 0], [0][1..]) == Move(curr, [1, 0], 0)
  {
  }

  // The first half of a reclaim attempt by thread t: everybody passes the check.
  lemma Scan(s0: State, s: State, t: nat) returns (s': State)
    requires Reaches(s0, s) && t in s.threads && !s.inreclaim && s.list == [1, 0]
    requires Resting(s.threads[t]) && s.threads[t].epoch == s.current
    requires forall u :: u == 0 || u == 1 ==> u in s.threads && (u == t || Passes(s, u))
    ensures Reaches(s0, s') && Only(s.(inreclaim := true), s', t)
    ensures s'.threads[t].pc == Move(s.current, [1, 0], 0) && s'.threads[t].count == 1
    ensures s'.threads[t].epoch == s.threads[t].epoch && s'.threads[t].garbage == s.threads[t].garbage
  {
    hide Exec, SetThread, Reaches, NextCheck;
    var s1 := Cycles(s0, s, t);
    var s1' := Approach(s0, s1, t);
    var s2 := Attempt(s0, s1', t);
    var s3 := CheckOne(s0, s2, t, s.current, [1, 0], [1, 0]);
    assert [1, 0][1..] == [0];
    assert NextCheck(s.current, [1, 0], [0]) == CheckCount(s.current, [1, 0], [0]) by { NextChecks(s.current); }
    s' := CheckOne(s0, s3, t, s.current, [1, 0], [0]);
    NextChecks(s.current);
  }

  // Thread u as a list move leaves it.
  ghost predicate Swept(th: Thread, th': Thread) {
    th' == th.(garbage := th'.garbage) && (Clean(th) ==> Clean(th'))
  }

  // Both threads' garbage lists were swept, and thread t went on to pc.
  ghost predicate SweptPair(s: State, s': State, t: nat, pc: Pc) {
    && t in s.threads
    && s'.threads.Keys == s.threads.Keys
    && s' == s.(threads := s'.threads, now := s'.now) && s'.now > s.now
    && (forall u :: u in s.threads && u != t ==> Swept(s.threads[u], s'.threads[u]))
    && Swept(s.threads[t].(pc := pc), s'.threads[t])
  }

  lemma SweptTwice(s: State, s1: State, s2: State, t: nat, pc1: Pc, pc2: Pc)
    requires SweptPair(s, s1, t, pc1) && SweptPair(s1, s2, t, pc2)
    ensures SweptPair(s, s2, t, pc2)
  {
    assert Clean(s.threads[t].(pc := pc1)) <==> Clean(s.threads[t]) by { SameGarbage(s.threads[t], s.threads[t].(pc := pc1)); }
    SameGarbage(s.threads[t], s.threads[t].(pc := pc2));
    SameGarbage(s1.threads[t], s1.threads[t].(pc := pc2));
  }

  lemma SameGarbage(th: Thread, th': Thread)
    requires th'.garbage == th.garbage
    ensures Clean(th) <==> Clean(th')
  {
    assert forall slot, cls :: th.Garbage(slot, cls) == th'.Garbage(slot, cls);
  }

  // Nothing is moved from a garbage list of at most one chunk.
  lemma MoveNothing(s: State, t: nat, curr: nat, rest: seq<nat>) returns (s': State)
    requires t in s.threads && s.threads[t].pc == Move(curr, rest, 0) && s.sizes == 1
    requires rest != [] && rest[0] in s.threads && Clean(s.threads[rest[0]])
    ensures s' == Next(s, t, Exit)
    ensures SweptPair(s, s', t, Move(curr, rest, 1))
  {
    s' := Next(s, t, Exit);
    var u0, slot := rest[0], (curr + 1) % NR_EPOCHS;
    var th := s.threads[u0];
    assert th.Garbage(slot, 0) == [];
    var th1 := th.(garbage := th.garbage[(slot, 0) := []]);
    assert Clean(th1) by {
      forall sl, c ensures th1.Garbage(sl, c) == [] { assert th.Garbage(sl, c) == []; }
    }
    assert s'.alloc == s.alloc;
    SameGarbage(th1, th1.(pc := Move(curr, rest, 1)));
    SameGarbage(s.threads[t], s.threads[t].(pc := Move(curr, rest, 1)));
  }

  lemma NextThread(s: State, t: nat, curr: nat, rest: seq<nat>) returns (s': State)
    requires t in s.threads && s.threads[t].pc == Move(curr, rest, 1) && s.sizes == 1
    requires rest != [] && rest[0] in s.threads
    ensures s' == Next(s, t, Exit)
    ensures SweptPair(s, s', t, Move(curr, rest[1..], 0))
    ensures s'.threads[t] == s.threads[t].(pc := Move(curr, rest[1..], 0))
  {
    s' := Next(s, t, Exit);
  }

  // The lists of the first thread in rest.
  lemma SweepOne(s0: State, s: State, t: nat, curr: nat, rest: seq<nat>) returns (s': State)
    requires Reaches(s0, s)
    requires t in s.threads && s.threads[t].pc == Move(curr, rest, 0) && s.sizes == 1
    requires rest != [] && rest[0] in s.threads && Clean(s.threads[rest[0]])
    ensures Reaches(s0, s')
    ensures SweptPair(s, s', t, Move(curr, rest[1..], 0))
  {
    var s1 := MoveNothing(s, t, curr, rest);
    ReachNext(s0, s, t, Exit);
    s' := NextThread(s1, t, curr, rest);
    ReachNext(s0, s1, t, Exit);
    SweptTwice(s, s1, s', t, Move(curr, rest, 1), Move(curr, rest[1..], 0));
  }

  lemma ToUnlock(s0: State, s: State, t: nat, curr: nat)
    requires Reaches(s0, s) && t in s.threads && curr == s.current
    requires s.threads[t].pc == Move(curr, [], 0)
    ensures Reaches(s0, Put(s.(current := (curr + 1) % NR_EPOCHS, epochs := s.epochs + 1), t, s.threads[t].(pc := Unlock), 2))
  {
    var th := s.threads[t];
    PutSelf(s, t);
    Own(s0, s, t, th, 0, Exit, th.(pc := Advance(curr)));
    hide Reaches;
    ReachNext(s0, Put(s, t, th.(pc := Advance(curr)), 1), t, Exit);
    PutPut(s, t, th.(pc := Advance(curr)), 1, th.(pc := Unlock));
  }

  // After the last list move: advance, unlock, and enter the new epoch.
  lemma Finish(s0: State, s: State, t: nat, curr: nat) returns (s': State)
    requires Reaches(s0, s) && t in s.threads && curr == s.current == s.epochs % NR_EPOCHS && s.inreclaim
    requires s.threads[t].pc == Move(curr, [], 0) && s.threads[t].count == 1 && s.threads[t].epoch == curr
    ensures Reaches(s0, s') && t in s'.threads
    ensures s' == Put(s.(inreclaim := false, current := (curr + 1) % NR_EPOCHS, epochs := s.epochs + 1), t, s'.threads[t], 6)
    ensures s'.threads[t] == s.threads[t].(pc := In, count := 2, epoch := s'.current, entries := 0,
                                           trueEpoch := s'.epochs, entered := s.now + 5)
    ensures s'.current == s'.epochs % NR_EPOCHS
  {
    hide Reaches;
    var th := s.threads[t];
    ToUnlock(s0, s, t, curr);
    var r := s.(current := (curr + 1) % NR_EPOCHS, epochs := s.epochs + 1);
    var q := r.(inreclaim := false);
    ReachNext(s0, Put(r, t, th.(pc := Unlock), 2), t, Exit);
    assert Next(Put(r, t, th.(pc := Unlock), 2), t, Exit) == Put(q, t, th.(pc := Enter), 3) by {
      PutPut(r, t, th.(pc := Unlock), 2, th.(pc := Enter));
    }
    s' := EnterNew(s0, q, t, th.(pc := Enter), 3);
  }

  // gc_enter in an epoch the thread has not seen.
  lemma EnterNew(s0: State, q: State, t: nat, th: Thread, n: nat) returns (s': State)
    requires Reaches(s0, Put(q, t, th, n))
    requires th.pc == Enter && th.count == 1 && th.epoch != q.current
    ensures Reaches(s0, s')
    ensures s' == Put(q, t, th.(pc := In, count := 2, epoch := q.current, entries := 0, trueEpoch := q.epochs, entered := q.now + n + 2), n + 3)
  {
    hide Exec, SetThread, Reaches;
    ToSettle(s0, q, t, th, n);
    var th2 := th.(pc := Settle(q.current, q.epochs), count := 2);
    SettleNew(s0, q, t, th2, n + 2);
    s' := Put(q, t, th.(pc := In, count := 2, epoch := q.current, entries := 0, trueEpoch := q.epochs, entered := q.now + n + 2), n + 3);
  }

  // The second half of a reclaim attempt when no garbage list is long enough to be moved,
  // and the entry that follows it in the next epoch.
  lemma Sweep(s0: State, s: State, t: nat, u: nat) returns (s': State)
    requires Reaches(s0, s) && Pair(s) && s.inreclaim && {t, u} == {0, 1}
    requires s.threads[t].pc == Move(s.current, [1, 0], 0) && s.threads[t].count == 1 && s.threads[t].epoch == s.current
    requires Clean(s.threads[0]) && Clean(s.threads[1])
    ensures Reaches(s0, s') && Pair(s') && !s'.inreclaim && s'.epochs == s.epochs + 1
    ensures s'.now > s.now
    ensures Swept(s.threads[u], s'.threads[u])
    ensures var th := s'.threads[t];
            th.pc == In && th.count == 2 && th.epoch == s'.current && th.entries == 0 && Clean(th) && th.entered < s'.now
  {
    assert {t, u} == {0, 1} && t in {t, u} && u in {t, u} && 0 in {t, u} && 1 in {t, u};
    assert t != u;
    var s1 := SweepOne(s0, s, t, s.current, [1, 0]);
    assert [1, 0][1..] == [0];
    SameGarbage(s.threads[t], s.threads[t].(pc := Move(s.current, [0], 0)));
    var s2 := SweepOne(s0, s1, t, s.current, [0]);
    assert [0][1..] == [];
    SweptTwice(s, s1, s2, t, Move(s.current, [0], 0), Move(s.current, [], 0));
    s' := Finish(s0, s2, t, s.current);
    SameGarbage(s.threads[t], s.threads[t].(pc := Move(s.current, [], 0)));
    SameGarbage(s2.threads[t], s'.threads[t]);
  }

  lemma Leave(s0: State, s: State, t: nat) returns (s': State)
    requires Reaches(s0, s) && t in s.threads && s.threads[t].pc == In && s.threads[t].count == 2
    ensures Reaches(s0, s') && Only(s, s', t)
    ensures s'.threads[t] == s.threads[t].(pc := Out, count := 1)
  {
    var th := s.threads[t];
    PutSelf(s, t);
    Own(s0, s, t, th, 0, Exit, th.(pc := Out, count := 1));
    s' := Put(s, t, th.(pc := Out, count := 1), 1);
  }

  // ---------- the run ----------

  // critical_enter of a new thread, and critical_exit.
  lemma Join(s0: State, s: State, t: nat) returns (s': State)
    requires Reaches(s0, s) && t !in s.threads && s.current == 0
    ensures Reaches(s0, s') && t in s'.threads
    ensures s' == Put(s.(list := [t] + s.list), t, s'.threads[t], 6)
    ensures Resting(s'.threads[t]) && s'.threads[t].epoch == 0 && Clean(s'.threads[t])
  {
    var th := NewThread(s.list);
    ReachNext(s0, s, t, Exit);
    assert Next(s, t, Exit) == Put(s, t, th, 1);
    ReachNext(s0, Put(s, t, th, 1), t, Exit);
    var r := s.(list := [t] + s.list);
    PutPut(s, t, th, 1, th.(pc := Enter));
    assert Next(Put(s, t, th, 1), t, Exit) == Put(r, t, th.(pc := Enter), 2);
    ToSettle(s0, r, t, th.(pc := Enter), 2);
    s' := JoinEnd(s0, r, t, th.(pc := Enter));
  }

  lemma JoinEnd(s0: State, r: State, t: nat, th: Thread) returns (s': State)
    requires Reaches(s0, Put(r, t, th.(pc := Settle(r.current, r.epochs), count := 2), 4))
    requires r.current == 0 && th.epoch == 0 && th.entries == 0 && th.garbage == map[]
    ensures Reaches(s0, s') && t in s'.threads
    ensures s' == Put(r, t, s'.threads[t], 6)
    ensures Resting(s'.threads[t]) && s'.threads[t].epoch == 0 && Clean(s'.threads[t])
  {
    hide Exec, SetThread, Reaches;
    var th1 := th.(pc := Settle(r.current, r.epochs), count := 2);
    SettleSame(s0, r, t, th1, 4);
    var th2 := th1.(pc := In, entries := 1, trueEpoch := r.epochs, entered := r.now + 4);
    ExitStep(s0, r, t, th2, 5);
    s' := Put(r, t, th2.(pc := Out, count := 1), 6);
  }

  // After e advances: thread 1 is up to date, thread 0 has not entered since epoch 0.
  ghost predicate Ready(s: State, e: nat) {
    && Pair(s) && !s.inreclaim && s.epochs == e
    && Resting(s.threads[0]) && s.threads[0].epoch == 0 && Clean(s.threads[0])
    && Resting(s.threads[1]) && s.threads[1].epoch == s.current && Clean(s.threads[1])
  }

  lemma Setup(s0: State) returns (s: State)
    requires Init(s0) && s0.sizes == 1
    ensures Reaches(s0, s) && Ready(s, 0)
  {
    ReachSelf(s0);
    var s1 := Join(s0, s0, 0);
    s := Join(s0, s1, 1);
    assert s.list == [1, 0];
  }

  lemma OnlyPair(s: State, s': State, t: nat)
    requires Pair(s) && Only(s.(inreclaim := true), s', t) && s'.threads[t].garbage == s.threads[t].garbage
    requires Clean(s.threads[0]) && Clean(s.threads[1])
    ensures Pair(s') && Clean(s'.threads[0]) && Clean(s'.threads[1])
  {
    SameGarbage(s.threads[t], s'.threads[t]);
  }

  // One advance by thread 1, which leaves its critical section again.
  lemma Round(s0: State, s: State, e: nat) returns (s': State)
    requires Reaches(s0, s) && Ready(s, e)
    ensures Reaches(s0, s') && Ready(s', e + 1)
  {
    hide Reaches, Clean;
    var s1 := Scan(s0, s, 1);
    OnlyPair(s, s1, 1);
    var s2 := Sweep(s0, s1, 1, 0);
    s' := Leave(s0, s2, 1);
    SameGarbage(s2.threads[1], s'.threads[1]);
  }

  // Thread 0 has read epoch 2 and not yet stored it, while the epoch is e.
  ghost predicate Stuck(s: State, e: nat) {
    && Pair(s) && !s.inreclaim && s.epochs == e
    && s.threads[0].pc == Settle(2, 2) && s.threads[0].count == 2 && s.threads[0].epoch == 0 && Clean(s.threads[0])
    && s.threads[1].epoch == s.current && Clean(s.threads[1])
  }

  // During the third advance thread 0 is checked, and only then starts to enter.
  lemma Third(s0: State, s: State) returns (s': State)
    requires Reaches(s0, s) && Ready(s, 2)
    ensures Reaches(s0, s') && Stuck(s', 3) && Resting(s'.threads[1])
  {
    hide Reaches, Clean;
    var s1 := Scan(s0, s, 1);
    OnlyPair(s, s1, 1);
    var s2 := Interrupt(s0, s1);
    var s3 := Sweep(s0, s2, 1, 0);
    s' := Leave(s0, s3, 1);
    SameGarbage(s3.threads[1], s'.threads[1]);
  }

  lemma Interrupt(s0: State, s: State) returns (s': State)
    requires Reaches(s0, s) && 0 in s.threads && Resting(s.threads[0]) && s.current == 2 && s.epochs == 2
    ensures Reaches(s0, s') && 0 in s'.threads && s' == Put(s, 0, s'.threads[0], 3)
    ensures s'.threads[0] == s.threads[0].(pc := Settle(2, 2), count := 2)
    ensures Clean(s.threads[0]) ==> Clean(s'.threads[0])
  {
    hide Exec, SetThread, Reaches;
    var th := s.threads[0];
    PutSelf(s, 0);
    OutStep(s0, s, 0, th, 0);
    ToSettle(s0, s, 0, th.(pc := Enter), 1);
    s' := Put(s, 0, th.(pc := Settle(2, 2), count := 2), 3);
    SameGarbage(th, s'.threads[0]);
  }

  // The fourth advance is not held back by thread 0: its epoch 0 is congruent to 3.
  lemma Fourth(s0: State, s: State) returns (s': State)
    requires Reaches(s0, s) && Stuck(s, 3) && Resting(s.threads[1])
    ensures Reaches(s0, s') && Stuck(s', 4)
    ensures s'.threads[1].pc == In && s'.threads[1].count == 2 && s'.threads[1].entered < s'.now
  {
    hide Reaches, Clean;
    var s1 := Scan(s0, s, 1);
    OnlyPair(s, s1, 1);
    s' := Sweep(s0, s1, 1, 0);
  }

  // Thread 0 finally stores epoch 2 and retires n blocks.
  lemma {:induction false} Retires(s0: State, s: State, n: nat) returns (s': State)
    requires Reaches(s0, s) && 0 in s.threads && s.threads[0].pc == In && s.threads[0].count == 2
    requires s.threads[0].epoch == 2
    ensures Reaches(s0, s') && 0 in s'.threads && s'.now >= s.now
    ensures s' == s.(threads := s.threads[0 := s'.threads[0]], now := s'.now)
    ensures s'.threads[0] == s.threads[0].(garbage := s'.threads[0].garbage)
    ensures |s'.threads[0].Garbage(2, 0)| == |s.threads[0].Garbage(2, 0)| + n
    ensures forall i :: |s.threads[0].Garbage(2, 0)| <= i < |s'.threads[0].Garbage(2, 0)| ==> s'.threads[0].Garbage(2, 0)[i].at >= s.now
  {
    if n == 0 {
      s' := s;
      assert s.threads[0 := s.threads[0]] == s.threads;
    } else {
      var s1 := Retires(s0, s, n - 1);
      ReachNext(s0, s1, 0, Retire(7, 0));
      s' := Next(s1, 0, Retire(7, 0));
      assert s.threads[0 := s1.threads[0]][0 := s'.threads[0]] == s.threads[0 := s'.threads[0]];
    }
  }

  // Thread 0 holds a full chunk and one block more in slot 2, all retired after thread 1 entered.
  ghost predicate Loaded(s: State) {
    && s.sizes == 1 && s.list == [1, 0] && 0 in s.threads && 1 in s.threads && s.current == 1
    && s.threads[1].pc == In && s.threads[1].count == 2 && s.threads[1].epoch == 1 && Clean(s.threads[1])
    && |s.threads[0].Garbage(2, 0)| == 101
    && (forall i :: 0 <= i < 101 ==> s.threads[0].Garbage(2, 0)[i].at > s.threads[1].entered)
  }

  lemma Fifth(s0: State, s: State) returns (s': State)
    requires Reaches(s0, s) && Stuck(s, 4)
    requires s.threads[1].pc == In && s.threads[1].count == 2 && s.threads[1].entered < s.now
    ensures Reaches(s0, s') && Loaded(s') && !s'.inreclaim
    ensures s'.threads[0].pc == In && s'.threads[0].count == 2 && s'.threads[0].epoch == 2
  {
    var th := s.threads[0];
    PutSelf(s, 0);
    SettleNew(s0, s, 0, th, 0);
    var th1 := th.(pc := In, epoch := 2, entries := 0, trueEpoch := 2, entered := s.now);
    assert th1 == th.(pc := In, epoch := th.pc.ne, entries := 0, trueEpoch := th.pc.seenEpoch, entered := s.now + 0);
    var s1 := Put(s, 0, th1, 1);
    SameGarbage(th, th1);
    assert th1.Garbage(2, 0) == [];
    s' := Retires(s0, s1, 101);
  }

  // Thread 0 leaves and enters again in epoch 4, seeing wrapped epoch 1.
  lemma Sixth(s0: State, s: State) returns (s': State)
    requires Reaches(s0, s) && Loaded(s) && !s.inreclaim
    requires s.threads[0].pc == In && s.threads[0].count == 2 && s.threads[0].epoch == 2
    ensures Reaches(s0, s') && Loaded(s') && !s'.inreclaim
    ensures Resting(s'.threads[0]) && s'.threads[0].epoch == 1
  {
    hide Exec, SetThread, Reaches, Clean;
    var th := s.threads[0];
    PutSelf(s, 0);
    ExitStep(s0, s, 0, th, 0);
    OutStep(s0, s, 0, th.(pc := Out, count := 1), 1);
    var s1 := EnterNew(s0, s, 0, th.(pc := Out, count := 1).(pc := Enter), 2);
    s' := Leave(s0, s1, 0);
    assert s'.threads[0].garbage == th.garbage;
    assert s'.threads[0].Garbage(2, 0) == th.Garbage(2, 0);
    assert s'.threads[1] == s.threads[1];
  }

  // Its own reclaim attempt hands the blocks out while thread 1 may still hold them.
  lemma Seventh(s0: State, s: State) returns (s': State, b: Retired)
    requires Reaches(s0, s) && Loaded(s) && !s.inreclaim
    requires Resting(s.threads[0]) && s.threads[0].epoch == 1
    ensures Reaches(s0, s') && b in s'.alloc && MayHold(s', 1, b)
  {
    var s1 := Scan(s0, s, 0);
    assert s1.threads[0].Garbage(2, 0) == s.threads[0].Garbage(2, 0);
    var s2, s3 := Next(s1, 0, Exit), Next(Next(s1, 0, Exit), 0, Exit);
    ReachNext(s0, s1, 0, Exit);
    ReachNext(s0, s2, 0, Exit);
    assert s1.threads[1].Garbage(2, 0) == [];
    assert s2.threads[0] == s1.threads[0].(pc := Move(1, [1, 0], 1));
    assert [1, 0][1..] == [0];
    assert s3.threads[0] == s1.threads[0].(pc := Move(1, [0], 0));
    ReachNext(s0, s3, 0, Exit);
    assert s3.threads[0].Garbage(2, 0) == s1.threads[0].Garbage(2, 0);
    s', b := HandOut(s3);
  }

  lemma HandOut(s3: State) returns (s': State, b: Retired)
    requires 0 in s3.threads && 1 in s3.threads && s3.threads[0].pc == Move(1, [0], 0) && s3.sizes == 1
    requires |s3.threads[0].Garbage(2, 0)| == 101 && MayHold(s3, 1, s3.threads[0].Garbage(2, 0)[0])
    ensures s' == Next(s3, 0, Exit) && b in s'.alloc && MayHold(s', 1, b)
  {
    s' := Next(s3, 0, Exit);
    var gar := s3.threads[0].Garbage(2, 0);
    b := gar[0];
    assert Movable(101) == 100;
    assert gar[..100][0] == b;
    assert s'.alloc == s3.alloc + gar[..100];
  }

  lemma Unsafe(s0: State) returns (s: State, b: Retired)
    requires Init(s0) && s0.sizes == 1
    ensures Reaches(s0, s) && b in s.alloc && MayHold(s, 1, b)
  {
    hide Reaches, Ready, Stuck, Loaded;
    var s1 := Setup(s0);
    var s2 := Round(s0, s1, 0);
    var s3 := Round(s0, s2, 1);
    var s4 := Third(s0, s3);
    var s5 := Fourth(s0, s4);
    s, b := UnsafeEnd(s0, s5);
  }

  lemma UnsafeEnd(s0: State, s5: State) returns (s: State, b: Retired)
    requires Reaches(s0, s5) && Stuck(s5, 4)
    requires s5.threads[1].pc == In && s5.threads[1].count == 2 && s5.threads[1].entered < s5.now
    ensures Reaches(s0, s) && b in s.alloc && MayHold(s, 1, b)
  {
    var s6 := Fifth(s0, s5);
    var s7 := Sixth(s0, s6);
    s, b := Seventh(s0, s7);
  }

  // The run a schedule describes.
  ghost function RunOf(s: State, sched: seq<(nat, Action)>): Run {
    Run(seq(|sched| + 1, i requires 0 <= i <= |sched| => Play(s, sched[..i])),
        seq(|sched|, i requires 0 <= i < |sched| => sched[i].0),
        seq(|sched|, i requires 0 <= i < |sched| => sched[i].1))
  }

  lemma RunOfValid(s: State, sched: seq<(nat, Action)>)
    requires Init(s)
    ensures RunOf(s, sched).Valid()
    ensures RunOf(s, sched).states[|sched|] == Play(s, sched)
  {
    var r := RunOf(s, sched);
    forall i | 0 <= i < |r.who| ensures r.states[i + 1] == Next(r.states[i], r.who[i], r.actions[i]) {
      assert sched[..i + 1][..i] == sched[..i];
    }
    assert sched[..|sched|] == sched;
  }

  // Without the promptness condition epoch safety fails: this run of two threads ends with
  // a block on the allocation list that a thread inside a critical section may hold.
  lemma SafetyNeedsPromptness(s0: State) returns (r: Run, b: Retired)
    requires Init(s0) && s0.sizes == 1
    ensures r.Valid() && !r.Prompt()
    ensures b in r.states[|r.states| - 1].alloc && MayHold(r.states[|r.states| - 1], 1, b)
  {
    var s;
    s, b := Unsafe(s0);
    var sched :| Play(s0, sched) == s;
    r := RunOf(s0, sched);
    RunOfValid(s0, sched);
    if r.Prompt() {
      EpochSafe(r, |r.states| - 1);
    }
  }
}
