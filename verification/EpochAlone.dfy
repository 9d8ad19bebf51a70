// gc_enter and gc_reclaim by a thread that runs alone: they come to an end within a stated number of
// steps, and the epoch advances exactly if every listed thread inside a critical section has seen it.

module EpochAlone {
  import opened GcParams
  import opened EpochModel
  import opened EpochSafety

  // n steps of thread t and of nobody else.
  ghost function Turns(s: State, t: nat, n: nat): State
    decreases n
  {
    if n == 0 then s else Turns(Next(s, t, Call), t, n - 1)
  }

  lemma {:induction false} TurnsAdd(s: State, t: nat, n: nat, k: nat)
    ensures Turns(Turns(s, t, n), t, k) == Turns(s, t, n + k)
    decreases n
  {
    if n > 0 { TurnsAdd(Next(s, t, Call), t, n - 1, k); }
  }

  // The state but for where t stands and the clock.
  function Moved(s: State, t: nat, pc: Pc, now: nat): State
    requires t in s.threads
  {
    s.(threads := s.threads[t := s.threads[t].(pc := pc)], now := now)
  }

  // Outside its critical sections, or up to date.
  predicate Fresh(s: State, u: nat) {
    u in s.threads && (s.threads[u].count <= 1 || s.threads[u].epoch == s.current)
  }

  predicate AllFresh(s: State, us: seq<nat>) {
    forall u :: u in us ==> Fresh(s, u)
  }

  // ---------- the checks ----------

  lemma Again(s: State, t: nat, pc: Pc, now: nat, pc': Pc, now': nat)
    requires t in s.threads
    ensures Moved(Moved(s, t, pc, now), t, pc', now') == Moved(s, t, pc', now')
  {
    assert s.threads[t := s.threads[t].(pc := pc)][t := s.threads[t].(pc := pc')] == s.threads[t := s.threads[t].(pc := pc')];
  }

  // One thread is checked.
  lemma CheckOne(s: State, t: nat, curr: nat, first: seq<nat>, rest: seq<nat>, now: nat) returns (n: nat, now': nat)
    requires t in s.threads && rest != [] && rest[0] in s.threads && curr == s.current
    ensures n <= 2
    ensures Turns(Moved(s, t, CheckCount(curr, first, rest), now), t, n)
         == Moved(s, t, if Fresh(s, rest[0]) then NextCheck(curr, first, rest[1..]) else Unlock, now')
  {
    var s0 := Moved(s, t, CheckCount(curr, first, rest), now);
    if s.threads[rest[0]].count > 1 {
      var s1 := Moved(s, t, CheckEpoch(curr, first, rest), now + 1);
      Again(s, t, CheckCount(curr, first, rest), now, CheckEpoch(curr, first, rest), now + 1);
      assert Next(s0, t, Call) == s1;
      var pc := if Fresh(s, rest[0]) then NextCheck(curr, first, rest[1..]) else Unlock;
      Again(s, t, CheckEpoch(curr, first, rest), now + 1, pc, now + 2);
      assert Next(s1, t, Call) == Moved(s, t, pc, now + 2);
      n, now' := 2, now + 2;
      TwoTurns(s0, t);
    } else {
      Again(s, t, CheckCount(curr, first, rest), now, NextCheck(curr, first, rest[1..]), now + 1);
      n, now' := 1, now + 1;
      OneTurn(s0, t);
    }
  }

  lemma OneTurn(s: State, t: nat)
    ensures Turns(s, t, 1) == Next(s, t, Call)
  {
    assert Turns(Next(s, t, Call), t, 0) == Next(s, t, Call);
  }

  lemma TwoTurns(s: State, t: nat)
    ensures Turns(s, t, 2) == Next(Next(s, t, Call), t, Call)
  {
    OneTurn(Next(s, t, Call), t);
    assert Turns(s, t, 2) == Turns(Next(s, t, Call), t, 1);
  }

  // All of them are checked, or the first stale one ends the attempt.
  lemma {:induction false} Checks(s: State, t: nat, curr: nat, first: seq<nat>, rest: seq<nat>, now: nat) returns (n: nat, now': nat)
    requires t in s.threads && curr == s.current && forall u :: u in rest ==> u in s.threads
    ensures n <= 2 * |rest|
    ensures Turns(Moved(s, t, NextCheck(curr, first, rest), now), t, n)
         == Moved(s, t, if AllFresh(s, rest) then Move(curr, first, 0) else Unlock, now')
    decreases |rest|
  {
    hide Turns, Moved, Fresh;
    if rest == [] {
      n, now' := 0, now;
      NoTurns(Moved(s, t, NextCheck(curr, first, rest), now), t);
    } else {
      n, now' := CheckOne(s, t, curr, first, rest, now);
      assert rest[0] in rest;
      if Fresh(s, rest[0]) {
        var k, now2 := Checks(s, t, curr, first, rest[1..], now');
        TurnsAdd(Moved(s, t, NextCheck(curr, first, rest), now), t, n, k);
        AllFreshTail(s, rest);
        n, now' := n + k, now2;
      } else {
        assert !AllFresh(s, rest);
      }
    }
  }

  lemma NoTurns(s: State, t: nat)
    ensures Turns(s, t, 0) == s
  {
  }

  lemma AllFreshTail(s: State, rest: seq<nat>)
    requires rest != [] && Fresh(s, rest[0])
    ensures AllFresh(s, rest) <==> AllFresh(s, rest[1..])
  {
    forall u | u in rest && u != rest[0] ensures u in rest[1..] {
      var k :| 0 <= k < |rest| && rest[k] == u;
      assert rest[1..][k - 1] == u;
    }
  }

  // ---------- the moves ----------

  // What a list move leaves of a garbage list: the newest chunk, as the blocks of one never fill two.
  function Newest(g: seq<Retired>): seq<Retired> {
    g[Movable(|g|)..]
  }

  lemma NewestTwice(g: seq<Retired>)
    ensures Newest(Newest(g)) == Newest(g)
  {
    assert Movable(|Newest(g)|) == 0;
  }

  // The lists a reclaimer has still to look at, standing at size cls of thread rest[0].
  predicate Todo(rest: seq<nat>, cls: nat, sizes: nat, u: nat, c: nat) {
    c < sizes && ((rest != [] && u == rest[0] && c >= cls) || (rest != [] && u in rest[1..]))
  }

  // As sets of pairs of a thread and a size: the list at hand, the lists still to come, and all of them.
  function AtHand(pc: Pc, sizes: nat): (nat, nat) -> bool
    requires pc.Move?
  {
    (u: nat, c: nat) => pc.rest != [] && u == pc.rest[0] && c == pc.cls && c < sizes
  }

  function ToCome(pc: Pc, sizes: nat): (nat, nat) -> bool
    requires pc.Move?
  {
    (u: nat, c: nat) => Todo(pc.rest, pc.cls, sizes, u, c)
  }

  function Listed(list: seq<nat>, sizes: nat): (nat, nat) -> bool {
    (u: nat, c: nat) => u in list && c < sizes
  }

  // s' has the garbage of s, but for the lists of one slot chosen by which, of which the newest chunk is left.
  ghost predicate Swept(s: State, s': State, t: nat, slot: nat, which: (nat, nat) -> bool) {
    && s' == s.(threads := s'.threads, alloc := s'.alloc, now := s'.now)
    && s'.threads.Keys == s.threads.Keys
    && s.alloc <= s'.alloc
    && forall u :: u in s.threads ==> SweptOne(s, s', t, slot, which, u)
  }

  ghost predicate SweptOne(s: State, s': State, t: nat, slot: nat, which: (nat, nat) -> bool, u: nat)
    requires u in s.threads && u in s'.threads
  {
    && s'.threads[u] == s.threads[u].(garbage := s'.threads[u].garbage, pc := if u == t then s'.threads[u].pc else s.threads[u].pc)
    && forall sl, c :: s'.threads[u].Garbage(sl, c) ==
         if sl == slot && which(u, c) then Newest(s.threads[u].Garbage(sl, c)) else s.threads[u].Garbage(sl, c)
  }

  // Where a turn of the moves leads.
  function MoveGoes(pc: Pc, sizes: nat): Pc
    requires pc.Move?
  {
    if pc.rest == [] then Advance(pc.curr)
    else if pc.cls >= sizes then Move(pc.curr, pc.rest[1..], 0)
    else Move(pc.curr, pc.rest, pc.cls + 1)
  }

  lemma MoveOne(s: State, t: nat)
    requires t in s.threads && s.threads[t].pc.Move?
    requires var pc := s.threads[t].pc; pc.rest != [] ==> pc.rest[0] in s.threads
    ensures var pc, s' := s.threads[t].pc, Next(s, t, Call);
      && Swept(s, s', t, (pc.curr + 1) % NR_EPOCHS, AtHand(pc, s.sizes))
      && s'.threads[t].pc == MoveGoes(pc, s.sizes)
  {
    var pc := s.threads[t].pc;
    IsDoMove(s, t);
    hide Next, Swept, Moved;
    if pc.rest == [] || pc.cls >= s.sizes {
      OnlyMoves(s, t, pc);
      SweptNone(s, t, MoveGoes(pc, s.sizes), s.now + 1, (pc.curr + 1) % NR_EPOCHS, AtHand(pc, s.sizes));
    } else {
      ListMoves(s, t, pc);
    }
  }

  lemma IsDoMove(s: State, t: nat)
    requires t in s.threads && s.threads[t].pc.Move?
    ensures var pc := s.threads[t].pc; Next(s, t, Call) == DoMove(s, t, pc.curr, pc.rest, pc.cls)
  {
    hide DoMove;
  }

  lemma OnlyMoves(s: State, t: nat, pc: Pc)
    requires t in s.threads && pc == s.threads[t].pc && pc.Move? && (pc.rest != [] ==> pc.rest[0] in s.threads)
    requires pc.rest == [] || pc.cls >= s.sizes
    ensures DoMove(s, t, pc.curr, pc.rest, pc.cls) == Moved(s, t, MoveGoes(pc, s.sizes), s.now + 1)
    ensures var m := Moved(s, t, MoveGoes(pc, s.sizes), s.now + 1); t in m.threads && m.threads[t].pc == MoveGoes(pc, s.sizes)
    ensures forall u, c :: !AtHand(pc, s.sizes)(u, c)
  {
  }

  lemma SweptNone(s: State, t: nat, pc: Pc, now: nat, slot: nat, which: (nat, nat) -> bool)
    requires t in s.threads && forall u, c :: !which(u, c)
    ensures Swept(s, Moved(s, t, pc, now), t, slot, which)
  {
    forall u | u in s.threads ensures SweptOne(s, Moved(s, t, pc, now), t, slot, which, u) {
      forall sl: nat, c: nat ensures Moved(s, t, pc, now).threads[u].Garbage(sl, c) == s.threads[u].Garbage(sl, c) {}
    }
  }

  lemma ListMoves(s: State, t: nat, pc: Pc)
    requires t in s.threads && pc == s.threads[t].pc && pc.Move? && pc.rest != [] && pc.rest[0] in s.threads && pc.cls < s.sizes
    ensures var s' := DoMove(s, t, pc.curr, pc.rest, pc.cls);
      && Swept(s, s', t, (pc.curr + 1) % NR_EPOCHS, AtHand(pc, s.sizes))
      && t in s'.threads && s'.threads[t].pc == MoveGoes(pc, s.sizes)
  {
    var s' := DoMove(s, t, pc.curr, pc.rest, pc.cls);
    var u, slot := pc.rest[0], (pc.curr + 1) % NR_EPOCHS;
    forall v | v in s.threads ensures SweptOne(s, s', t, slot, AtHand(pc, s.sizes), v) {
      if v != u {
        assert s'.threads[v].garbage == s.threads[v].garbage;
        forall sl: nat, c: nat ensures s'.threads[v].Garbage(sl, c) == s.threads[v].Garbage(sl, c) {}
      } else {
        assert s'.threads[u].garbage == s.threads[u].garbage[(slot, pc.cls) := Newest(s.threads[u].Garbage(slot, pc.cls))];
        hide DoMove;
        forall sl: nat, c: nat ensures s'.threads[u].Garbage(sl, c)
          == if sl == slot && c == pc.cls then Newest(s.threads[u].Garbage(sl, c)) else s.threads[u].Garbage(sl, c) {}
      }
    }
  }

  lemma SweptMore(s: State, s1: State, s2: State, t: nat, slot: nat, a: (nat, nat) -> bool, b: (nat, nat) -> bool, c: (nat, nat) -> bool)
    requires Swept(s, s1, t, slot, a) && Swept(s1, s2, t, slot, b)
    requires forall u, k :: c(u, k) <==> a(u, k) || b(u, k)
    ensures Swept(s, s2, t, slot, c)
  {
    forall u | u in s.threads ensures SweptOne(s, s2, t, slot, c, u) {
      assert SweptOne(s, s1, t, slot, a, u) && SweptOne(s1, s2, t, slot, b, u);
      forall sl, k ensures s2.threads[u].Garbage(sl, k) ==
        if sl == slot && c(u, k) then Newest(s.threads[u].Garbage(sl, k)) else s.threads[u].Garbage(sl, k)
      {
        NewestTwice(s.threads[u].Garbage(sl, k));
      }
    }
  }

  // The steps that the moves may still take.
  function MovesLeft(sizes: nat, rest: seq<nat>, cls: nat): int {
    if rest == [] then 1 else |rest| * (sizes + 1) - cls + 1
  }

  ghost predicate SweptTodo(s: State, s': State, t: nat, pc: Pc)
    requires pc.Move?
  {
    Swept(s, s', t, (pc.curr + 1) % NR_EPOCHS, ToCome(pc, s.sizes))
  }

  // One turn and the turns after it sweep what there was to do.
  lemma TodoSplit(s: State, s1: State, s2: State, t: nat)
    requires t in s.threads && s.threads[t].pc.Move? && s.threads[t].pc.rest != [] && s.threads[t].pc.rest[0] in s.threads
    requires s1 == Next(s, t, Call) && s1.sizes == s.sizes && t in s1.threads && s1.threads[t].pc.Move?
    requires s1.threads[t].pc.curr == s.threads[t].pc.curr && SweptTodo(s1, s2, t, s1.threads[t].pc)
    ensures SweptTodo(s, s2, t, s.threads[t].pc)
  {
    hide *;
    MoveOne(s, t);
    Joined(s, s1, s2, t, s.threads[t].pc, s1.threads[t].pc);
  }

  lemma Joined(s: State, s1: State, s2: State, t: nat, pc: Pc, pc1: Pc)
    requires pc.Move? && pc1.Move? && pc.rest != [] && pc1.curr == pc.curr && s1.sizes == s.sizes
    requires pc1 == MoveGoes(pc, s.sizes)
    requires Swept(s, s1, t, (pc.curr + 1) % NR_EPOCHS, AtHand(pc, s.sizes)) && SweptTodo(s1, s2, t, pc1)
    ensures SweptTodo(s, s2, t, pc)
  {
    hide Swept;
    var a, b, c := AtHand(pc, s.sizes), ToCome(pc1, s.sizes), ToCome(pc, s.sizes);
    forall u: nat, k: nat ensures c(u, k) <==> a(u, k) || b(u, k) {
      TodoOne(pc.rest, pc.cls, s.sizes, pc1.rest, pc1.cls, u, k);
    }
    SweptMore(s, s1, s2, t, (pc.curr + 1) % NR_EPOCHS, a, b, c);
  }

  lemma TodoOne(rest: seq<nat>, cls: nat, sizes: nat, rest1: seq<nat>, cls1: nat, u: nat, c: nat)
    requires rest != [] && if cls >= sizes then rest1 == rest[1..] && cls1 == 0 else rest1 == rest && cls1 == cls + 1
    ensures Todo(rest, cls, sizes, u, c) <==> (u == rest[0] && c == cls && c < sizes) || Todo(rest1, cls1, sizes, u, c)
  {
    if rest1 == rest[1..] && rest1 != [] { assert rest[1..] == [rest1[0]] + rest1[1..]; }
  }

  lemma {:induction false} Sweeps(s: State, t: nat) returns (n: nat)
    requires t in s.threads && s.threads[t].pc.Move? && s.threads[t].pc.cls <= s.sizes
    requires forall u :: u in s.threads[t].pc.rest ==> u in s.threads
    ensures n <= MovesLeft(s.sizes, s.threads[t].pc.rest, s.threads[t].pc.cls)
    ensures var s' := Turns(s, t, n);
      && SweptTodo(s, s', t, s.threads[t].pc) && t in s'.threads && s'.threads[t].pc == Advance(s.threads[t].pc.curr)
    decreases |s.threads[t].pc.rest|, s.sizes - s.threads[t].pc.cls
  {
    hide Next, SweptTodo, MovesLeft, Turns;
    MoveKeepsOn(s, t);
    if s.threads[t].pc.rest == [] {
      OneLeft(s.sizes, s.threads[t].pc.cls);
      NothingTodo(s, t);
      OneTurn(s, t);
      n := 1;
    } else {
      n := Sweeps(Next(s, t, Call), t);
      SweepsFrom(s, t, n);
      n := n + 1;
    }
  }

  lemma SweepsFrom(s: State, t: nat, n: nat)
    requires t in s.threads && s.threads[t].pc.Move? && s.threads[t].pc.rest != [] && s.threads[t].pc.rest[0] in s.threads
    requires KeepsOn(s, Next(s, t, Call), t)
    requires var s1 := Next(s, t, Call); SweptTodo(s1, Turns(s1, t, n), t, s1.threads[t].pc)
    ensures Turns(s, t, n + 1) == Turns(Next(s, t, Call), t, n)
    ensures SweptTodo(s, Turns(s, t, n + 1), t, s.threads[t].pc)
  {
    hide Next, SweptTodo, MovesLeft, Turns;
    OneTurn(s, t);
    TurnsAdd(s, t, 1, n);
    TodoSplit(s, Next(s, t, Call), Turns(Next(s, t, Call), t, n), t);
  }

  lemma OneLeft(sizes: nat, cls: nat)
    ensures MovesLeft(sizes, [], cls) == 1
  {
  }

  lemma NothingTodo(s: State, t: nat)
    requires t in s.threads && s.threads[t].pc.Move? && s.threads[t].pc.rest == []
    ensures SweptTodo(s, Next(s, t, Call), t, s.threads[t].pc)
  {
  }

  // A turn of the moves goes on, with less to do, or ends them.
  predicate KeepsOn(s: State, s': State, t: nat)
    requires t in s.threads && s.threads[t].pc.Move?
  {
    var pc := s.threads[t].pc;
    && t in s'.threads && s'.sizes == s.sizes
    && var pc' := s'.threads[t].pc;
       if pc.rest == [] then pc' == Advance(pc.curr)
       else
         && pc'.Move? && pc'.curr == pc.curr && pc'.cls <= s.sizes
         && (|pc'.rest| < |pc.rest| || (|pc'.rest| == |pc.rest| && pc'.cls > pc.cls))
         && MovesLeft(s.sizes, pc'.rest, pc'.cls) + 1 <= MovesLeft(s.sizes, pc.rest, pc.cls)
         && forall u :: u in pc'.rest ==> u in s'.threads
  }

  lemma MoveKeepsOn(s: State, t: nat)
    requires t in s.threads && s.threads[t].pc.Move? && s.threads[t].pc.cls <= s.sizes
    requires forall u :: u in s.threads[t].pc.rest ==> u in s.threads
    ensures KeepsOn(s, Next(s, t, Call), t)
  {
    var pc := s.threads[t].pc;
    if pc.rest != [] {
      assert |pc.rest| * (s.sizes + 1) == (|pc.rest| - 1) * (s.sizes + 1) + (s.sizes + 1);
    }
  }

  // ---------- gc_reclaim ----------

  // A completed attempt: the epoch advances, of the oldest garbage of every listed thread and every block
  // size the newest chunk is left, and nothing else changes.
  ghost predicate Reclaimed(s: State, s': State, t: nat)
  {
    && s' == s.(threads := s'.threads, alloc := s'.alloc, now := s'.now, current := (s.current + 1) % NR_EPOCHS, epochs := s.epochs + 1)
    && s'.threads.Keys == s.threads.Keys
    && s.alloc <= s'.alloc
    && forall u :: u in s.threads ==>
         SweptOne(s, s', t, (s.current + 1) % NR_EPOCHS, Listed(s.list, s.sizes), u)
  }

  function ReclaimBound(s: State): int {
    2 * |s.list| + |s.list| * (s.sizes + 1) + 8
  }

  // gc_reclaim, run alone: an attempt that finds the lock free and every listed thread outside or up to
  // date is completed, any other changes nothing.
  lemma ReclaimAlone(s: State, t: nat) returns (n: nat)
    requires t in s.threads && s.threads[t].pc.LockTest? && forall u :: u in s.list ==> u in s.threads
    ensures n <= ReclaimBound(s)
    ensures var s' := Turns(s, t, n);
      && t in s'.threads && s'.threads[t].pc.Enter?
      && if !s.inreclaim && AllFresh(s, s.list) then Reclaimed(s, s', t) else s' == Moved(s, t, Enter, s'.now)
  {
    hide Next, Reclaimed, AllFresh, Moved;
    var n0, now := 1, s.now + 1;
    if s.inreclaim {
      LockHeld(s, t);
    } else {
      var k, now1 := Locks(s, t);
      var l := s.(inreclaim := true);
      var m, now2 := Checks(l, t, s.current, s.list, s.list, now1);
      TurnsAdd(s, t, k, m);
      SameFresh(s, l, s.list);
      if AllFresh(s, s.list) {
        n0 := Completes(s, t, now2);
      } else {
        GivesUp(s, t, now2);
        now := now2 + 1;
      }
      TurnsAdd(s, t, k + m, n0);
      n0 := k + m + n0;
    }
    n := n0;
    MovedThere(s, t, now);
  }

  lemma MovedThere(s: State, t: nat, now: nat)
    requires t in s.threads
    ensures Moved(s, t, Enter, now).now == now && t in Moved(s, t, Enter, now).threads && Moved(s, t, Enter, now).threads[t].pc.Enter?
  {
  }

  lemma LockHeld(s: State, t: nat)
    requires t in s.threads && s.threads[t].pc.LockTest? && s.inreclaim
    ensures Turns(s, t, 1) == Moved(s, t, Enter, s.now + 1)
  {
    OneTurn(s, t);
  }

  // An attempt that gives up releases the lock.
  lemma GivesUp(s: State, t: nat, now: nat)
    requires t in s.threads && !s.inreclaim
    ensures Turns(Moved(s.(inreclaim := true), t, Unlock, now), t, 1) == Moved(s, t, Enter, now + 1)
  {
    var l := s.(inreclaim := true);
    OneTurn(Moved(l, t, Unlock, now), t);
    Again(l, t, Unlock, now, Enter, now + 1);
  }

  // An attempt that finds everybody up to date moves the garbage and advances.
  lemma Completes(s: State, t: nat, now: nat) returns (n: nat)
    requires t in s.threads && !s.inreclaim && forall u :: u in s.list ==> u in s.threads
    ensures n <= |s.list| * (s.sizes + 1) + 3
    ensures var s' := Turns(Moved(s.(inreclaim := true), t, Move(s.current, s.list, 0), now), t, n);
      && Reclaimed(s, s', t) && t in s'.threads && s'.threads[t].pc.Enter?
  {
    hide *;
    var s2 := Moved(s.(inreclaim := true), t, Move(s.current, s.list, 0), now);
    Standing(s, t, now);
    var k := Sweeps(s2, t);
    TurnsAdd(s2, t, k, 2);
    Closes(s, s2, Turns(s2, t, k), t, now);
    n := k + 2;
  }

  lemma Standing(s: State, t: nat, now: nat)
    requires t in s.threads
    ensures var s2 := Moved(s.(inreclaim := true), t, Move(s.current, s.list, 0), now);
      s2.threads.Keys == s.threads.Keys && s2.threads[t].pc == Move(s.current, s.list, 0) && s2.sizes == s.sizes
    ensures MovesLeft(s.sizes, s.list, 0) <= |s.list| * (s.sizes + 1) + 1
  {
  }

  lemma Closes(s: State, s2: State, s3: State, t: nat, now: nat)
    requires t in s.threads && !s.inreclaim
    requires s2 == Moved(s.(inreclaim := true), t, Move(s.current, s.list, 0), now)
    requires SweptTodo(s2, s3, t, Move(s.current, s.list, 0)) && t in s3.threads && s3.threads[t].pc == Advance(s.current)
    ensures var s4 := Turns(s3, t, 2); Reclaimed(s, s4, t) && t in s4.threads && s4.threads[t].pc.Enter?
  {
    Finishes(s3, t);
    hide Reclaimed, SweptTodo, Turns;
    Completed(s, s2, s3, Turns(s3, t, 2), t, now);
  }

  lemma Completed(s: State, s2: State, s3: State, s4: State, t: nat, now: nat)
    requires t in s.threads && !s.inreclaim
    requires s2 == Moved(s.(inreclaim := true), t, Move(s.current, s.list, 0), now)
    requires SweptTodo(s2, s3, t, Move(s.current, s.list, 0)) && t in s3.threads
    requires s4 == Moved(s3, t, Enter, s3.now + 2).(inreclaim := false, current := (s.current + 1) % NR_EPOCHS, epochs := s3.epochs + 1)
    ensures Reclaimed(s, s4, t)
  {
    var slot := (s.current + 1) % NR_EPOCHS;
    forall u | u in s.threads ensures SweptOne(s, s4, t, slot, Listed(s.list, s.sizes), u) {
      assert SweptOne(s2, s3, t, slot, ToCome(Move(s.current, s.list, 0), s2.sizes), u);
      forall c: nat ensures Todo(s.list, 0, s.sizes, u, c) <==> u in s.list && c < s.sizes { TodoAll(s.list, s.sizes, u, c); }
      forall sl: nat, c: nat ensures s4.threads[u].Garbage(sl, c) == s3.threads[u].Garbage(sl, c) {}
    }
  }

  lemma TodoAll(list: seq<nat>, sizes: nat, u: nat, c: nat)
    ensures Todo(list, 0, sizes, u, c) <==> u in list && c < sizes
  {
    if list != [] { assert list == [list[0]] + list[1..]; }
  }

  lemma SameFresh(s: State, l: State, us: seq<nat>)
    requires l.threads == s.threads && l.current == s.current
    ensures AllFresh(l, us) <==> AllFresh(s, us)
  {
    assert forall u :: Fresh(l, u) == Fresh(s, u);
  }

  // From the test of the lock to the first check.
  lemma Locks(s: State, t: nat) returns (n: nat, now: nat)
    requires t in s.threads && s.threads[t].pc.LockTest? && !s.inreclaim
    ensures n == 4
    ensures Turns(s, t, n) == Moved(s.(inreclaim := true), t, NextCheck(s.current, s.list, s.list), now)
  {
    n, now := 4, s.now + 4;
    var l := s.(inreclaim := true);
    var s1, s2, s3 := Moved(s, t, LockCas, s.now + 1), Moved(l, t, First, s.now + 2), Moved(l, t, ReadCurrent(s.list), s.now + 3);
    assert Next(s, t, Call) == s1;
    Again(s, t, LockCas, s.now + 1, First, s.now + 2);
    assert Next(s1, t, Call) == s2;
    Again(l, t, First, s.now + 2, ReadCurrent(s.list), s.now + 3);
    assert Next(s2, t, Call) == s3;
    Again(l, t, ReadCurrent(s.list), s.now + 3, NextCheck(s.current, s.list, s.list), s.now + 4);
    TwoTurns(s, t);
    TwoTurns(s2, t);
    TurnsAdd(s, t, 2, 2);
  }

  lemma Finishes(s: State, t: nat)
    requires t in s.threads && s.threads[t].pc.Advance?
    ensures Turns(s, t, 2) == Moved(s, t, Enter, s.now + 2)
      .(inreclaim := false, current := (s.threads[t].pc.curr + 1) % NR_EPOCHS, epochs := s.epochs + 1)
  {
    TwoTurns(s, t);
    Again(s, t, Unlock, s.now + 1, Enter, s.now + 2);
  }

  // ---------- gc_enter ----------

  // gc_enter has to attempt to reclaim first.
  predicate Attempts(s: State, t: nat)
    requires t in s.threads
  {
    s.threads[t].epoch == s.current && s.threads[t].entries == ENTRIES_PER_ATTEMPT
  }

  function Rested(s: State, t: nat): State
    requires t in s.threads
  {
    s.(threads := s.threads[t := s.threads[t].(entries := 0)])
  }

  // Thread t has just entered, having seen the epoch of r.
  function Inside(r: State, t: nat, now: nat): State
    requires t in r.threads && now > 0
  {
    var th := r.threads[t];
    r.(threads := r.threads[t := th.(count := 2, epoch := r.current, pc := In, trueEpoch := r.epochs, entered := now - 1,
                                     entries := if th.epoch != r.current then 0 else th.entries + 1)],
       now := now)
  }

  function Record(s: State, t: nat, th: Thread, now: nat): State {
    s.(threads := s.threads[t := th], now := now)
  }

  lemma RecordAgain(s: State, t: nat, a: Thread, now: nat, b: Thread)
    ensures SetThread(Record(s, t, a, now), t, b) == Record(s, t, b, now + 1)
  {
    assert s.threads[t := a][t := b] == s.threads[t := b];
  }

  // The first two steps raise the counter and read the epoch.
  lemma Counts(s: State, t: nat)
    requires t in s.threads && s.threads[t].pc.Enter? && s.threads[t].count == 1
    ensures Turns(s, t, 2) == Record(s, t, s.threads[t].(count := 2, pc := Settle(s.current, s.epochs)), s.now + 2)
  {
    var th := s.threads[t];
    RecordAgain(s, t, th.(count := 2, pc := ReadEpoch), s.now + 1, th.(count := 2, pc := Settle(s.current, s.epochs)));
    TwoTurns(s, t);
  }

  lemma Settles(s: State, t: nat)
    requires t in s.threads && s.threads[t].pc.Enter? && s.threads[t].count == 1 && !Attempts(s, t)
    ensures Turns(s, t, 3) == Inside(s, t, s.now + 3)
  {
    var th := s.threads[t].(count := 2, pc := Settle(s.current, s.epochs));
    var s2 := Record(s, t, th, s.now + 2);
    Counts(s, t);
    TurnsAdd(s, t, 2, 1);
    OneTurn(s2, t);
    hide Turns;
    RecordAgain(s, t, th, s.now + 2, Next(s2, t, Call).threads[t]);
  }

  lemma BacksOut(s: State, t: nat)
    requires t in s.threads && s.threads[t].pc.Enter? && s.threads[t].count == 1 && Attempts(s, t)
    ensures Turns(s, t, 4) == Moved(Rested(s, t), t, LockTest, s.now + 4)
  {
    var th := s.threads[t].(count := 2, pc := Settle(s.current, s.epochs));
    Counts(s, t);
    TurnsAdd(s, t, 2, 2);
    TwoTurns(Record(s, t, th, s.now + 2), t);
    hide Turns;
    RecordAgain(s, t, th, s.now + 2, th.(entries := th.entries + 1, pc := BackOut));
    RecordAgain(s, t, th.(entries := th.entries + 1, pc := BackOut), s.now + 3, th.(count := 1, entries := 0, pc := LockTest));
    RestedThere(s, t, th.(count := 1, entries := 0, pc := LockTest), s.now + 4);
  }

  lemma RestedThere(s: State, t: nat, th: Thread, now: nat)
    requires t in s.threads && th == s.threads[t].(entries := 0, pc := LockTest)
    ensures Record(s, t, th, now) == Moved(Rested(s, t), t, LockTest, now)
  {
    assert s.threads[t := s.threads[t].(entries := 0)][t := th] == s.threads[t := th];
  }

  // The outermost gc_enter, run alone, comes back inside a critical section with the epoch it finds.  It
  // advances the epoch exactly at the hundred-and-first entry in an epoch, if the lock is free and every
  // listed thread is outside its critical sections or up to date, and else changes only its own record.
  lemma EnterAlone(s: State, t: nat) returns (n: nat, r: State)
    requires t in s.threads && s.threads[t].pc.Enter? && s.threads[t].count == 1
    requires s.current < NR_EPOCHS && forall u :: u in s.list ==> u in s.threads
    ensures n <= ReclaimBound(s) + 7
    ensures t in r.threads && Turns(s, t, n) == Inside(r, t, r.now + 3)
    ensures var s0 := if Attempts(s, t) then Rested(s, t) else s;
      if Attempts(s, t) && !s.inreclaim && AllFresh(s, s.list) then Reclaimed(s0, r, t) else r == Moved(s0, t, Enter, r.now)
  {
    if Attempts(s, t) {
      BacksOut(s, t);
      FreshBack(s, t, s.now + 4);
      n, r := AfterBackOut(s, Moved(Rested(s, t), t, LockTest, s.now + 4), t);
      TurnsAdd(s, t, 4, n);
      n := 4 + n;
    } else {
      Settles(s, t);
      n, r := 3, s;
      assert s.threads[t := s.threads[t].(pc := Enter)] == s.threads;
    }
  }

  lemma AfterBackOut(s: State, s1: State, t: nat) returns (n: nat, r: State)
    requires t in s.threads && s.threads[t].count == 1 && Attempts(s, t) && s1 == Moved(Rested(s, t), t, LockTest, s.now + 4)
    requires s.current < NR_EPOCHS && forall u :: u in s.list ==> u in s.threads
    ensures n <= ReclaimBound(s) + 3
    ensures t in r.threads && Turns(s1, t, n) == Inside(r, t, r.now + 3)
    ensures if !s.inreclaim && AllFresh(s1, s.list) then Reclaimed(Rested(s, t), r, t) else r == Moved(Rested(s, t), t, Enter, r.now)
  {
    n := ReclaimAlone(s1, t);
    hide Turns, Reclaimed, AllFresh;
    r := Turns(s1, t, n);
    BackAgain(s, r, t, s.now + 4);
    Settles(r, t);
    TurnsAdd(s1, t, n, 3);
    n := n + 3;
  }

  lemma FreshBack(s: State, t: nat, now: nat)
    requires t in s.threads
    ensures AllFresh(Moved(Rested(s, t), t, LockTest, now), s.list) <==> AllFresh(s, s.list)
  {
    assert forall u :: Fresh(Moved(Rested(s, t), t, LockTest, now), u) == Fresh(s, u);
  }

  // After an attempt the entry does not attempt again.
  lemma BackAgain(s: State, r: State, t: nat, now: nat)
    requires t in s.threads && s.current < NR_EPOCHS && t in r.threads && r.threads[t].pc.Enter? && s.threads[t].count == 1
    requires Attempts(s, t)
    requires var s1 := Moved(Rested(s, t), t, LockTest, now); Reclaimed(s1, r, t) || r == Moved(s1, t, Enter, r.now)
    ensures r.threads[t].count == 1 && !Attempts(r, t)
    ensures var s1 := Moved(Rested(s, t), t, LockTest, now);
      && (Reclaimed(s1, r, t) ==> Reclaimed(Rested(s, t), r, t))
      && (r == Moved(s1, t, Enter, r.now) ==> r == Moved(Rested(s, t), t, Enter, r.now))
  {
    var s0, s1 := Rested(s, t), Moved(Rested(s, t), t, LockTest, now);
    Again(s0, t, LockTest, now, Enter, r.now);
    if Reclaimed(s1, r, t) {
      forall u | u in s0.threads ensures SweptOne(s0, r, t, (s.current + 1) % NR_EPOCHS, Listed(s.list, s.sizes), u) {
        assert SweptOne(s1, r, t, (s.current + 1) % NR_EPOCHS, Listed(s.list, s.sizes), u);
        forall sl: nat, c: nat ensures s1.threads[u].Garbage(sl, c) == s0.threads[u].Garbage(sl, c) {}
      }
    }
  }

  // ---------- runs ----------

  // Counters fit where the threads stand, and the listed threads exist, whatever entries a run holds.
  ghost predicate Shape(s: State) {
    && s.current < NR_EPOCHS
    && (forall u :: u in s.list ==> u in s.threads)
    && (forall u :: u in s.threads ==> CountOk(s.threads[u]))
  }

  lemma ShapeStep(s: State, t: nat, a: Action)
    requires Shape(s)
    ensures Shape(Next(s, t, a))
  {
    if t in s.threads && s.threads[t].pc.Move? {
      MoveShape(s, t, a);
    } else if t in s.threads {
      var pc := s.threads[t].pc;
      if pc.Register? || pc.Enter? || pc.ReadEpoch? || pc.Settle? || pc.BackOut? { EntryShape(s, t, a); }
      else if pc.In? || pc.Out? { InShape(s, t, a); }
      else { WalkShape(s, t, a); }
    }
  }

  // Only t's record changes, and it is as it should be.
  ghost predicate Own(s: State, t: nat, s': State) {
    && t in s'.threads && s'.threads == s.threads[t := s'.threads[t]] && CountOk(s'.threads[t])
    && (forall u :: u in s'.list ==> u in s.list || u == t) && s'.current < NR_EPOCHS
  }

  lemma OwnShape(s: State, t: nat, s': State)
    requires Shape(s) && Own(s, t, s')
    ensures Shape(s')
  {
  }

  lemma MoveShape(s: State, t: nat, a: Action)
    requires Shape(s) && t in s.threads && s.threads[t].pc.Move?
    ensures Shape(Next(s, t, a))
  {
    var s' := Next(s, t, a);
    forall u | u in s'.threads ensures CountOk(s'.threads[u]) { assert CountOk(s.threads[u]); }
  }

  lemma EntryShape(s: State, t: nat, a: Action)
    requires Shape(s) && t in s.threads
    requires var pc := s.threads[t].pc; pc.Register? || pc.Enter? || pc.ReadEpoch? || pc.Settle? || pc.BackOut?
    ensures Shape(Next(s, t, a))
  {
    assert CountOk(s.threads[t]);
    assert Own(s, t, Next(s, t, a));
    hide Next, Own;
    OwnShape(s, t, Next(s, t, a));
  }

  lemma InShape(s: State, t: nat, a: Action)
    requires Shape(s) && t in s.threads && (s.threads[t].pc.In? || s.threads[t].pc.Out?)
    ensures Shape(Next(s, t, a))
  {
    assert CountOk(s.threads[t]);
    assert Own(s, t, Next(s, t, a));
    hide Next, Own;
    OwnShape(s, t, Next(s, t, a));
  }

  lemma WalkShape(s: State, t: nat, a: Action)
    requires Shape(s) && t in s.threads
    requires var pc := s.threads[t].pc; Reclaiming(pc) || pc.LockTest? || pc.LockCas?
    requires !s.threads[t].pc.Move?
    ensures Shape(Next(s, t, a))
  {
    assert CountOk(s.threads[t]);
    assert Own(s, t, Next(s, t, a));
    hide Next, Own;
    OwnShape(s, t, Next(s, t, a));
  }

  lemma {:induction false} RunShape(r: Run, i: nat)
    requires r.Valid() && i < |r.states|
    ensures Shape(r.states[i])
  {
    hide Next, Shape;
    if i == 0 {
      StartShape(r.states[0]);
    } else {
      RunShape(r, i - 1);
      ShapeStep(r.states[i - 1], r.who[i - 1], r.actions[i - 1]);
    }
  }

  lemma StartShape(s: State)
    requires Init(s)
    ensures Shape(s)
  {
  }

  // So in every state of every run a thread that is about to enter gets in when the others stand still.
  lemma EnterReturns(r: Run, i: nat, t: nat) returns (n: nat, m: State)
    requires r.Valid() && i < |r.states| && t in r.states[i].threads && r.states[i].threads[t].pc.Enter?
    ensures n <= ReclaimBound(r.states[i]) + 7
    ensures t in m.threads && Turns(r.states[i], t, n) == Inside(m, t, m.now + 3)
    ensures var s := r.states[i];
      var s0 := if Attempts(s, t) then Rested(s, t) else s;
      if Attempts(s, t) && !s.inreclaim && AllFresh(s, s.list) then Reclaimed(s0, m, t) else m == Moved(s0, t, Enter, m.now)
  {
    RunShape(r, i);
    n, m := EnterAlone(r.states[i], t);
  }
}
