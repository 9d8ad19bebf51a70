// The epoch collector of lib/linden/gc (gc.c, ptst.c) as a step machine: one access
// to shared data a step, any number of threads registering, entering and leaving
// critical sections, retiring blocks and attempting to reclaim.

module EpochModel {
  import opened GcParams

  const ENTRIES_PER_ATTEMPT := 100

  // A retired block with two marks the code does not read: when it was passed to
  // gc_free, and in which epoch the retiring thread then was, counted without wrapping.
  datatype Retired = Retired(block: nat, at: nat, tag: nat)

  // Program counters; the numbers are lines of gc.c, or of ptst.c where marked.
  datatype Pc =
    | Register(seen: seq<nat>)                           // ptst.c 70-72
    | Enter                                              // 534
    | ReadEpoch                                          // 538
    | Settle(ne: nat, seenEpoch: nat)                    // 539-547
    | BackOut                                            // 549
    | LockTest                                           // 345, first operand
    | LockCas                                            // 345, second operand
    | First                                              // 351
    | ReadCurrent(first: seq<nat>)                       // 353
    | CheckCount(curr: nat, first: seq<nat>, rest: seq<nat>)   // 358, first conjunct
    | CheckEpoch(curr: nat, first: seq<nat>, rest: seq<nat>)   // 358, second conjunct
    | Move(curr: nat, rest: seq<nat>, cls: nat)          // 369-382
    | Advance(curr: nat)                                 // 401
    | Unlock                                             // 404
    | Out
    | In

  // ptst_t with its gc_t: count is 1 outside critical sections; epoch is the wrapped
  // epoch the thread last saw.  trueEpoch and entered are marks the code does not read.
  datatype Thread = Thread(pc: Pc, count: nat, epoch: nat, entries: nat,
                           garbage: map<(nat, nat), seq<Retired>>,
                           trueEpoch: nat, entered: nat)
  {
    // The garbage list of one epoch slot and block size, oldest block first.
    function Garbage(slot: nat, cls: nat): seq<Retired> {
      if (slot, cls) in garbage then garbage[(slot, cls)] else []
    }
  }

  // list is ptst_list, newest thread first.  alloc holds every block that was ever moved
  // to an allocation list.  epochs counts the advances of current; now counts steps.
  datatype State = State(current: nat, inreclaim: bool, list: seq<nat>, threads: map<nat, Thread>,
                         alloc: seq<Retired>, sizes: nat, epochs: nat, now: nat)

  // What a thread does of its own accord.
  datatype Action = Call | Exit | Retire(block: nat, cls: nat)

  function NewThread(seen: seq<nat>): Thread {
    Thread(Register(seen), 1, 0, 0, map[], 0, 0)
  }

  // All chunks but the newest, which may not be full yet: the newest of n blocks in
  // chunks of 100 holds between 1 and 100 of them.
  function Movable(n: nat): nat {
    if n == 0 then 0 else (n - 1) / BLKS_PER_CHUNK * BLKS_PER_CHUNK
  }

  function SetThread(s: State, t: nat, th: Thread): State {
    s.(threads := s.threads[t := th], now := s.now + 1)
  }

  function Goto(s: State, t: nat, pc: Pc): State
    requires t in s.threads
  {
    SetThread(s, t, s.threads[t].(pc := pc))
  }

  function DoRegister(s: State, t: nat, seen: seq<nat>): State
    requires t in s.threads
  {
    if s.list == seen then Goto(s, t, Enter).(list := [t] + s.list)
    else Goto(s, t, Register(s.list))
  }

  // Nested calls only count.
  function DoEnter(s: State, t: nat): State
    requires t in s.threads
  {
    var th := s.threads[t];
    SetThread(s, t, th.(count := th.count + 1, pc := if th.count == 1 then ReadEpoch else In))
  }

  function DoSettle(s: State, t: nat, ne: nat, seenEpoch: nat): State
    requires t in s.threads
  {
    var th := s.threads[t];
    if th.epoch != ne then
      SetThread(s, t, th.(epoch := ne, entries := 0, pc := In, trueEpoch := seenEpoch, entered := s.now))
    else if th.entries == ENTRIES_PER_ATTEMPT then
      SetThread(s, t, th.(entries := th.entries + 1, pc := BackOut))
    else
      SetThread(s, t, th.(entries := th.entries + 1, pc := In, trueEpoch := seenEpoch, entered := s.now))
  }

  function DoBackOut(s: State, t: nat): State
    requires t in s.threads
  {
    var th := s.threads[t];
    SetThread(s, t, th.(count := if th.count > 0 then th.count - 1 else 0, entries := 0, pc := LockTest))
  }

  function DoExit(s: State, t: nat): State
    requires t in s.threads
  {
    var th := s.threads[t];
    var c := if th.count > 0 then th.count - 1 else 0;
    SetThread(s, t, th.(count := c, pc := if c > 1 then In else Out))
  }

  function DoRetire(s: State, t: nat, block: nat, cls: nat): State
    requires t in s.threads
  {
    var th := s.threads[t];
    var b := Retired(block, s.now, th.trueEpoch);
    SetThread(s, t, th.(garbage := th.garbage[(th.epoch, cls) := th.Garbage(th.epoch, cls) + [b]]))
  }

  function DoLockCas(s: State, t: nat): State
    requires t in s.threads
  {
    if s.inreclaim then Goto(s, t, Enter) else Goto(s, t, First).(inreclaim := true)
  }

  // The walk over the snapshot of the thread list ends at its last element.
  function NextCheck(curr: nat, first: seq<nat>, rest: seq<nat>): Pc {
    if rest == [] then Move(curr, first, 0) else CheckCount(curr, first, rest)
  }

  function DoCheckCount(s: State, t: nat, curr: nat, first: seq<nat>, rest: seq<nat>): State
    requires t in s.threads
  {
    if rest == [] || rest[0] !in s.threads then Goto(s, t, Unlock)
    else if s.threads[rest[0]].count > 1 then Goto(s, t, CheckEpoch(curr, first, rest))
    else Goto(s, t, NextCheck(curr, first, rest[1..]))
  }

  function DoCheckEpoch(s: State, t: nat, curr: nat, first: seq<nat>, rest: seq<nat>): State
    requires t in s.threads
  {
    if rest == [] || rest[0] !in s.threads || s.threads[rest[0]].epoch != curr then Goto(s, t, Unlock)
    else Goto(s, t, NextCheck(curr, first, rest[1..]))
  }

  // One garbage list of thread rest[0]: every chunk but the newest goes to the allocation list.
  function DoMove(s: State, t: nat, curr: nat, rest: seq<nat>, cls: nat): State
    requires t in s.threads
  {
    if rest == [] || rest[0] !in s.threads then Goto(s, t, Advance(curr))
    else if cls >= s.sizes then Goto(s, t, Move(curr, rest[1..], 0))
    else
      var u := rest[0];
      var slot := (curr + 1) % NR_EPOCHS;
      var gar := s.threads[u].Garbage(slot, cls);
      var n := Movable(|gar|);
      var s1 := s.(threads := s.threads[u := s.threads[u].(garbage := s.threads[u].garbage[(slot, cls) := gar[n..]])],
                   alloc := s.alloc + gar[..n]);
      Goto(s1, t, Move(curr, rest, cls + 1))
  }

  function DoAdvance(s: State, t: nat, curr: nat): State
    requires t in s.threads
  {
    Goto(s, t, Unlock).(current := (curr + 1) % NR_EPOCHS, epochs := s.epochs + 1)
  }

  // One step of a registered thread; a is what it wants to do next when it has the choice.
  function Exec(s: State, t: nat, a: Action): State
    requires t in s.threads
  {
    match s.threads[t].pc
    case Register(seen) => DoRegister(s, t, seen)
    case Enter => DoEnter(s, t)
    case ReadEpoch => Goto(s, t, Settle(s.current, s.epochs))
    case Settle(ne, seenEpoch) => DoSettle(s, t, ne, seenEpoch)
    case BackOut => DoBackOut(s, t)
    case LockTest => Goto(s, t, if s.inreclaim then Enter else LockCas)
    case LockCas => DoLockCas(s, t)
    case First => Goto(s, t, ReadCurrent(s.list))
    case ReadCurrent(first) => Goto(s, t, NextCheck(s.current, first, first))
    case CheckCount(curr, first, rest) => DoCheckCount(s, t, curr, first, rest)
    case CheckEpoch(curr, first, rest) => DoCheckEpoch(s, t, curr, first, rest)
    case Move(curr, rest, cls) => DoMove(s, t, curr, rest, cls)
    case Advance(curr) => DoAdvance(s, t, curr)
    case Unlock => Goto(s, t, Enter).(inreclaim := false)
    case Out => Goto(s, t, Enter)
    case In =>
      match a
      case Call => DoEnter(s, t)
      case Exit => DoExit(s, t)
      case Retire(block, cls) => DoRetire(s, t, block, cls)
  }

  // A thread not seen before allocates its record; any other makes its next step.
  function Next(s: State, t: nat, a: Action): State {
    if t in s.threads then Exec(s, t, a) else SetThread(s, t, NewThread(s.list))
  }

  // The steps of a schedule, one after the other.
  ghost function Play(s: State, sched: seq<(nat, Action)>): State {
    if sched == [] then s
    else Next(Play(s, sched[..|sched| - 1]), sched[|sched| - 1].0, sched[|sched| - 1].1)
  }

  ghost predicate Init(s: State) {
    && s.current == 0 && !s.inreclaim && s.list == [] && s.threads == map[] && s.alloc == []
    && s.epochs == 0 && s.now == 0
  }

  // A reclaimer has already checked thread t, or found it missing from its list.
  ghost predicate PassedOver(s: State, t: nat) {
    exists r :: r in s.threads && PastThread(s.threads[r].pc, t)
  }

  predicate PastThread(pc: Pc, t: nat) {
    match pc
    case ReadCurrent(first) => t !in first
    case CheckCount(_, _, rest) => t !in rest
    case CheckEpoch(_, _, rest) => t !in rest
    case Move(_, _, _) => true
    case Advance(_) => true
    case _ => false
  }

  // Thread t is about to finish gc_enter.
  predicate Finishing(s: State, t: nat) {
    && t in s.threads && s.threads[t].pc.Settle?
    && (s.threads[t].epoch != s.threads[t].pc.ne || s.threads[t].entries != ENTRIES_PER_ATTEMPT)
  }

  // The epoch read at line 538 is still current when gc_enter finishes; or it has advanced
  // just once since, and no reclaimer under way has already passed over t.  Always true
  // when lines 534 to 541 run without interruption.
  ghost predicate EntryOk(s: State, t: nat) {
    Finishing(s, t) ==>
      var seen := s.threads[t].pc.seenEpoch;
      seen == s.epochs || (seen + 1 == s.epochs && !PassedOver(s, t))
  }

  // t is inside a critical section that it entered before block b was retired, so it may
  // still hold a reference to b.
  predicate MayHold(s: State, t: nat, b: Retired) {
    t in s.threads && s.threads[t].pc.In? && s.threads[t].entered < b.at
  }
}
