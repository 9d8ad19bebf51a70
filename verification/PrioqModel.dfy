// The lock-free priority queue of lib/linden/prioq.c as a step machine: one
// shared-memory access (read, write, compare-and-swap or fetch-and-or) a step,
// any number of threads, all 32 levels.  Node identifiers stand for addresses
// and are never reused while the run lasts; the epoch collector justifies that.
// Memory is sequentially consistent.

module PrioqModel {
  import opened PrioqParams
  import opened AtomicQueue

  // The two sentinel nodes that pq_init allocates.
  const HEAD := 0
  const TAIL := 1

  datatype Option<T> = None | Some(value: T)

  // A next pointer: an address with the delete mark in its lowest bit.
  datatype Link = Null | Link(node: nat, marked: bool) {
    predicate Marked() { Link? && marked }
  }

  // node_t.  The pointer array has `level` slots, null until they are written.
  datatype Node = Node(key: nat, val: nat, level: nat, inserting: bool, next: seq<Link>)

  // freed records the calls of free_node in order.
  datatype Memory = Memory(nodes: map<nat, Node>, freed: seq<nat>) {

    predicate CanRead(n: nat, i: nat) { n in nodes && i < |nodes[n].next| }

    // The pointer at level i of node n; null where there is none.
    function Next(n: nat, i: nat): Link {
      if CanRead(n, i) then nodes[n].next[i] else Null
    }

    function Key(n: nat): nat { if n in nodes then nodes[n].key else 0 }

    function Val(n: nat): nat { if n in nodes then nodes[n].val else 0 }

    predicate Inserting(n: nat) { n in nodes && nodes[n].inserting }

    function Write(n: nat, i: nat, l: Link): Memory
      requires CanRead(n, i)
    {
      this.(nodes := nodes[n := nodes[n].(next := nodes[n].next[i := l])])
    }

    function ClearInserting(n: nat): Memory
      requires n in nodes
    {
      this.(nodes := nodes[n := nodes[n].(inserting := false)])
    }
  }

  // Locals of insert: its arguments, the new node, and what locate_preds filled in.
  datatype Ins = Ins(k: nat, v: nat, new_: nat, del: Option<nat>,
                     preds: map<nat, nat>, succs: map<nat, nat>)

  // Locals of deletemin.
  datatype Del = Del(x: nat, obs: Link, newhead: Option<nat>, offset: nat)

  // A thread's program counter with the locals live there; the numbers are lines
  // of prioq.c.  In Locate*, `up` is 0 during the retry loop and the level being
  // linked afterwards.
  datatype Local =
    | Outside                                                               // between operations
    | InsAlloc(k: nat, v: nat)                                              // 174-176
    | LocateRead(a: Ins, up: nat, x: nat, i: nat)                           // 130, 142
    | LocateTest(a: Ins, up: nat, x: nat, i: nat, xn: nat, mk: bool)        // 135
    | DupMark(a: Ins)                                                       // 184, second conjunct
    | DupSame(a: Ins)                                                       // 184, third conjunct
    | DupClear(a: Ins)                                                      // 185
    | DupFree(a: Ins)                                                       // 186
    | Prepare(a: Ins)                                                       // 189
    | LinkCas(a: Ins)                                                       // 193
    | UpNew(a: Ins, i: nat)                                                 // 208
    | UpSucc(a: Ins, i: nat)                                                // 209-210
    | UpPrepare(a: Ins, i: nat)                                             // 214
    | UpCas(a: Ins, i: nat)                                                 // 215
    | Finish(a: Ins)                                                        // 231
    | InsDone                                                               // 235
    | DelObserve                                                            // 310-311
    | DelRead(d: Del)                                                       // 314-323
    | DelFlag(d: Del, link: Link)                                           // 328-331
    | DelMark(d: Del)                                                       // 334-346
    | DelHeadTest(d: Del, v: nat)                                           // 353
    | DelSwing(d: Del, v: nat)                                              // 357
    | ReHead(d: Del, v: nat, i: nat, pred: nat)                             // 267
    | RePred(d: Del, v: nat, i: nat, pred: nat, h: nat)                     // 269
    | ReTest(d: Del, v: nat, i: nat, pred: nat, h: nat, cur: nat)           // 270
    | ReSkip(d: Del, v: nat, i: nat, pred: nat, h: nat, cur: nat)           // 277
    | ReNext(d: Del, v: nat, i: nat, pred: nat, h: nat)                     // 279
    | ReCas(d: Del, v: nat, i: nat, pred: nat, h: nat, cur: nat)            // 281-285
    | FreeRead(d: Del, v: nat, cur: nat)                                    // 368-370
    | FreeNode(d: Del, v: nat, cur: nat, nxt: nat)                          // 371-372
    | DelDone(v: nat)                                                       // 376-377

  // Fault: a null or foreign pointer was followed, or an assertion failed.
  datatype Outcome = Fault | Next(m: Memory, l: Local)

  // ---------- insert ----------

  // alloc_node with the address and the level it drew, and the two stores after it.
  function DoAlloc(m: Memory, k: nat, v: nat, id: nat, level: nat): Outcome {
    if id in m.nodes || !(1 <= level <= NUM_LEVELS) then Fault
    else
      var n := Node(k, v, level, true, seq(level, j => Null));
      Next(m.(nodes := m.nodes[id := n]),
           LocateRead(Ins(k, v, id, None, map[], map[]), 0, HEAD, NUM_LEVELS - 1))
  }

  function StartLocate(a: Ins, up: nat): Local {
    LocateRead(a.(del := None), up, HEAD, NUM_LEVELS - 1)
  }

  function DoLocateRead(m: Memory, a: Ins, up: nat, x: nat, i: nat): Outcome {
    if !m.CanRead(x, i) || m.Next(x, i).Null? then Fault
    else Next(m, LocateTest(a, up, x, i, m.Next(x, i).node, m.Next(x, i).marked))
  }

  // Where insert goes when locate_preds returns.
  function AfterLocate(m: Memory, a: Ins, up: nat): Local
    requires 0 in a.succs
  {
    if up == 0 then
      if m.Key(a.succs[0]) == a.k then DupMark(a) else Prepare(a)
    else if a.succs[0] != a.new_ then Finish(a)
    else UpNew(a, up)
  }

  function DoLocateTest(m: Memory, a: Ins, up: nat, x: nat, i: nat, xn: nat, mk: bool): Outcome {
    if !m.CanRead(xn, 0) then Fault
    else if m.Key(xn) < a.k || m.Next(xn, 0).Marked() || (i == 0 && mk) then
      var a' := if i == 0 && mk then a.(del := Some(xn)) else a;
      Next(m, LocateRead(a', up, xn, i))
    else
      var a' := a.(preds := a.preds[i := x], succs := a.succs[i := xn]);
      Next(m, if i == 0 then AfterLocate(m, a', up) else LocateRead(a', up, x, i - 1))
  }

  function DoDupMark(m: Memory, a: Ins): Outcome {
    if 0 !in a.preds || !m.CanRead(a.preds[0], 0) then Fault
    else Next(m, if m.Next(a.preds[0], 0).Marked() then Prepare(a) else DupSame(a))
  }

  function DoDupSame(m: Memory, a: Ins): Outcome {
    if 0 !in a.preds || 0 !in a.succs || !m.CanRead(a.preds[0], 0) then Fault
    else Next(m, if m.Next(a.preds[0], 0) == Link(a.succs[0], false) then DupClear(a) else Prepare(a))
  }

  function DoDupClear(m: Memory, a: Ins): Outcome {
    if a.new_ !in m.nodes then Fault else Next(m.ClearInserting(a.new_), DupFree(a))
  }

  function DoDupFree(m: Memory, a: Ins): Outcome {
    Next(m.(freed := m.freed + [a.new_]), InsDone)
  }

  function DoPrepare(m: Memory, a: Ins): Outcome {
    if 0 !in a.succs || !m.CanRead(a.new_, 0) then Fault
    else Next(m.Write(a.new_, 0, Link(a.succs[0], false)), LinkCas(a))
  }

  // The head of the loop over the upper levels, line 202.
  function UpLoop(m: Memory, a: Ins, i: nat): Local {
    if a.new_ in m.nodes && i < m.nodes[a.new_].level then UpNew(a, i) else Finish(a)
  }

  function DoLinkCas(m: Memory, a: Ins): Outcome {
    if 0 !in a.preds || 0 !in a.succs || !m.CanRead(a.preds[0], 0) then Fault
    else if m.Next(a.preds[0], 0) == Link(a.succs[0], false) then
      Next(m.Write(a.preds[0], 0, Link(a.new_, false)), UpLoop(m, a, 1))
    else Next(m, StartLocate(a, 0))
  }

  function DoUpNew(m: Memory, a: Ins, i: nat): Outcome {
    if !m.CanRead(a.new_, 0) then Fault
    else Next(m, if m.Next(a.new_, 0).Marked() then Finish(a) else UpSucc(a, i))
  }

  function DoUpSucc(m: Memory, a: Ins, i: nat): Outcome {
    if i !in a.succs || !m.CanRead(a.succs[i], 0) then Fault
    else Next(m, if m.Next(a.succs[i], 0).Marked() || a.del == Some(a.succs[i]) then Finish(a) else UpPrepare(a, i))
  }

  function DoUpPrepare(m: Memory, a: Ins, i: nat): Outcome {
    if i !in a.succs || !m.CanRead(a.new_, i) then Fault
    else Next(m.Write(a.new_, i, Link(a.succs[i], false)), UpCas(a, i))
  }

  function DoUpCas(m: Memory, a: Ins, i: nat): Outcome {
    if i !in a.preds || i !in a.succs || !m.CanRead(a.preds[i], i) then Fault
    else if m.Next(a.preds[i], i) == Link(a.succs[i], false) then
      Next(m.Write(a.preds[i], i, Link(a.new_, false)), UpLoop(m, a, i + 1))
    else Next(m, StartLocate(a, i))
  }

  function DoFinish(m: Memory, a: Ins): Outcome {
    if a.new_ !in m.nodes then Fault else Next(m.ClearInserting(a.new_), InsDone)
  }

  // ---------- deletemin ----------

  function DoDelObserve(m: Memory): Outcome {
    if !m.CanRead(HEAD, 0) then Fault
    else Next(m, DelRead(Del(HEAD, m.Next(HEAD, 0), None, 0)))
  }

  function DoDelRead(m: Memory, d: Del): Outcome {
    if !m.CanRead(d.x, 0) || m.Next(d.x, 0).Null? then Fault
    else
      var d' := d.(offset := d.offset + 1);
      var nxt := m.Next(d.x, 0);
      Next(m, if nxt.node == TAIL then DelDone(0) else DelFlag(d', nxt))
  }

  function DoDelFlag(m: Memory, d: Del, nxt: Link): Outcome {
    if d.x !in m.nodes || nxt.Null? then Fault
    else
      var d' := if d.newhead == None && m.Inserting(d.x) then d.(newhead := Some(d.x)) else d;
      Next(m, if nxt.marked then DelRead(d'.(x := nxt.node)) else DelMark(d'))
  }

  // Fetch-and-or, the read of x->v, and the local tests of lines 346 and 350.
  function DoDelMark(m: Memory, d: Del, maxOffset: int): Outcome {
    if !m.CanRead(d.x, 0) || m.Next(d.x, 0).Null? then Fault
    else
      var old_ := m.Next(d.x, 0);
      var m' := m.Write(d.x, 0, Link(old_.node, true));
      var d' := d.(x := old_.node);
      if old_.marked then Next(m', DelRead(d'))
      else if d'.x !in m.nodes then Fault
      else
        var d'' := if d'.newhead == None then d'.(newhead := Some(d'.x)) else d';
        var v := m.Val(d'.x);
        Next(m', if d.offset <= maxOffset then DelDone(v) else DelHeadTest(d'', v))
  }

  function DoDelHeadTest(m: Memory, d: Del, v: nat): Outcome {
    if !m.CanRead(HEAD, 0) then Fault
    else Next(m, if m.Next(HEAD, 0) != d.obs then DelDone(v) else DelSwing(d, v))
  }

  function DoDelSwing(m: Memory, d: Del, v: nat): Outcome {
    if !m.CanRead(HEAD, 0) || d.newhead == None then Fault
    else if m.Next(HEAD, 0) == d.obs then
      Next(m.Write(HEAD, 0, Link(d.newhead.value, true)), ReHead(d, v, NUM_LEVELS - 1, HEAD))
    else Next(m, DelDone(v))
  }

  // ---------- restructure ----------

  // The loop head of restructure, line 266; afterwards the reclamation loop starts.
  function ReNextLevel(d: Del, v: nat, i: nat, pred: nat): Local
    requires i > 0 && d.obs.Link?
  {
    if i - 1 > 0 then ReHead(d, v, i - 1, pred) else FreeRead(d, v, d.obs.node)
  }

  function DoReHead(m: Memory, d: Del, v: nat, i: nat, pred: nat): Outcome {
    if !m.CanRead(HEAD, i) || m.Next(HEAD, i).Null? || m.Next(HEAD, i).marked then Fault
    else Next(m, RePred(d, v, i, pred, m.Next(HEAD, i).node))
  }

  function DoRePred(m: Memory, d: Del, v: nat, i: nat, pred: nat, h: nat): Outcome {
    if !m.CanRead(pred, i) || m.Next(pred, i).Null? || m.Next(pred, i).marked then Fault
    else Next(m, ReTest(d, v, i, pred, h, m.Next(pred, i).node))
  }

  function DoReTest(m: Memory, d: Del, v: nat, i: nat, pred: nat, h: nat, cur: nat): Outcome {
    if !m.CanRead(h, 0) || i == 0 || d.obs.Null? then Fault
    else Next(m, if m.Next(h, 0).Marked() then ReSkip(d, v, i, pred, h, cur) else ReNextLevel(d, v, i, pred))
  }

  function DoReSkip(m: Memory, d: Del, v: nat, i: nat, pred: nat, h: nat, cur: nat): Outcome {
    if !m.CanRead(cur, 0) then Fault
    else Next(m, if m.Next(cur, 0).Marked() then ReNext(d, v, i, cur, h) else ReCas(d, v, i, pred, h, cur))
  }

  function DoReNext(m: Memory, d: Del, v: nat, i: nat, pred: nat, h: nat): Outcome {
    if !m.CanRead(pred, i) || m.Next(pred, i).Null? || m.Next(pred, i).marked then Fault
    else Next(m, ReSkip(d, v, i, pred, h, m.Next(pred, i).node))
  }

  // The assertion of line 281 is evaluated together with the swap after it.
  function DoReCas(m: Memory, d: Del, v: nat, i: nat, pred: nat, h: nat, cur: nat): Outcome {
    if !m.CanRead(pred, 0) || !m.Next(pred, 0).Marked() then Fault
    else if !m.CanRead(HEAD, i) || i == 0 || d.obs.Null? then Fault
    else if m.Next(HEAD, i) == Link(h, false) then
      Next(m.Write(HEAD, i, Link(cur, false)), ReNextLevel(d, v, i, pred))
    else Next(m, ReHead(d, v, i, pred))
  }

  // ---------- reclamation ----------

  // Lines 369 and 370 read the same pointer; it is marked, so it no longer changes.
  function DoFreeRead(m: Memory, d: Del, v: nat, cur: nat): Outcome {
    if d.newhead == Some(cur) then Next(m, DelDone(v))
    else if !m.CanRead(cur, 0) || !m.Next(cur, 0).Marked() then Fault
    else Next(m, FreeNode(d, v, cur, m.Next(cur, 0).node))
  }

  function DoFreeNode(m: Memory, d: Del, v: nat, cur: nat, nxt: nat): Outcome {
    Next(m.(freed := m.freed + [cur]), FreeRead(d, v, nxt))
  }

  // ---------- the machine ----------

  // What the environment decides: which operation is called next, which unused
  // address alloc_node gets, and which level its generator draws.
  datatype Choice = Choice(op: Op, id: nat, level: nat)

  predicate ChoiceOk(m: Memory, c: Choice) {
    && c.id !in m.nodes
    && 1 <= c.level <= NUM_LEVELS
    && (c.op.Insert? ==> KEYMIN < c.op.k < KEYS)
  }

  function Start(op: Op): Local {
    match op
    case Insert(k, v) => InsAlloc(k, v)
    case DeleteMin => DelObserve
  }

  // One step of a thread at l.
  function Exec(m: Memory, l: Local, maxOffset: int, c: Choice): Outcome {
    match l
    case Outside => Next(m, Start(c.op))
    case InsAlloc(k, v) => DoAlloc(m, k, v, c.id, c.level)
    case LocateRead(a, up, x, i) => DoLocateRead(m, a, up, x, i)
    case LocateTest(a, up, x, i, xn, mk) => DoLocateTest(m, a, up, x, i, xn, mk)
    case DupMark(a) => DoDupMark(m, a)
    case DupSame(a) => DoDupSame(m, a)
    case DupClear(a) => DoDupClear(m, a)
    case DupFree(a) => DoDupFree(m, a)
    case Prepare(a) => DoPrepare(m, a)
    case LinkCas(a) => DoLinkCas(m, a)
    case UpNew(a, i) => DoUpNew(m, a, i)
    case UpSucc(a, i) => DoUpSucc(m, a, i)
    case UpPrepare(a, i) => DoUpPrepare(m, a, i)
    case UpCas(a, i) => DoUpCas(m, a, i)
    case Finish(a) => DoFinish(m, a)
    case InsDone => Next(m, Outside)
    case DelObserve => DoDelObserve(m)
    case DelRead(d) => DoDelRead(m, d)
    case DelFlag(d, link) => DoDelFlag(m, d, link)
    case DelMark(d) => DoDelMark(m, d, maxOffset)
    case DelHeadTest(d, v) => DoDelHeadTest(m, d, v)
    case DelSwing(d, v) => DoDelSwing(m, d, v)
    case ReHead(d, v, i, pred) => DoReHead(m, d, v, i, pred)
    case RePred(d, v, i, pred, h) => DoRePred(m, d, v, i, pred, h)
    case ReTest(d, v, i, pred, h, cur) => DoReTest(m, d, v, i, pred, h, cur)
    case ReSkip(d, v, i, pred, h, cur) => DoReSkip(m, d, v, i, pred, h, cur)
    case ReNext(d, v, i, pred, h) => DoReNext(m, d, v, i, pred, h)
    case ReCas(d, v, i, pred, h, cur) => DoReCas(m, d, v, i, pred, h, cur)
    case FreeRead(d, v, cur) => DoFreeRead(m, d, v, cur)
    case FreeNode(d, v, cur, nxt) => DoFreeNode(m, d, v, cur, nxt)
    case DelDone(v) => Next(m, Outside)
  }

  // What a caller sees of that step.
  function EventOf(l: Local, c: Choice): Event {
    match l
    case Outside => Call(c.op)
    case InsDone => Return(Void)
    case DelDone(v) => Return(Val(v))
    case _ => Internal
  }

  datatype Machine = Machine(mem: Memory, threads: map<nat, Local>, maxOffset: int)

  ghost predicate Init(s: Machine) {
    && s.mem.freed == []
    && s.mem.nodes == map[HEAD := Node(KEYMIN, 0, NUM_LEVELS, false, seq(NUM_LEVELS, j => Link(TAIL, false))),
                          TAIL := Node(KEYMAX, 0, NUM_LEVELS, false, seq(NUM_LEVELS, j => Null))]
    && forall t :: t in s.threads ==> s.threads[t] == Outside
  }

  ghost predicate Step(s: Machine, t: nat, c: Choice, s': Machine) {
    && t in s.threads
    && ChoiceOk(s.mem, c)
    && var o := Exec(s.mem, s.threads[t], s.maxOffset, c);
       o.Next? && s' == Machine(o.m, s.threads[t := o.l], s.maxOffset)
  }
}
