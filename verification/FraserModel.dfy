// The lock-free skip list of lib/spraylist/fraser.c and the two delete-min operations that
// lib/spraylist/pqueue.c runs on it, as a step machine: one read, write, compare-and-swap
// or fetch-and-increment of shared memory a step, any number of threads.
//
// The bottom level is exact.  The upper levels only decide where a traversal enters the
// bottom level, so a traversal may enter it at any node that was linked there before.
// Nodes are never given back while the run lasts, as in fraser.c.

module FraserModel {
  import opened AtomicSet

  // Addresses.  The sentinels are those of sl_set_new.
  const NULL := 0
  const HEAD := 1
  const TAIL := 2
  const VAL_MAX := 0x7FFF_FFFF
  const VAL_MIN := 0x8000_0000  // INT_MIN as val_t; the head's value is never compared

  // A pointer with its mark bit; (NULL, false) is the null pointer.
  datatype Link = Link(to: nat, marked: bool)

  datatype Node = Node(val: nat, next: Link, deleted: nat)

  // `linked` is a history variable: the nodes that a compare-and-swap has put on the bottom
  // level so far, and the sentinels.
  datatype Memory = Memory(nodes: map<nat, Node>, linked: set<nat>) {

    function Val(n: nat): nat { if n in nodes then nodes[n].val else 0 }

    function Next(n: nat): Link { if n in nodes then nodes[n].next else Link(NULL, false) }

    function Deleted(n: nat): nat { if n in nodes then nodes[n].deleted else 0 }

    function SetNext(n: nat, l: Link): Memory
      requires n in nodes
    {
      this.(nodes := nodes[n := nodes[n].(next := l)])
    }

    function Bump(n: nat): Memory
      requires n in nodes
    {
      this.(nodes := nodes[n := nodes[n].(deleted := nodes[n].deleted + 1)])
    }
  }

  // What fraser_search runs for.
  datatype Job =
    | Add(v: nat, new_: nat)       // fraser_insert and its new node
    | Take(op: Op)                 // fraser_remove and fraser_find
    | Sweep(v: nat, reply: Reply)  // the search that unlinks a claimed node

  // What follows mark_node_ptrs.
  datatype After = Again(job: Job) | Sweeping(reply: Reply) | Perhaps(reply: Reply) | Leave(reply: Reply)

  // Program counters with the locals live there; the numbers are lines of fraser.c, and of
  // pqueue.c from NaiveNext on.
  datatype Local =
    | Outside
    | InsAlloc(v: nat)                                        // 173
    | Arrive(job: Job)                                        // 53-54
    | ReadLeft(job: Job, left: nat)                           // 56
    | ReadRight(job: Job, left: nat, leftNext: nat, right: nat)  // 65
    | Snip(job: Job, left: nat, leftNext: nat, right: nat)    // 76-78
    | AddFlag(job: Job, succ: nat)                            // 184
    | AddStore(job: Job, pred: nat, succ: nat)                // 196
    | AddLink(job: Job, pred: nat, succ: nat)                 // 203
    | FindFlag(op: Op, node: nat)                             // 95
    | TakeEnd(op: Op, node: nat)                              // 130
    | TakeFlag(op: Op, node: nat)                             // 139
    | TakeClaim(op: Op, node: nat)                            // 146
    | MarkRead(node: nat, after: After)                       // 110
    | MarkCas(node: nat, seen: nat, after: After)             // 115
    | NaiveNext(first: nat)                                   // 58
    | NaiveEnd(first: nat)                                    // 59, first operand
    | NaiveFlag(first: nat)                                   // 59, second operand
    | NaiveClaim(first: nat)                                  // 60
    | NaiveTail(first: nat)                                   // 67
    | SprayArrive                                             // 106-134
    | SprayStop(cur: nat)                                     // 127, 136
    | SprayFlag(cur: nat)                                     // 139, first operand
    | SprayMore(cur: nat)                                     // 139, second operand
    | SprayNext(cur: nat)                                     // 140
    | SprayLast(cur: nat)                                     // 143
    | SprayTest(cur: nat)                                     // 151
    | SprayClaim(cur: nat)                                    // 153
    | Leaving(reply: Reply)
    | Crashed                                                 // a null pointer was followed

  datatype Outcome = Fault | Next(m: Memory, l: Local)

  // What a step may draw: the operation to start, an address, a coin.
  datatype Choice = Choice(op: Op, node: nat, coin: bool)

  // ---------- fraser_search ----------

  function Target(job: Job): nat {
    match job
    case Add(v, _) => v
    case Take(op) => if op.Remove? || op.RemoveSucc? || op.Contains? then op.v else 0
    case Sweep(v, _) => v
  }

  function DoReadLeft(m: Memory, job: Job, left: nat): Outcome {
    if left !in m.nodes then Fault
    else if m.Next(left).marked then Next(m, Arrive(job))
    else Next(m, ReadRight(job, left, m.Next(left).to, m.Next(left).to))
  }

  function DoReadRight(m: Memory, job: Job, left: nat, leftNext: nat, right: nat): Outcome {
    if right !in m.nodes then Fault
    else
      var rightNext := m.Next(right);
      if rightNext.marked then Next(m, ReadRight(job, left, leftNext, rightNext.to))
      else if m.Val(right) >= Target(job) then Next(m, Snip(job, left, leftNext, right))
      else Next(m, ReadRight(job, right, rightNext.to, rightNext.to))
  }

  function DoSnip(m: Memory, job: Job, left: nat, leftNext: nat, right: nat): Outcome {
    if leftNext == right then Found(m, job, left, right)
    else if left !in m.nodes then Fault
    else if m.Next(left) != Link(leftNext, false) then Next(m, Arrive(job))
    else Found(m.SetNext(left, Link(right, false)), job, left, right)
  }

  // The caller's next access; the value of a node never changes, so comparing it is not a step.
  function Found(m: Memory, job: Job, left: nat, right: nat): Outcome {
    match job
    case Add(v, _) => Next(m, if m.Val(right) == v then AddFlag(job, right) else AddStore(job, left, right))
    case Take(op) =>
      if op.RemoveSucc? then Next(m, TakeEnd(op, right))
      else if m.Val(right) != Target(job) then Next(m, Leaving(Missed))
      else Next(m, if op.Contains? then FindFlag(op, right) else TakeFlag(op, right))
    case Sweep(_, reply) => Next(m, Leaving(reply))
  }

  // ---------- fraser_insert ----------

  function DoAlloc(m: Memory, v: nat, new_: nat): Outcome {
    if new_ == NULL || new_ in m.nodes then Fault
    else Next(m.(nodes := m.nodes[new_ := Node(v, Link(NULL, false), 0)]), Arrive(Add(v, new_)))
  }

  function DoAddFlag(m: Memory, job: Job, succ: nat): Outcome {
    if succ !in m.nodes then Fault
    else if m.Deleted(succ) != 0 then Next(m, MarkRead(succ, Again(job)))
    else Next(m, Leaving(Refused))
  }

  function DoAddStore(m: Memory, job: Job, pred: nat, succ: nat): Outcome {
    if !job.Add? || job.new_ !in m.nodes then Fault
    else Next(m.SetNext(job.new_, Link(succ, false)), AddLink(job, pred, succ))
  }

  function DoAddLink(m: Memory, job: Job, pred: nat, succ: nat): Outcome {
    if !job.Add? || pred !in m.nodes then Fault
    else if m.Next(pred) != Link(succ, false) then Next(m, Arrive(job))
    else Next(m.SetNext(pred, Link(job.new_, false)).(linked := m.linked + {job.new_}), Leaving(Added))
  }

  // ---------- fraser_find and fraser_remove ----------

  function DoFindFlag(m: Memory, node: nat): Outcome {
    if node !in m.nodes then Fault
    else Next(m, Leaving(if m.Deleted(node) == 0 then Present else Missed))
  }

  function DoTakeEnd(m: Memory, op: Op, node: nat): Outcome {
    if node !in m.nodes then Fault
    else if m.Next(node) == Link(NULL, false) then Next(m, Leaving(Missed))
    else Next(m, TakeFlag(op, node))
  }

  function DoTakeFlag(m: Memory, op: Op, node: nat): Outcome {
    if node !in m.nodes then Fault
    else if m.Deleted(node) != 0 then Next(m, Leaving(Missed))
    else Next(m, TakeClaim(op, node))
  }

  function DoTakeClaim(m: Memory, op: Op, node: nat): Outcome {
    if node !in m.nodes then Fault
    else if m.Deleted(node) == 0 then Next(m.Bump(node), MarkRead(node, Sweeping(Removed(m.Val(node)))))
    else Next(m.Bump(node), Leaving(Missed))
  }

  // ---------- mark_node_ptrs, bottom level ----------

  function DoMarkRead(m: Memory, node: nat, after: After, coin: bool): Outcome {
    if node !in m.nodes then Fault
    else if m.Next(node).marked then Next(m, Continue(m, node, after, coin))
    else Next(m, MarkCas(node, m.Next(node).to, after))
  }

  function DoMarkCas(m: Memory, node: nat, seen: nat, after: After, coin: bool): Outcome {
    if node !in m.nodes then Fault
    else if m.Next(node) != Link(seen, false) then Next(m, MarkRead(node, after))
    else Next(m.SetNext(node, Link(seen, true)), Continue(m, node, after, coin))
  }

  // The test of pqueue.c line 81 follows a marked pointer without clearing the mark, so what
  // it reads is not modelled: the coin stands for it.
  function Continue(m: Memory, node: nat, after: After, coin: bool): Local {
    match after
    case Again(job) => Arrive(job)
    case Sweeping(reply) => Arrive(Sweep(m.Val(node), reply))
    case Perhaps(reply) => if coin then Arrive(Sweep(m.Val(node), reply)) else Leaving(reply)
    case Leave(reply) => Leaving(reply)
  }

  // ---------- naive_delete_min ----------

  function DoNaiveNext(m: Memory, first: nat): Outcome {
    if first !in m.nodes then Fault else Next(m, NaiveEnd(m.Next(first).to))
  }

  function DoNaiveEnd(m: Memory, first: nat): Outcome {
    if first !in m.nodes then Fault
    else if m.Next(first) == Link(NULL, false) then Next(m, NaiveClaim(first))
    else Next(m, NaiveFlag(first))
  }

  function DoNaiveFlag(m: Memory, first: nat): Outcome {
    if first !in m.nodes then Fault
    else if m.Deleted(first) != 0 then Next(m, NaiveNext(first))
    else Next(m, NaiveClaim(first))
  }

  function DoNaiveClaim(m: Memory, first: nat): Outcome {
    if first !in m.nodes then Fault
    else if m.Deleted(first) != 0 then Next(m.Bump(first), NaiveNext(first))
    else Next(m.Bump(first), NaiveTail(first))
  }

  function DoNaiveTail(m: Memory, first: nat): Outcome {
    if first !in m.nodes then Fault
    else if m.Next(first) == Link(NULL, false) then Next(m, Leaving(Unset))
    else Next(m, MarkRead(first, Perhaps(Removed(m.Val(first)))))
  }

  // ---------- spray_delete_min ----------

  function DoSprayStop(m: Memory, cur: nat): Outcome {
    if cur !in m.nodes then Fault
    else if m.Next(cur) == Link(NULL, false) || cur == HEAD then Next(m, Leaving(Missed))
    else Next(m, SprayFlag(cur))
  }

  function DoSprayFlag(m: Memory, cur: nat): Outcome {
    if cur !in m.nodes then Fault
    else Next(m, if m.Deleted(cur) != 0 then SprayMore(cur) else SprayLast(cur))
  }

  function DoSprayMore(m: Memory, cur: nat): Outcome {
    if cur !in m.nodes then Fault
    else Next(m, if m.Next(cur) == Link(NULL, false) then SprayLast(cur) else SprayNext(cur))
  }

  function DoSprayNext(m: Memory, cur: nat): Outcome {
    if cur !in m.nodes then Fault else Next(m, SprayFlag(m.Next(cur).to))
  }

  function DoSprayLast(m: Memory, cur: nat): Outcome {
    if cur !in m.nodes then Fault
    else Next(m, if m.Next(cur) == Link(NULL, false) then Leaving(Missed) else SprayTest(cur))
  }

  function DoSprayTest(m: Memory, cur: nat): Outcome {
    if cur !in m.nodes then Fault
    else Next(m, if m.Deleted(cur) == 0 then SprayClaim(cur) else Leaving(Missed))
  }

  function DoSprayClaim(m: Memory, cur: nat): Outcome {
    if cur !in m.nodes then Fault
    else if m.Deleted(cur) != 0 then Next(m.Bump(cur), Leaving(Missed))
    else Next(m.Bump(cur), MarkRead(cur, Leave(Removed(m.Val(cur)))))
  }

  // ---------- the machine ----------

  function Begin(op: Op): Local {
    match op
    case Insert(v) => InsAlloc(v)
    case Remove(_) => Arrive(Take(op))
    case RemoveSucc(_) => Arrive(Take(op))
    case Contains(_) => Arrive(Take(op))
    case DeleteMin => NaiveNext(HEAD)
    case Spray => SprayArrive
  }

  function Exec(m: Memory, l: Local, c: Choice): Outcome {
    match l
    case Outside => Next(m, Begin(c.op))
    case InsAlloc(v) => DoAlloc(m, v, c.node)
    case Arrive(job) => Next(m, ReadLeft(job, c.node))
    case ReadLeft(job, left) => DoReadLeft(m, job, left)
    case ReadRight(job, left, leftNext, right) => DoReadRight(m, job, left, leftNext, right)
    case Snip(job, left, leftNext, right) => DoSnip(m, job, left, leftNext, right)
    case AddFlag(job, succ) => DoAddFlag(m, job, succ)
    case AddStore(job, pred, succ) => DoAddStore(m, job, pred, succ)
    case AddLink(job, pred, succ) => DoAddLink(m, job, pred, succ)
    case FindFlag(_, node) => DoFindFlag(m, node)
    case TakeEnd(op, node) => DoTakeEnd(m, op, node)
    case TakeFlag(op, node) => DoTakeFlag(m, op, node)
    case TakeClaim(op, node) => DoTakeClaim(m, op, node)
    case MarkRead(node, after) => DoMarkRead(m, node, after, c.coin)
    case MarkCas(node, seen, after) => DoMarkCas(m, node, seen, after, c.coin)
    case NaiveNext(first) => DoNaiveNext(m, first)
    case NaiveEnd(first) => DoNaiveEnd(m, first)
    case NaiveFlag(first) => DoNaiveFlag(m, first)
    case NaiveClaim(first) => DoNaiveClaim(m, first)
    case NaiveTail(first) => DoNaiveTail(m, first)
    case SprayArrive => Next(m, SprayStop(c.node))
    case SprayStop(cur) => DoSprayStop(m, cur)
    case SprayFlag(cur) => DoSprayFlag(m, cur)
    case SprayMore(cur) => DoSprayMore(m, cur)
    case SprayNext(cur) => DoSprayNext(m, cur)
    case SprayLast(cur) => DoSprayLast(m, cur)
    case SprayTest(cur) => DoSprayTest(m, cur)
    case SprayClaim(cur) => DoSprayClaim(m, cur)
    case Leaving(_) => Next(m, Outside)
    case Crashed => Next(m, Crashed)
  }

  // Values are below VAL_MAX; a new node gets an unused address; a traversal enters the
  // bottom level at the head or a node with a smaller value that was linked there.
  predicate ChoiceOk(m: Memory, l: Local, c: Choice) {
    match l
    case Outside => c.op.DeleteMin? || c.op.Spray? || c.op.v < VAL_MAX
    case InsAlloc(_) => c.node != NULL && c.node !in m.nodes
    case Arrive(job) => c.node in m.linked && (c.node == HEAD || m.Val(c.node) < Target(job))
    case SprayArrive => c.node in m.linked
    case _ => true
  }

  function EventOf(l: Local, c: Choice): Event {
    match l
    case Outside => Call(c.op)
    case Leaving(reply) => Return(reply)
    case _ => Internal
  }

  datatype Machine = Machine(mem: Memory, threads: map<nat, Local>)

  // sl_set_new
  predicate Init(s: Machine) {
    && s.mem.nodes == map[HEAD := Node(VAL_MIN, Link(TAIL, false), 0), TAIL := Node(VAL_MAX, Link(NULL, false), 0)]
    && s.mem.linked == {HEAD, TAIL}
    && forall t :: t in s.threads ==> s.threads[t] == Outside
  }

  // Thread t makes one step; following a null pointer ends it.
  predicate Step(s: Machine, t: nat, c: Choice, s': Machine) {
    && t in s.threads
    && ChoiceOk(s.mem, s.threads[t], c)
    && match Exec(s.mem, s.threads[t], c)
       case Fault => s' == s.(threads := s.threads[t := Crashed])
       case Next(m, l) => s' == Machine(m, s.threads[t := l])
  }
}
