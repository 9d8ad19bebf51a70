// The inductive invariant of the queue, stated against a history of the run, and
// the conditions each thread relies on at each program counter.

module PrioqInvariant {
  import opened PrioqParams
  import opened PrioqModel

  // What the run has done to level 0.  dead: the nodes deleted so far, in order;
  // pos: where a node stands in dead; live: the nodes linked and not deleted, in
  // list order.  The first |claim| dead nodes are no longer reachable from the head;
  // claim[j] is the thread that still has to pass dead[j] to free_node, if any.
  datatype History = History(dead: seq<nat>, live: seq<nat>, pos: map<nat, nat>, claim: seq<Option<nat>>) {

    ghost predicate Linked(n: nat) { n in pos || n in live }

    ghost function LiveAt(j: nat): nat { if j < |live| then live[j] else TAIL }

    ghost function DeadLink(j: nat): Link {
      if j + 1 < |dead| then Link(dead[j + 1], true) else Link(LiveAt(0), false)
    }

    ghost function HeadLink(): Link {
      if |claim| < |dead| then Link(dead[|claim|], true) else Link(LiveAt(0), false)
    }
  }

  // ---------- shared state ----------

  ghost predicate PositionsOk(g: History) {
    && (forall j :: 0 <= j < |g.dead| ==> g.dead[j] in g.pos && g.pos[g.dead[j]] == j)
    && (forall n :: n in g.pos ==> g.pos[n] < |g.dead| && g.dead[g.pos[n]] == n)
    && (forall n :: n in g.pos ==> n !in g.live)
  }

  ghost predicate AllocatedOk(m: Memory, n: nat) {
    && n in m.nodes
    && n != HEAD && n != TAIL
    && 1 <= m.nodes[n].level <= NUM_LEVELS
    && |m.nodes[n].next| == m.nodes[n].level
  }

  ghost predicate NodeOk(m: Memory, n: nat) {
    AllocatedOk(m, n) && KEYMIN < m.nodes[n].key < KEYMAX
  }

  ghost predicate SentinelsOk(m: Memory) {
    && HEAD in m.nodes && TAIL in m.nodes
    && |m.nodes[HEAD].next| == NUM_LEVELS
    && |m.nodes[TAIL].next| == NUM_LEVELS
    && m.nodes[TAIL].key == KEYMAX
    && !m.nodes[HEAD].inserting
    && (forall j :: 0 <= j < NUM_LEVELS ==> m.Next(HEAD, j).Link?)
    && (forall j :: 0 <= j < NUM_LEVELS ==> m.Next(TAIL, j) == Null)
  }

  ghost predicate NodesOk(m: Memory, g: History) {
    forall n :: g.Linked(n) ==> NodeOk(m, n)
  }

  ghost predicate Sorted(m: Memory, live: seq<nat>) {
    forall i, j :: 0 <= i < j < |live| ==> m.Key(live[i]) < m.Key(live[j])
  }

  // Level 0: the mark on a pointer says that the node it leads to is deleted, so the
  // marked pointers are exactly those leading from one dead node, or the head, to the next.
  ghost predicate ChainOk(m: Memory, g: History) {
    && (forall j {:trigger m.Next(g.dead[j], 0)} :: 0 <= j < |g.dead| ==> m.Next(g.dead[j], 0) == g.DeadLink(j))
    && (forall j {:trigger m.Next(g.live[j], 0)} :: 0 <= j < |g.live| ==> m.Next(g.live[j], 0) == Link(g.LiveAt(j + 1), false))
    && m.Next(HEAD, 0) == g.HeadLink()
    && (|g.claim| < |g.dead| || |g.dead| == |g.claim| == 0)
  }

  // n can be traversed at level i.
  ghost predicate HasLevel(m: Memory, g: History, n: nat, i: nat) {
    n == TAIL || (g.Linked(n) && m.Next(n, i).Link?)
  }

  ghost predicate UpperOk(m: Memory, g: History, n: nat, i: nat) {
    (n == HEAD || g.Linked(n)) && m.Next(n, i).Link? && i > 0 ==>
      && !m.Next(n, i).marked
      && HasLevel(m, g, m.Next(n, i).node, i)
      && m.Next(n, i - 1).Link?
  }

  ghost predicate UppersOk(m: Memory, g: History) {
    forall n, i :: UpperOk(m, g, n, i)
  }

  // The head has never passed a node that was still being inserted.
  ghost predicate PassedOk(m: Memory, g: History) {
    |g.claim| <= |g.dead| && forall j :: 0 <= j < |g.claim| ==> !m.Inserting(g.dead[j])
  }

  // A node is freed at most once, and never while the head can reach it on level 0.
  ghost predicate FreedOk(m: Memory, g: History) {
    && (forall i, j :: 0 <= i < j < |m.freed| ==> m.freed[i] != m.freed[j])
    && (forall n :: n in m.freed ==>
          && n in m.nodes && n != HEAD && n != TAIL
          && n !in g.live
          && (n in g.pos ==> g.pos[n] < |g.claim| && g.claim[g.pos[n]] == None))
  }

  ghost predicate MemOk(m: Memory, g: History) {
    && SentinelsOk(m)
    && PositionsOk(g)
    && NodesOk(m, g)
    && Sorted(m, g.live)
    && ChainOk(m, g)
    && UppersOk(m, g)
    && PassedOk(m, g)
    && FreedOk(m, g)
  }

  // ---------- insert ----------

  // locate_preds stands at n when looking for k: k belongs behind n.
  ghost predicate Arrived(m: Memory, g: History, k: nat, n: nat) {
    n == HEAD || (g.Linked(n) && (m.Key(n) < k || n in g.pos || m.Next(n, 0).Marked()))
  }

  ghost predicate PredOk(m: Memory, g: History, k: nat, n: nat, i: nat) {
    Arrived(m, g, k, n) && m.Next(n, i).Link?
  }

  ghost predicate SuccOk(m: Memory, g: History, k: nat, n: nat, i: nat) {
    HasLevel(m, g, n, i) && m.Key(n) >= k
  }

  ghost predicate LocatedOk(m: Memory, g: History, a: Ins) {
    && KEYMIN < a.k < KEYS
    && (forall j :: j in a.preds ==> PredOk(m, g, a.k, a.preds[j], j))
    && (forall j :: j in a.succs ==> SuccOk(m, g, a.k, a.succs[j], j))
  }

  predicate FilledFrom(a: Ins, i: nat) {
    forall j :: i <= j < NUM_LEVELS ==> j in a.preds && j in a.succs
  }

  // The new node before it is linked: no other thread can reach it.
  ghost predicate PrivateOk(m: Memory, g: History, a: Ins) {
    && AllocatedOk(m, a.new_)
    && !g.Linked(a.new_)
    && a.new_ !in m.freed
    && m.nodes[a.new_].key == a.k
    && m.nodes[a.new_].val == a.v
    && (forall j :: m.Next(a.new_, j).Link? ==> j == 0 && !m.Next(a.new_, j).marked)
  }

  // The new node linked on the levels below i.
  ghost predicate PublishedOk(m: Memory, g: History, a: Ins, i: nat) {
    && g.Linked(a.new_) && a.k < KEYMAX
    && i > 0
    && m.Next(a.new_, i - 1).Link?
  }

  ghost predicate LevelLeft(m: Memory, a: Ins, i: nat) {
    a.new_ in m.nodes && i < m.nodes[a.new_].level
  }

  ghost predicate NewOk(m: Memory, g: History, a: Ins, up: nat) {
    if up == 0 then PrivateOk(m, g, a) else PublishedOk(m, g, a, up) && LevelLeft(m, a, up)
  }

  // The pointer that insert is about to swap leads elsewhere if the key was there.
  ghost predicate MovedOn(m: Memory, a: Ins) {
    && 0 in a.preds && 0 in a.succs
    && (m.Key(a.succs[0]) == a.k ==> m.Next(a.preds[0], 0) != Link(a.succs[0], false))
  }

  ghost predicate ReadyOk(m: Memory, g: History, a: Ins) {
    LocatedOk(m, g, a) && FilledFrom(a, 0)
  }

  // The search for a key above the sentinel has run off the end of the topmost level.
  predicate BehindTail(a: Ins, up: nat, x: nat, i: nat) {
    a.k > KEYMAX && up == 0 && x == TAIL && i == NUM_LEVELS - 1
  }

  ghost predicate InsertOk(m: Memory, g: History, l: Local) {
    match l
    case InsAlloc(k, v) => KEYMIN < k < KEYS
    case LocateRead(a, up, x, i) =>
      && NewOk(m, g, a, up) && LocatedOk(m, g, a) && FilledFrom(a, i + 1) && i < NUM_LEVELS
      && (PredOk(m, g, a.k, x, i) || BehindTail(a, up, x, i))
    case LocateTest(a, up, x, i, xn, mk) =>
      && NewOk(m, g, a, up) && LocatedOk(m, g, a) && FilledFrom(a, i + 1) && i < NUM_LEVELS && PredOk(m, g, a.k, x, i)
      && HasLevel(m, g, xn, i) && (i == 0 && mk ==> xn in g.pos)
    case DupMark(a) => PrivateOk(m, g, a) && ReadyOk(m, g, a) && m.Key(a.succs[0]) == a.k
    case DupSame(a) => PrivateOk(m, g, a) && ReadyOk(m, g, a) && m.Key(a.succs[0]) == a.k
    case DupClear(a) => PrivateOk(m, g, a) && a.k <= KEYMAX
    case DupFree(a) => PrivateOk(m, g, a) && a.k <= KEYMAX
    case Prepare(a) => PrivateOk(m, g, a) && ReadyOk(m, g, a) && MovedOn(m, a)
    case LinkCas(a) => PrivateOk(m, g, a) && ReadyOk(m, g, a) && MovedOn(m, a) && m.Next(a.new_, 0) == Link(a.succs[0], false)
    case UpNew(a, i) => NewOk(m, g, a, i) && i > 0 && ReadyOk(m, g, a)
    case UpSucc(a, i) => NewOk(m, g, a, i) && i > 0 && ReadyOk(m, g, a)
    case UpPrepare(a, i) => NewOk(m, g, a, i) && i > 0 && ReadyOk(m, g, a)
    case UpCas(a, i) => PublishedOk(m, g, a, i + 1) && i > 0 && LevelLeft(m, a, i) && ReadyOk(m, g, a)
    case Finish(a) => g.Linked(a.new_) && a.k < KEYMAX
    case _ => true
  }

  // The node a thread has allocated and nobody else can reach.
  function PrivateNode(l: Local): Option<nat> {
    match l
    case LocateRead(a, up, _, _) => if up == 0 then Some(a.new_) else None
    case LocateTest(a, up, _, _, _, _) => if up == 0 then Some(a.new_) else None
    case DupMark(a) => Some(a.new_)
    case DupSame(a) => Some(a.new_)
    case DupClear(a) => Some(a.new_)
    case DupFree(a) => Some(a.new_)
    case Prepare(a) => Some(a.new_)
    case LinkCas(a) => Some(a.new_)
    case _ => None
  }

  // ---------- deletemin ----------

  // The head pointer read at line 311 leads to a node the head has not moved behind.
  ghost predicate ObservedOk(g: History, obs: Link) {
    obs.Link? && (obs.marked ==> obs.node in g.pos && g.pos[obs.node] <= |g.claim|)
  }

  // Position b does not lie before the observed one.
  ghost predicate NotBefore(g: History, obs: Link, b: nat) {
    obs.Marked() && obs.node in g.pos ==> g.pos[obs.node] <= b
  }

  // As long as the head has not moved, no dead node from the observed one up to b is being inserted.
  ghost predicate Quiet(m: Memory, g: History, obs: Link, b: nat) {
    && NotBefore(g, obs, b)
    && (m.Next(HEAD, 0) == obs && obs.Marked() && obs.node in g.pos ==>
          b <= |g.dead| && forall j :: g.pos[obs.node] <= j < b ==> !m.Inserting(g.dead[j]))
  }

  ghost predicate TraverseOk(m: Memory, g: History, d: Del) {
    && ObservedOk(g, d.obs)
    && (d.x == HEAD || d.x in g.pos)
    && (d.x in g.pos ==> NotBefore(g, d.obs, g.pos[d.x]))
    && (match d.newhead
        case None => d.x in g.pos ==> Quiet(m, g, d.obs, g.pos[d.x])
        case Some(n) => n in g.pos && Quiet(m, g, d.obs, g.pos[n]))
  }

  ghost predicate NotAtTail(m: Memory, x: nat) {
    m.Next(x, 0).Link? && m.Next(x, 0).node != TAIL
  }

  // A marked pointer read from x leads one position on, or from the head to wherever it then led.
  ghost predicate ReadOk(g: History, d: Del, link: Link) {
    && link.Link? && link.node != TAIL
    && (link.marked ==>
          && link.node in g.pos
          && (d.x in g.pos ==> g.pos[link.node] == g.pos[d.x] + 1)
          && (d.x !in g.pos ==> g.pos[link.node] <= |g.claim| && NotBefore(g, d.obs, g.pos[link.node])))
  }

  ghost predicate WonOk(m: Memory, g: History, d: Del) {
    TraverseOk(m, g, d) && d.x in g.pos && d.newhead.Some?
  }

  // Restructure walks only over deleted nodes.
  ghost predicate PassedPred(m: Memory, g: History, n: nat, i: nat) {
    (n == HEAD || g.Linked(n)) && 0 < i < NUM_LEVELS && m.Next(n, i).Link? && m.Next(n, 0).Marked()
  }

  ghost predicate DeleteOk(m: Memory, g: History, l: Local) {
    match l
    case DelRead(d) => TraverseOk(m, g, d)
    case DelFlag(d, link) => TraverseOk(m, g, d) && NotAtTail(m, d.x) && ReadOk(g, d, link)
    case DelMark(d) =>
      && TraverseOk(m, g, d) && NotAtTail(m, d.x)
      && (d.newhead == None && d.x in g.pos ==> Quiet(m, g, d.obs, g.pos[d.x] + 1))
    case DelHeadTest(d, v) => WonOk(m, g, d)
    case DelSwing(d, v) => WonOk(m, g, d)
    case ReHead(d, v, i, pred) => PassedPred(m, g, pred, i)
    case RePred(d, v, i, pred, h) => PassedPred(m, g, pred, i) && HasLevel(m, g, h, i)
    case ReTest(d, v, i, pred, h, cur) => PassedPred(m, g, pred, i) && HasLevel(m, g, h, i) && HasLevel(m, g, cur, i)
    case ReSkip(d, v, i, pred, h, cur) => PassedPred(m, g, pred, i) && HasLevel(m, g, h, i) && HasLevel(m, g, cur, i)
    case ReNext(d, v, i, pred, h) => PassedPred(m, g, pred, i) && HasLevel(m, g, h, i)
    case ReCas(d, v, i, pred, h, cur) => PassedPred(m, g, pred, i) && HasLevel(m, g, cur, i)
    case FreeNode(d, v, cur, nxt) =>
      && d.newhead.Some? && d.newhead.value != cur && cur in g.pos && nxt in g.pos
      && g.pos[nxt] == g.pos[cur] + 1
    case _ => true
  }

  // ---------- reclamation ----------

  // The first node a thread has cut off and not yet freed.
  function ClaimStart(l: Local): Option<(nat, Option<nat>)> {
    match l
    case ReHead(d, _, _, _) => if d.obs.Link? then Some((d.obs.node, d.newhead)) else None
    case RePred(d, _, _, _, _) => if d.obs.Link? then Some((d.obs.node, d.newhead)) else None
    case ReTest(d, _, _, _, _, _) => if d.obs.Link? then Some((d.obs.node, d.newhead)) else None
    case ReSkip(d, _, _, _, _, _) => if d.obs.Link? then Some((d.obs.node, d.newhead)) else None
    case ReNext(d, _, _, _, _) => if d.obs.Link? then Some((d.obs.node, d.newhead)) else None
    case ReCas(d, _, _, _, _, _) => if d.obs.Link? then Some((d.obs.node, d.newhead)) else None
    case FreeRead(d, _, cur) => Some((cur, d.newhead))
    case FreeNode(d, _, cur, _) => Some((cur, d.newhead))
    case _ => None
  }

  predicate Restructuring(l: Local) {
    l.ReHead? || l.RePred? || l.ReTest? || l.ReSkip? || l.ReNext? || l.ReCas?
  }

  // Thread t owes free_node the dead nodes from position lo up to hi.
  ghost predicate Owes(g: History, t: nat, lo: nat, hi: nat) {
    forall j :: 0 <= j < |g.claim| ==> (g.claim[j] == Some(t) <==> lo <= j < hi)
  }

  ghost predicate ClaimOk(g: History, t: nat, l: Local) {
    match ClaimStart(l)
    case None => !Restructuring(l) && Owes(g, t, 0, 0)
    case Some(c) =>
      && c.0 in g.pos
      && c.1.Some? && c.1.value in g.pos
      && g.pos[c.0] <= g.pos[c.1.value] <= |g.claim|
      && Owes(g, t, g.pos[c.0], g.pos[c.1.value])
  }

  ghost predicate ThreadOk(m: Memory, g: History, t: nat, l: Local) {
    InsertOk(m, g, l) && DeleteOk(m, g, l) && ClaimOk(g, t, l)
  }

  // The thread is about to follow the tail's null pointer.
  predicate Doomed(l: Local) {
    l.LocateRead? && BehindTail(l.a, l.up, l.x, l.i)
  }

  // ---------- the whole machine ----------

  ghost predicate PrivatesApart(threads: map<nat, Local>) {
    forall t, u :: t in threads && u in threads && t != u && PrivateNode(threads[t]).Some? ==>
      PrivateNode(threads[t]) != PrivateNode(threads[u])
  }

  ghost predicate Inv(s: Machine, g: History) {
    && MemOk(s.mem, g)
    && (forall t :: t in s.threads ==> ThreadOk(s.mem, g, t, s.threads[t]))
    && PrivatesApart(s.threads)
  }
}
