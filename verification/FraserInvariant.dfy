// What every reachable state of the machine in FraserModel satisfies, and which changes of
// memory leave the other threads' knowledge intact.

module FraserInvariant {
  import opened AtomicSet
  import opened FraserModel

  // The order on the bottom level; the head comes before every value.
  function Rank(m: Memory, n: nat): int {
    if n == HEAD then -1 else m.Val(n)
  }

  predicate Proper(m: Memory, n: nat) {
    n in m.linked && n in m.nodes && n != NULL && n != HEAD && n != TAIL
  }

  // A node that has ever been on the bottom level.
  ghost predicate NodeOk(m: Memory, n: nat) {
    && n in m.nodes && n != NULL
    && (n == TAIL ==> m.Next(n) == Link(NULL, false) && m.Val(n) == VAL_MAX)
    && (n != TAIL ==> m.Next(n).to in m.linked && m.Next(n).to != HEAD && Rank(m, n) < Rank(m, m.Next(n).to))
    && (n == HEAD ==> m.Deleted(n) == 0)
    && (n != HEAD && n != TAIL ==> m.Val(n) < VAL_MAX)
    && (m.Next(n).marked ==> m.Deleted(n) > 0)
  }

  ghost predicate AllOk(m: Memory) {
    && HEAD in m.linked && TAIL in m.linked && NULL !in m.nodes
    && forall n {:trigger NodeOk(m, n)} :: n in m.linked ==> NodeOk(m, n)
  }

  ghost predicate Leads(m: Memory, chain: seq<nat>, i: nat)
    requires i < |chain| - 1
  {
    m.Next(chain[i]).to == chain[i + 1]
  }

  // `chain` lists the bottom level from the head to the tail.
  ghost predicate ChainOk(m: Memory, chain: seq<nat>) {
    && |chain| >= 2 && chain[0] == HEAD && chain[|chain| - 1] == TAIL
    && (forall i :: 0 <= i < |chain| ==> chain[i] in m.linked)
    && (forall i {:trigger Leads(m, chain, i)} :: 0 <= i < |chain| - 1 ==> Leads(m, chain, i))
    && (forall n :: n in m.linked && !m.Next(n).marked ==> n in chain)
  }

  ghost predicate MemOk(m: Memory, chain: seq<nat>) {
    AllOk(m) && ChainOk(m, chain)
  }

  lemma {:induction false} ChainSorted(m: Memory, chain: seq<nat>, i: nat, j: nat)
    requires MemOk(m, chain) && i < j < |chain|
    ensures Rank(m, chain[i]) < Rank(m, chain[j])
    decreases j - i
  {
    assert NodeOk(m, chain[i]) && Leads(m, chain, i);
    if chain[i] == TAIL { TailLast(m, chain, i); }
    if i + 1 < j { ChainSorted(m, chain, i + 1, j); }
  }

  lemma ChainNext(m: Memory, chain: seq<nat>, i: nat)
    requires ChainOk(m, chain) && i < |chain| - 1
    ensures m.Next(chain[i]).to == chain[i + 1]
  {
    assert Leads(m, chain, i);
  }

  lemma TailLast(m: Memory, chain: seq<nat>, i: nat)
    requires MemOk(m, chain) && i < |chain| && chain[i] == TAIL
    ensures i == |chain| - 1
  {
    assert NodeOk(m, TAIL);
    assert forall j :: 0 <= j < |chain| ==> NodeOk(m, chain[j]);
    if i < |chain| - 1 { ChainNext(m, chain, i); }
  }

  ghost predicate FrozenAt(m: Memory, p: seq<nat>, i: nat)
    requires i < |p| - 1
  {
    p[i] in m.linked && m.Next(p[i]) == Link(p[i + 1], true)
  }

  // The bottom level from a to b runs over marked pointers only.
  ghost predicate Frozen(m: Memory, p: seq<nat>, a: nat, b: nat) {
    && |p| >= 1 && p[0] == a && p[|p| - 1] == b
    && forall i {:trigger FrozenAt(m, p, i)} :: 0 <= i < |p| - 1 ==> FrozenAt(m, p, i)
  }

  ghost predicate Skips(m: Memory, a: nat, b: nat) {
    exists p :: Frozen(m, p, a, b)
  }

  // ---------- what a thread knows ----------

  ghost predicate JobOk(m: Memory, job: Job) {
    match job
    case Add(v, n) => v < VAL_MAX && n in m.nodes && n !in m.linked && n != NULL && m.Val(n) == v && m.Deleted(n) == 0
    case Take(op) => (op.Remove? || op.RemoveSucc? || op.Contains?) && op.v < VAL_MAX
    case Sweep(v, _) => v < VAL_MAX
  }

  ghost predicate LeftOk(m: Memory, job: Job, left: nat) {
    left in m.linked && left != TAIL && Rank(m, left) < Target(job)
  }


  ghost predicate LocalOk(m: Memory, l: Local) {
    match l
    case Outside => true
    case InsAlloc(v) => v < VAL_MAX
    case Arrive(job) => JobOk(m, job)
    case ReadLeft(job, left) => JobOk(m, job) && LeftOk(m, job, left)
    case ReadRight(job, left, leftNext, right) =>
      && JobOk(m, job) && LeftOk(m, job, left)
      && leftNext in m.linked && leftNext != HEAD && right in m.linked && right != HEAD && Skips(m, leftNext, right)
    case Snip(job, left, leftNext, right) =>
      && JobOk(m, job) && LeftOk(m, job, left)
      && leftNext in m.linked && right in m.linked && right != HEAD && Skips(m, leftNext, right)
      && m.Val(right) >= Target(job)
    case AddFlag(job, succ) => JobOk(m, job) && job.Add? && Proper(m, succ) && m.Val(succ) == job.v
    case AddStore(job, pred, succ) =>
      && JobOk(m, job) && job.Add? && LeftOk(m, job, pred)
      && succ in m.linked && succ != HEAD && m.Val(succ) > job.v
    case AddLink(job, pred, succ) =>
      && JobOk(m, job) && job.Add? && LeftOk(m, job, pred)
      && succ in m.linked && succ != HEAD && m.Val(succ) > job.v
      && m.Next(job.new_) == Link(succ, false)
    case FindFlag(op, node) => op.Contains? && Proper(m, node) && op.v == m.Val(node)
    case TakeEnd(op, node) => op.RemoveSucc? && node in m.linked && node != HEAD && op.v <= m.Val(node)
    case TakeFlag(op, node) => TakeOk(m, op, node)
    case TakeClaim(op, node) => TakeOk(m, op, node)
    case MarkRead(node, after) => MarkOk(m, node, after)
    case MarkCas(node, seen, after) => MarkOk(m, node, after)
    case NaiveNext(first) => first in m.linked
    case NaiveEnd(first) => first == NULL || (first in m.linked && first != HEAD)
    case NaiveFlag(first) => Proper(m, first)
    case NaiveClaim(first) => first in m.linked && first != HEAD
    case NaiveTail(first) => first in m.linked && first != HEAD && m.Deleted(first) > 0
    case SprayArrive => true
    case SprayStop(cur) => cur in m.linked
    case SprayFlag(cur) => cur in m.linked && cur != HEAD
    case SprayMore(cur) => cur in m.linked && cur != HEAD
    case SprayNext(cur) => Proper(m, cur)
    case SprayLast(cur) => cur in m.linked && cur != HEAD
    case SprayTest(cur) => Proper(m, cur)
    case SprayClaim(cur) => Proper(m, cur)
    case Leaving(_) => true
    case Crashed => true
  }

  ghost predicate TakeOk(m: Memory, op: Op, node: nat) {
    && (op.Remove? || op.RemoveSucc?)
    && Proper(m, node)
    && op.v <= m.Val(node)
    && (op.Remove? ==> op.v == m.Val(node))
  }

  // Only nodes that are logically deleted get marked.
  ghost predicate MarkOk(m: Memory, node: nat, after: After) {
    && Proper(m, node) && m.Deleted(node) > 0
    && (after.Again? ==> after.job.Add? && JobOk(m, after.job))
  }

  // The new node of a pending insertion, not yet linked.
  function PrivateNode(l: Local): set<nat> {
    match l
    case Arrive(job) => JobNode(job)
    case ReadLeft(job, _) => JobNode(job)
    case ReadRight(job, _, _, _) => JobNode(job)
    case Snip(job, _, _, _) => JobNode(job)
    case AddFlag(job, _) => JobNode(job)
    case AddStore(job, _, _) => JobNode(job)
    case AddLink(job, _, _) => JobNode(job)
    case MarkRead(_, after) => if after.Again? then JobNode(after.job) else {}
    case MarkCas(_, _, after) => if after.Again? then JobNode(after.job) else {}
    case _ => {}
  }

  function JobNode(job: Job): set<nat> {
    if job.Add? then {job.new_} else {}
  }

  // ---------- what a step may do to memory ----------

  // A change by a thread that owns the unlinked nodes in `mine`.
  ghost predicate Guarantee(m: Memory, m': Memory, mine: set<nat>) {
    && m.linked <= m'.linked
    && (forall n :: n in m.nodes ==> n in m'.nodes && m'.Val(n) == m.Val(n) && m.Deleted(n) <= m'.Deleted(n))
    && (forall n :: n in m.linked && m.Next(n).marked ==> m'.Next(n) == m.Next(n))
    && (forall n :: n in m.nodes && n !in m.linked && n !in mine ==> n !in m'.linked && m'.nodes[n] == m.nodes[n])
    && (m'.linked == m.linked || forall n :: n in m.nodes ==> m'.Deleted(n) == m.Deleted(n))
    && (forall n {:trigger Moved(m, m', n)} :: n in m.linked ==> Moved(m, m', n))
  }

  // A pointer stays, or gets one new node put in, or jumps over marked nodes.
  ghost predicate Moved(m: Memory, m': Memory, n: nat) {
    var (a, b) := (m.Next(n).to, m'.Next(n).to);
    b == a || (b !in m.linked && b in m'.linked && m'.Next(b).to == a) || Skips(m, a, b)
  }

  lemma SkipsKept(m: Memory, m': Memory, mine: set<nat>, a: nat, b: nat)
    requires Guarantee(m, m', mine) && Skips(m, a, b)
    ensures Skips(m', a, b)
  {
    var p :| Frozen(m, p, a, b);
    forall i | 0 <= i < |p| - 1 ensures FrozenAt(m', p, i) {
      assert FrozenAt(m, p, i);
    }
    assert Frozen(m', p, a, b);
  }

  lemma JobKept(m: Memory, m': Memory, mine: set<nat>, job: Job)
    requires Guarantee(m, m', mine) && JobOk(m, job) && JobNode(job) !! mine
    ensures JobOk(m', job)
    ensures job.Add? ==> m'.Next(job.new_) == m.Next(job.new_)
  {
  }

  lemma LinkedKept(m: Memory, m': Memory, mine: set<nat>, n: nat)
    requires AllOk(m) && Guarantee(m, m', mine) && n in m.linked
    ensures n in m'.linked && m'.Val(n) == m.Val(n) && m.Deleted(n) <= m'.Deleted(n)
    ensures Rank(m', n) == Rank(m, n)
    ensures Proper(m, n) ==> Proper(m', n)
  {
    assert NodeOk(m, n);
  }

  lemma SearchKept(m: Memory, m': Memory, mine: set<nat>, l: Local)
    requires AllOk(m) && Guarantee(m, m', mine) && LocalOk(m, l) && PrivateNode(l) !! mine
    requires l.ReadLeft? || l.ReadRight? || l.Snip?
    ensures LocalOk(m', l)
  {
    hide AllOk, Guarantee, JobOk, Skips, MarkOk;
    JobKept(m, m', mine, l.job);
    LinkedKept(m, m', mine, l.left);
    if !l.ReadLeft? {
      LinkedKept(m, m', mine, l.leftNext);
      LinkedKept(m, m', mine, l.right);
      SkipsKept(m, m', mine, l.leftNext, l.right);
    }
  }

  lemma AddKept(m: Memory, m': Memory, mine: set<nat>, l: Local)
    requires AllOk(m) && Guarantee(m, m', mine) && LocalOk(m, l) && PrivateNode(l) !! mine
    requires l.AddFlag? || l.AddStore? || l.AddLink?
    ensures LocalOk(m', l)
  {
    hide AllOk, Guarantee, JobOk, Skips, MarkOk;
    JobKept(m, m', mine, l.job);
    LinkedKept(m, m', mine, l.succ);
    if !l.AddFlag? { LinkedKept(m, m', mine, l.pred); }
  }

  lemma RemoveKept(m: Memory, m': Memory, mine: set<nat>, l: Local)
    requires AllOk(m) && Guarantee(m, m', mine) && LocalOk(m, l)
    requires l.FindFlag? || l.TakeEnd? || l.TakeFlag? || l.TakeClaim? || l.NaiveNext? || l.NaiveEnd? || l.NaiveFlag? || l.NaiveClaim? || l.NaiveTail?
    ensures LocalOk(m', l)
  {
    hide AllOk, Guarantee, JobOk, Skips, MarkOk;
    var n := if l.FindFlag? || l.TakeEnd? || l.TakeFlag? || l.TakeClaim? then l.node else l.first;
    if n in m.linked { LinkedKept(m, m', mine, n); }
  }

  // A thread keeps what it knows while another thread moves.
  lemma LocalKept(m: Memory, m': Memory, mine: set<nat>, l: Local)
    requires AllOk(m) && Guarantee(m, m', mine) && LocalOk(m, l) && PrivateNode(l) !! mine
    ensures LocalOk(m', l)
  {
    hide AllOk, Guarantee, JobOk, Skips, MarkOk;
    if l.Arrive? { JobKept(m, m', mine, l.job); }
    else if l.ReadLeft? || l.ReadRight? || l.Snip? { SearchKept(m, m', mine, l); }
    else if l.AddFlag? || l.AddStore? || l.AddLink? { AddKept(m, m', mine, l); }
    else if l.MarkRead? || l.MarkCas? { MarkKept(m, m', mine, l.node, l.after); }
    else if l.FindFlag? || l.TakeEnd? || l.TakeFlag? || l.TakeClaim? || l.NaiveNext? || l.NaiveEnd? || l.NaiveFlag? || l.NaiveClaim? || l.NaiveTail? {
      RemoveKept(m, m', mine, l);
    }
    else if l.SprayStop? || l.SprayFlag? || l.SprayMore? || l.SprayNext? || l.SprayLast? || l.SprayTest? || l.SprayClaim? {
      LinkedKept(m, m', mine, l.cur);
    }
  }

  lemma MarkKept(m: Memory, m': Memory, mine: set<nat>, node: nat, after: After)
    requires AllOk(m) && Guarantee(m, m', mine) && MarkOk(m, node, after)
    requires after.Again? ==> JobNode(after.job) !! mine
    ensures MarkOk(m', node, after)
  {
    LinkedKept(m, m', mine, node);
    if after.Again? { JobKept(m, m', mine, after.job); }
  }
}
