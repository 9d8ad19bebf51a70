// The queue over whole runs: linearizability, the shape of every reachable state,
// and what happens to nodes the head leaves behind.

module PrioqRuns {
  import opened PrioqParams
  import opened PrioqModel
  import opened PrioqInvariant
  import opened PrioqStability
  import opened PrioqEffects
  import opened PrioqLinearizable
  import A = AtomicQueue

  // ---------- what the memory of the queue represents ----------

  // The nodes from the head to the tail along level 0.
  ghost predicate LevelPath(m: Memory, path: seq<nat>) {
    && |path| >= 2
    && path[0] == HEAD
    && path[|path| - 1] == TAIL
    && forall i :: 0 <= i < |path| - 1 ==>
         path[i] != TAIL && m.Next(path[i], 0).Link? && m.Next(path[i], 0).node == path[i + 1]
  }

  // The i-th node of the path is in the queue: the pointer to it is unmarked.
  ghost predicate LiveOn(m: Memory, path: seq<nat>, i: int) {
    1 <= i < |path| - 1 && !m.Next(path[i - 1], 0).Marked()
  }

  // The map c holds exactly the keys and values of the nodes in the queue.
  ghost predicate Represents(m: Memory, path: seq<nat>, c: map<nat, nat>) {
    && LevelPath(m, path)
    && (forall i :: LiveOn(m, path, i) ==> m.Key(path[i]) in c && c[m.Key(path[i])] == m.Val(path[i]))
    && (forall k :: k in c ==> exists i :: LiveOn(m, path, i) && m.Key(path[i]) == k)
  }

  ghost predicate Holds(m: Memory, c: map<nat, nat>) {
    exists path :: Represents(m, path, c)
  }

  lemma {:induction false} PathPrefix(m: Memory, p: seq<nat>, q: seq<nat>, i: nat)
    requires LevelPath(m, p) && LevelPath(m, q)
    requires i < |p|
    ensures i < |q| && p[i] == q[i]
  {
    if i > 0 {
      PathPrefix(m, p, q, i - 1);
      assert p[i - 1] != TAIL && q[|q| - 1] == TAIL;
    }
  }

  // A memory represents at most one map.
  lemma HoldsUnique(m: Memory, c: map<nat, nat>, c': map<nat, nat>)
    requires Holds(m, c) && Holds(m, c')
    ensures c == c'
  {
    var p :| Represents(m, p, c);
    var q :| Represents(m, q, c');
    PathUnique(m, p, q);
    SameMapOnPath(m, p, c, c');
    SameMapOnPath(m, p, c', c);
    assert c.Keys == c'.Keys;
  }

  lemma SameMapOnPath(m: Memory, p: seq<nat>, c: map<nat, nat>, c': map<nat, nat>)
    requires Represents(m, p, c) && Represents(m, p, c')
    ensures forall k :: k in c ==> k in c' && c'[k] == c[k]
  {
  }

  lemma PathUnique(m: Memory, p: seq<nat>, q: seq<nat>)
    requires LevelPath(m, p) && LevelPath(m, q)
    ensures p == q
  {
    PathPrefix(m, p, q, |p| - 1);
    PathPrefix(m, q, p, |q| - 1);
    forall i | 0 <= i < |p| ensures p[i] == q[i] { PathPrefix(m, p, q, i); }
  }

  ghost function PathOf(g: History): seq<nat>
    requires |g.claim| <= |g.dead|
  {
    [HEAD] + g.dead[|g.claim|..] + g.live + [TAIL]
  }

  // The path after its first node: the dead nodes not yet passed, then the live ones.
  lemma PathAt(g: History, i: nat)
    requires |g.claim| <= |g.dead|
    requires i < |PathOf(g)| - 1
    ensures PathOf(g)[i + 1] == (var j := |g.claim| + i; if j < |g.dead| then g.dead[j] else g.LiveAt(j - |g.dead|))
  {
  }

  lemma PathLink(m: Memory, g: History, i: nat)
    requires MemOk(m, g)
    requires i < |PathOf(g)| - 1
    ensures PathOf(g)[i] != TAIL
    ensures m.Next(PathOf(g)[i], 0) == Link(PathOf(g)[i + 1], |g.claim| + i < |g.dead|)
  {
    PathAt(g, i);
    if i > 0 {
      PathAt(g, i - 1);
      var j := |g.claim| + i - 1;
      NextOf(m, g, j);
    }
  }

  // The pointer of the j-th node ever linked in the order of the path.
  lemma NextOf(m: Memory, g: History, j: nat)
    requires MemOk(m, g) && j < |g.dead| + |g.live|
    ensures j < |g.dead| ==> g.dead[j] != TAIL && m.Next(g.dead[j], 0) == g.DeadLink(j)
    ensures j >= |g.dead| ==>
      g.live[j - |g.dead|] != TAIL && m.Next(g.live[j - |g.dead|], 0) == Link(g.LiveAt(j - |g.dead| + 1), false)
  {
    if j < |g.dead| {
      assert g.Linked(g.dead[j]) && NodeOk(m, g.dead[j]);
    } else {
      assert g.Linked(g.live[j - |g.dead|]) && NodeOk(m, g.live[j - |g.dead|]);
    }
  }

  lemma InvPath(m: Memory, g: History)
    requires MemOk(m, g)
    ensures LevelPath(m, PathOf(g))
  {
    forall i | 0 <= i < |PathOf(g)| - 1
      ensures PathOf(g)[i] != TAIL && m.Next(PathOf(g)[i], 0).Link? && m.Next(PathOf(g)[i], 0).node == PathOf(g)[i + 1]
    {
      PathLink(m, g, i);
    }
  }

  lemma LiveIndex(m: Memory, g: History, i: nat)
    requires MemOk(m, g)
    requires LiveOn(m, PathOf(g), i)
    ensures 0 <= |g.claim| + i - 1 - |g.dead| < |g.live|
    ensures PathOf(g)[i] == g.live[|g.claim| + i - 1 - |g.dead|]
  {
    PathLink(m, g, i - 1);
    PathAt(g, i - 1);
  }

  lemma InvHolds(m: Memory, g: History)
    requires MemOk(m, g)
    ensures Represents(m, PathOf(g), Contents(m, g.live))
    ensures Holds(m, Contents(m, g.live))
  {
    var path, c := PathOf(g), Contents(m, g.live);
    InvPath(m, g);
    forall i | LiveOn(m, path, i) ensures m.Key(path[i]) in c && c[m.Key(path[i])] == m.Val(path[i]) {
      LiveIndex(m, g, i);
      ContentsAt(m, g.live, |g.claim| + i - 1 - |g.dead|);
    }
    forall k | k in c ensures exists i :: LiveOn(m, path, i) && m.Key(path[i]) == k {
      var j := ContentsIndex(m, g.live, k);
      var i := |g.dead| - |g.claim| + j;
      PathAt(g, i);
      PathLink(m, g, i);
      assert LiveOn(m, path, i + 1);
    }
    assert Represents(m, path, c);
  }

  // ---------- one step of the machine ----------

  ghost function Abstract(s: Machine, g: History): A.State {
    A.State(Contents(s.mem, g.live), map t | t in s.threads :: PhaseOf(s.threads[t]))
  }

  lemma InitInv(s: Machine) returns (g: History)
    requires Init(s)
    ensures Inv(s, g)
    ensures A.Init(Abstract(s, g))
  {
    g := History([], [], map[], []);
    assert forall x, i :: UpperOk(s.mem, g, x, i);
    assert KeySet(s.mem, []) == {};
  }

  // Thread t makes a step of the atomic queue, or an insertion of the sentinel's key is dropped.
  ghost predicate Served(a: A.State, t: nat, e: A.Event, a': A.State) {
    A.Step(a, t, e, a') || Dropping(a, t, e, a')
  }

  ghost predicate Dropping(a: A.State, t: nat, e: A.Event, a': A.State) {
    && t in a.phases && t in a'.phases
    && a'.phases == a.phases[t := a'.phases[t]]
    && Drops(a.phases[t], e, a'.phases[t]) && a'.contents == a.contents
  }

  // What a step does to the history that belongs to the state.
  ghost predicate Extends(s: Machine, g: History, t: nat, c: Choice, s': Machine, g': History) {
    && t in s.threads
    && Served(Abstract(s, g), t, EventOf(s.threads[t], c), Abstract(s', g'))
    && HistoryKept(g, g')
    && (forall n :: NodeKept(s.mem, s'.mem, n))
  }

  lemma OthersKept(s: Machine, g: History, t: nat, m': Memory, l': Local, g': History, mine: Option<nat>, u: nat)
    requires Inv(s, g) && t in s.threads && u in s.threads && u != t
    requires MemOk(m', g') && Guarantee(s.mem, g, m', g', t, mine)
    requires PrivateNext(s.mem, s.threads[t], l', mine)
    ensures ThreadOk(m', g', u, s.threads[u])
    ensures PrivateNode(s.threads[u]).Some? ==> PrivateNode(s.threads[u]) != PrivateNode(l')
  {
    hide MemOk, Guarantee;
    var l := s.threads[u];
    PrivateKnown(s.mem, g, u, l);
    ThreadStable(s.mem, g, m', g', t, mine, u, l);
  }

  lemma PrivateKnown(m: Memory, g: History, t: nat, l: Local)
    requires ThreadOk(m, g, t, l)
    ensures PrivateNode(l).Some? ==> PrivateNode(l).value in m.nodes
  {
  }

  lemma MachineStep(s: Machine, g: History, t: nat, c: Choice, s': Machine) returns (g': History)
    requires Inv(s, g) && Step(s, t, c, s')
    ensures Inv(s', g')
    ensures Extends(s, g, t, c, s', g')
  {
    hide MemOk, ThreadOk, Exec, Contents, PhaseOf, HistoryKept, NodeKept, LinkKept, ClaimsKept, PointerKept, PrivateKept;
    var mine;
    g', mine := ThreadStep(s.mem, g, t, s.threads[t], s.maxOffset, c);
    forall u | u in s.threads && u != t
      ensures ThreadOk(s'.mem, g', u, s'.threads[u])
      ensures PrivateNode(s'.threads[u]).Some? ==> PrivateNode(s'.threads[u]) != PrivateNode(s'.threads[t])
    {
      OthersKept(s, g, t, s'.mem, s'.threads[t], g', mine, u);
    }
    assert Abstract(s', g').phases == Abstract(s, g).phases[t := PhaseOf(s'.threads[t])];
  }

  // The only reachable step that follows a null pointer, leaves an array or fails an
  // assertion is the search for a key above the sentinel, behind the tail on the topmost
  // level.  Every other thread can always take its next step.
  lemma NeverFaults(s: Machine, g: History, t: nat, c: Choice)
    requires Inv(s, g) && t in s.threads && ChoiceOk(s.mem, c)
    ensures Exec(s.mem, s.threads[t], s.maxOffset, c).Next? <==> !Doomed(s.threads[t])
    ensures !Doomed(s.threads[t]) ==> exists s' :: Step(s, t, c, s')
  {
    hide MemOk, ThreadOk, Exec, Doomed;
    var g', mine := ThreadStep(s.mem, g, t, s.threads[t], s.maxOffset, c);
    var o := Exec(s.mem, s.threads[t], s.maxOffset, c);
    assert o.Next? ==> Step(s, t, c, Machine(o.m, s.threads[t := o.l], s.maxOffset));
  }

  // ---------- runs ----------

  // A run visits states[0..], thread who[i] moving from states[i] to states[i + 1].
  datatype Run = Run(states: seq<Machine>, who: seq<nat>, choices: seq<Choice>) {

    ghost predicate Valid() {
      && |states| > 0 && |who| == |choices| == |states| - 1
      && Init(states[0])
      && forall i :: 0 <= i < |who| ==> Step(states[i], who[i], choices[i], states[i + 1])
    }

    ghost function EventAt(i: nat): A.Event
      requires Valid() && i < |who|
    {
      assert Step(states[i], who[i], choices[i], states[i + 1]);
      EventOf(states[i].threads[who[i]], choices[i])
    }

    // Nobody inserts the key of the sentinel behind the list.
    ghost predicate NoSentinelCall()
      requires Valid()
    {
      forall i :: 0 <= i < |who| && EventAt(i).Call? && EventAt(i).op.Insert? ==> EventAt(i).op.k != KEYMAX
    }
  }

  // A history for every state of the run.
  ghost predicate Chronicle(r: Run, gs: seq<History>)
    requires r.Valid()
  {
    && 0 < |gs| <= |r.states|
    && (forall i :: 0 <= i < |gs| ==> Inv(r.states[i], gs[i]))
    && A.Init(Abstract(r.states[0], gs[0]))
    && forall i :: 0 <= i < |gs| - 1 ==> Extends(r.states[i], gs[i], r.who[i], r.choices[i], r.states[i + 1], gs[i + 1])
  }

  lemma {:induction false} ChronicleUpTo(r: Run, n: nat) returns (gs: seq<History>)
    requires r.Valid() && n < |r.states|
    ensures |gs| == n + 1 && Chronicle(r, gs)
  {
    hide Inv, Extends, Step, Init, A.Init;
    if n == 0 {
      var g := InitInv(r.states[0]);
      gs := [g];
    } else {
      var pre := ChronicleUpTo(r, n - 1);
      var g' := MachineStep(r.states[n - 1], pre[n - 1], r.who[n - 1], r.choices[n - 1], r.states[n]);
      gs := pre + [g'];
    }
  }

  // Linearizability.  Every run of any number of threads, in any interleaving, is
  // matched by a run of the atomic queue with the same calls and the same returns in
  // the same order, whose contents are at every moment what the memory represents;
  // except that an insertion of the sentinel's key, which no contents ever have, returns
  // without having been performed.
  lemma Linearizable(r: Run) returns (a: seq<A.State>)
    requires r.Valid()
    ensures |a| == |r.states|
    ensures A.Init(a[0])
    ensures forall i :: 0 <= i < |r.who| ==> Served(a[i], r.who[i], r.EventAt(i), a[i + 1])
    ensures r.NoSentinelCall() ==> forall i :: 0 <= i < |r.who| ==> A.Step(a[i], r.who[i], r.EventAt(i), a[i + 1])
    ensures forall i :: 0 <= i < |r.states| ==> Holds(r.states[i].mem, a[i].contents)
    ensures forall i, k :: 0 <= i < |r.states| && k in a[i].contents ==> k < KEYMAX
  {
    a := ServedRun(r);
    if r.NoSentinelCall() {
      hide Step, Init, A.Init, Served, A.Step;
      forall i | 0 <= i < |r.who| ensures A.Step(a[i], r.who[i], r.EventAt(i), a[i + 1]) {
        NothingDropped(r, a, i);
      }
    }
  }

  // Whoever has called has called at some step.
  lemma {:induction false} CalledBefore(r: Run, a: seq<A.State>, j: nat, t: nat)
    requires r.Valid() && |a| == |r.states| && A.Init(a[0]) && j < |a|
    requires forall i :: 0 <= i < |r.who| ==> Served(a[i], r.who[i], r.EventAt(i), a[i + 1])
    requires t in a[j].phases && a[j].phases[t].Called?
    ensures exists i :: 0 <= i < j && r.EventAt(i) == A.Call(a[j].phases[t].op)
  {
    hide Step, Init;
    if j > 0 {
      var i := j - 1;
      assert Served(a[i], r.who[i], r.EventAt(i), a[i + 1]);
      if r.EventAt(i) != A.Call(a[j].phases[t].op) {
        CalledBefore(r, a, i, t);
      }
    }
  }

  lemma NothingDropped(r: Run, a: seq<A.State>, i: nat)
    requires r.Valid() && |a| == |r.states| && A.Init(a[0]) && i < |r.who| && r.NoSentinelCall()
    requires forall i :: 0 <= i < |r.who| ==> Served(a[i], r.who[i], r.EventAt(i), a[i + 1])
    ensures A.Step(a[i], r.who[i], r.EventAt(i), a[i + 1])
  {
    hide Step, Init, A.Init, A.Step;
    assert Served(a[i], r.who[i], r.EventAt(i), a[i + 1]);
    if Dropping(a[i], r.who[i], r.EventAt(i), a[i + 1]) {
      CalledBefore(r, a, i, r.who[i]);
    }
  }

  lemma KeysBelow(m: Memory, g: History)
    requires MemOk(m, g)
    ensures forall k :: k in Contents(m, g.live) ==> k < KEYMAX
  {
    forall k | k in Contents(m, g.live) ensures k < KEYMAX {
      var j := ContentsIndex(m, g.live, k);
      assert g.Linked(g.live[j]) && NodeOk(m, g.live[j]);
    }
  }

  lemma ServedRun(r: Run) returns (a: seq<A.State>)
    requires r.Valid()
    ensures |a| == |r.states|
    ensures A.Init(a[0])
    ensures forall i :: 0 <= i < |r.who| ==> Served(a[i], r.who[i], r.EventAt(i), a[i + 1])
    ensures forall i :: 0 <= i < |r.states| ==> Holds(r.states[i].mem, a[i].contents)
    ensures forall i, k :: 0 <= i < |r.states| && k in a[i].contents ==> k < KEYMAX
  {
    hide MemOk, Step, Init, A.Init, Served;
    var gs := ChronicleUpTo(r, |r.states| - 1);
    a := seq(|r.states|, i requires 0 <= i < |r.states| => Abstract(r.states[i], gs[i]));
    forall i | 0 <= i < |r.states| ensures Holds(r.states[i].mem, a[i].contents) {
      InvHolds(r.states[i].mem, gs[i]);
    }
    forall i, k | 0 <= i < |r.states| && k in a[i].contents ensures k < KEYMAX {
      KeysBelow(r.states[i].mem, gs[i]);
    }
    forall i | 0 <= i < |r.who| ensures Served(a[i], r.who[i], r.EventAt(i), a[i + 1]) {
      assert Extends(r.states[i], gs[i], r.who[i], r.choices[i], r.states[i + 1], gs[i + 1]);
    }
  }

  // ---------- the shape of every reachable state ----------

  // The marked pointers on the path are its first `dead` ones; the nodes behind them
  // are sorted by key; no marked pointer leads to the tail.
  ghost predicate WellShaped(m: Memory, path: seq<nat>, dead: nat) {
    && LevelPath(m, path)
    && dead < |path| - 1
    && (forall i :: 0 <= i < |path| - 1 ==> (m.Next(path[i], 0).Marked() <==> i < dead))
    && (forall i, j :: dead < i < j < |path| ==> m.Key(path[i]) < m.Key(path[j]))
    && (forall i, j :: 0 <= i < j < |path| ==> path[i] != path[j])
  }

  lemma PathDistinct(m: Memory, g: History, i: nat, j: nat)
    requires MemOk(m, g)
    requires i < j < |PathOf(g)|
    ensures PathOf(g)[i] != PathOf(g)[j]
    ensures |g.dead| - |g.claim| < i ==> m.Key(PathOf(g)[i]) < m.Key(PathOf(g)[j])
  {
    PathAt(g, j - 1);
    var b := |g.claim| + j - 1;
    if b < |g.dead| { assert g.Linked(g.dead[b]) && NodeOk(m, g.dead[b]); }
    else if b - |g.dead| < |g.live| { assert g.Linked(g.live[b - |g.dead|]) && NodeOk(m, g.live[b - |g.dead|]); }
    if i > 0 {
      PathAt(g, i - 1);
      var a := |g.claim| + i - 1;
      if a < |g.dead| { assert g.Linked(g.dead[a]) && NodeOk(m, g.dead[a]); }
      else { assert g.Linked(g.live[a - |g.dead|]) && NodeOk(m, g.live[a - |g.dead|]); }
    }
  }

  lemma InvShaped(m: Memory, g: History)
    requires MemOk(m, g)
    ensures WellShaped(m, PathOf(g), |g.dead| - |g.claim|)
  {
    InvPath(m, g);
    var path := PathOf(g);
    forall i | 0 <= i < |path| - 1 ensures m.Next(path[i], 0).Marked() <==> i < |g.dead| - |g.claim| {
      PathLink(m, g, i);
    }
    forall i, j | 0 <= i < j < |path|
      ensures path[i] != path[j]
      ensures |g.dead| - |g.claim| < i ==> m.Key(path[i]) < m.Key(path[j])
    {
      PathDistinct(m, g, i, j);
    }
  }

  // In every state of every run, level 0 leads from the head to the tail, its deleted
  // nodes are a prefix, and the nodes in the queue are strictly sorted.
  lemma ReachableShape(r: Run, i: nat) returns (path: seq<nat>, dead: nat)
    requires r.Valid() && i < |r.states|
    ensures WellShaped(r.states[i].mem, path, dead)
  {
    hide Step, Init, A.Init, Extends, WellShaped;
    var gs := ChronicleUpTo(r, i);
    InvShaped(r.states[i].mem, gs[i]);
    path, dead := PathOf(gs[i]), |gs[i].dead| - |gs[i].claim|;
  }

  ghost predicate OnPath(m: Memory, n: nat) {
    exists path :: LevelPath(m, path) && n in path[1..|path| - 1]
  }

  ghost predicate Reachable(g: History, n: nat) {
    n in g.live || (n in g.pos && g.pos[n] >= |g.claim|)
  }

  lemma OnPathReachable(m: Memory, g: History, n: nat)
    requires MemOk(m, g)
    requires OnPath(m, n)
    ensures Reachable(g, n)
  {
    InvPath(m, g);
    var p := PathOf(g);
    var path :| LevelPath(m, path) && n in path[1..|path| - 1];
    PathUnique(m, path, p);
    var i :| 0 <= i < |p| - 2 && p[1..|p| - 1][i] == n;
    PathAt(g, i);
  }

  lemma ReachableOnPath(m: Memory, g: History, n: nat)
    requires MemOk(m, g)
    requires Reachable(g, n)
    ensures OnPath(m, n)
  {
    InvPath(m, g);
    var p := PathOf(g);
    var i: nat;
    if n in g.live {
      var j :| 0 <= j < |g.live| && g.live[j] == n;
      i := |g.dead| - |g.claim| + j;
    } else {
      i := g.pos[n] - |g.claim|;
    }
    PathAt(g, i);
    assert p[1..|p| - 1][i] == n;
  }

  lemma OnPathLinked(m: Memory, g: History, n: nat)
    requires MemOk(m, g)
    ensures OnPath(m, n) <==> Reachable(g, n)
  {
    if OnPath(m, n) { OnPathReachable(m, g, n); }
    if Reachable(g, n) { ReachableOnPath(m, g, n); }
  }

  lemma {:induction false} LaterHistory(r: Run, gs: seq<History>, i: nat, j: nat)
    requires r.Valid() && Chronicle(r, gs)
    requires i <= j < |gs|
    ensures HistoryKept(gs[i], gs[j])
    decreases j
  {
    hide Inv, Step, Init, A.Init, A.Step;
    if i < j {
      LaterHistory(r, gs, i, j - 1);
      assert Extends(r.states[j - 1], gs[j - 1], r.who[j - 1], r.choices[j - 1], r.states[j], gs[j]);
    }
  }

  // A node once linked on level 0 stays reachable as long as its own pointer is
  // unmarked.  Once the head has passed it, it is marked and not being inserted.
  lemma LeftBehind(r: Run, i: nat, j: nat, n: nat)
    requires r.Valid() && i <= j < |r.states|
    requires OnPath(r.states[i].mem, n) && !OnPath(r.states[j].mem, n)
    ensures r.states[j].mem.Next(n, 0).Marked()
    ensures !r.states[j].mem.Inserting(n)
  {
    hide Step, Init, A.Init, Extends, OnPath;
    var gs := ChronicleUpTo(r, j);
    LaterHistory(r, gs, i, j);
    OnPathLinked(r.states[i].mem, gs[i], n);
    OnPathLinked(r.states[j].mem, gs[j], n);
    assert gs[i].Linked(n);
    assert gs[j].Linked(n);
    assert r.states[j].mem.Next(gs[j].dead[gs[j].pos[n]], 0) == gs[j].DeadLink(gs[j].pos[n]);
  }

  // The head only moves forward: a node it has passed never comes back.
  lemma NeverComesBack(r: Run, i: nat, j: nat, k: nat, n: nat)
    requires r.Valid() && i <= j <= k < |r.states|
    requires OnPath(r.states[i].mem, n) && !OnPath(r.states[j].mem, n)
    ensures !OnPath(r.states[k].mem, n)
  {
    hide Step, Init, A.Init, Extends, OnPath;
    var gs := ChronicleUpTo(r, k);
    LaterHistory(r, gs, i, j);
    LaterHistory(r, gs, j, k);
    OnPathLinked(r.states[i].mem, gs[i], n);
    OnPathLinked(r.states[j].mem, gs[j], n);
    OnPathLinked(r.states[k].mem, gs[k], n);
    assert gs[i].Linked(n);
    assert gs[j].Linked(n);
  }

  // free_node is called at most once for a node, and only for nodes that the head
  // cannot reach on level 0; such a node, if it was ever linked, is marked.
  lemma FreedOnce(r: Run, i: nat)
    requires r.Valid() && i < |r.states|
    ensures var m := r.states[i].mem;
            && (forall a, b :: 0 <= a < b < |m.freed| ==> m.freed[a] != m.freed[b])
            && (forall n :: n in m.freed ==> !OnPath(m, n))
            && (forall n, j :: n in m.freed && 0 <= j <= i && OnPath(r.states[j].mem, n) ==> m.Next(n, 0).Marked())
  {
    hide Step, Init, A.Init, Extends, OnPath;
    var m := r.states[i].mem;
    var gs := ChronicleUpTo(r, i);
    forall n | n in m.freed ensures !OnPath(m, n) {
      OnPathLinked(m, gs[i], n);
    }
    forall n, j | n in m.freed && 0 <= j <= i && OnPath(r.states[j].mem, n) ensures m.Next(n, 0).Marked() {
      OnPathLinked(m, gs[i], n);
      LeftBehind(r, j, i, n);
    }
  }

  // Marks are never cleared, and a marked pointer of a node other than the head never changes.
  lemma MarksStay(r: Run, i: nat, n: nat)
    requires r.Valid() && i < |r.who|
    requires r.states[i].mem.Next(n, 0).Marked()
    ensures r.states[i + 1].mem.Next(n, 0).Marked()
    ensures n != HEAD ==> r.states[i + 1].mem.Next(n, 0) == r.states[i].mem.Next(n, 0)
  {
    hide Step, Init, A.Init, Inv;
    var gs := ChronicleUpTo(r, i + 1);
    assert Extends(r.states[i], gs[i], r.who[i], r.choices[i], r.states[i + 1], gs[i + 1]);
    assert NodeKept(r.states[i].mem, r.states[i + 1].mem, n);
  }
}
