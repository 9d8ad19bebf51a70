// Records of the hazard-pointer collector changing hands: AllocateHPRec, RetireHPRec,
// retirePtr, scan and HelpScan of lib/libcds/src/hzp_gc.cpp and cds/gc/hzp/hzp.h as a step
// machine, one access to an owner or free flag a step, any number of threads.
//
// The records form a list that only grows at its head, so record i is the i-th published and
// its successor is record i - 1.  A thread touches only the retired array of a record it owns;
// a whole scan of such an array is one step, its reads of hazard slots arbitrary.
// Thread identifiers are never reused, and a thread ends only between two calls.

module HazardAdoption {
  import opened HazardScan

  datatype Config = Config(slots: nat, capacity: nat, maxRecords: nat, inplace: bool) {
    // Room for one more than all hazard slots together.
    predicate Roomy() { maxRecords * slots < capacity }
  }

  // `moved` is a history variable: how many entries at the front HelpScan has already pushed
  // into its own array.
  datatype Rec = Rec(owner: nat, free: bool, retired: seq<nat>, moved: nat) {
    predicate Sane() { moved <= |retired| }

    function Remaining(): multiset<nat> {
      if Sane() then multiset(retired[moved..]) else multiset{}
    }
  }

  // Program counters; the numbers are lines of hzp_gc.cpp.  `rec` is the thread's own record,
  // `i` the record under the traversal.
  datatype Local =
    | Outside
    | AllocHead                              // 115
    | AllocCas(i: nat)                       // 117
    | AllocClear(i: nat)                     // 119
    | PublishHead                            // 131
    | PublishCas(head: nat)                  // 134
    | Attached(rec: nat)
    | Scanning(rec: nat)                     // hzp.h 548
    | HelpHead(rec: nat)                     // 275
    | HelpFree(rec: nat, i: nat)             // 278
    | HelpOwner(rec: nat, i: nat)            // 284
    | HelpAlive(rec: nat, i: nat, cur: nat)  // 285
    | HelpCas(rec: nat, i: nat, cur: nat)    // 286, 291
    | Moving(rec: nat, i: nat)               // 303-304, 311
    | MoveScan(rec: nat, i: nat)             // 307
    | SetFree(rec: nat, i: nat)              // 313
    | Release(rec: nat, i: nat)              // 314
    | Dead

  // given and freed are history variables: all pointers ever retired, all ever freed.
  datatype State = State(records: seq<Rec>, threads: map<nat, Local>, given: multiset<nat>, freed: multiset<nat>)

  datatype Action = Attach | Detach | Retire(p: nat) | ScanNow | Die

  datatype Choice = Choice(act: Action, observed: seq<seq<nat>>)

  // Fault: a push into a full array.
  datatype Outcome = Fault | Next(s: State)

  // ---------- the pieces of state ----------

  function Go(s: State, t: nat, l: Local): State {
    s.(threads := s.threads[t := l])
  }

  function Put(s: State, r: nat, rec: Rec): State {
    if r < |s.records| then s.(records := s.records[r := rec]) else s
  }

  function At(s: State, r: nat): Rec {
    if r < |s.records| then s.records[r] else Rec(0, true, [], 0)
  }

  ghost function Pending(records: seq<Rec>): multiset<nat> {
    if records == [] then multiset{}
    else Pending(records[..|records| - 1]) + records[|records| - 1].Remaining()
  }

  // The traversal goes on to the next record of the list, or the call returns.
  function Onward(rec: nat, i: nat): Local {
    if i == 0 then Attached(rec) else HelpFree(rec, i - 1)
  }

  // ---------- scan ----------

  ghost function Kept(c: Config, s: seq<nat>, guards: set<nat>): seq<nat> {
    if c.inplace && Even(s) then KeepFirst(SortSeq(s), guards) else Filter(s, guards)
  }

  ghost function Dropped(c: Config, s: seq<nat>, guards: set<nat>): seq<nat> {
    if c.inplace && Even(s) then FreeRest(SortSeq(s), guards) else Reject(s, guards)
  }

  ghost function DoScan(c: Config, s: State, r: nat, guards: set<nat>): State {
    var rec := At(s, r);
    Put(s, r, rec.(retired := Kept(c, rec.retired, guards)))
      .(freed := s.freed + multiset(Dropped(c, rec.retired, guards)))
  }

  // ---------- the steps ----------

  function DoPush(c: Config, s: State, r: nat, p: nat): Outcome {
    var rec := At(s, r);
    if |rec.retired| >= c.capacity then Fault else Next(Put(s, r, rec.(retired := rec.retired + [p])))
  }

  function DoRetire(c: Config, s: State, t: nat, r: nat, p: nat): Outcome {
    match DoPush(c, s, r, p)
    case Fault => Fault
    case Next(s') =>
      Next(Go(s', t, if |At(s', r).retired| >= c.capacity then Scanning(r) else Attached(r))
             .(given := s.given + multiset{p}))
  }

  function DoAllocCas(s: State, t: nat, i: nat): State {
    if At(s, i).owner == 0 then Go(Put(s, i, At(s, i).(owner := t)), t, AllocClear(i))
    else Go(s, t, if i == 0 then PublishHead else AllocCas(i - 1))
  }

  function DoPublish(s: State, t: nat, head: nat): State {
    if head != |s.records| then Go(s, t, PublishCas(|s.records|))
    else Go(s.(records := s.records + [Rec(t, false, [], 0)]), t, Attached(head))
  }

  function DoMove(c: Config, s: State, t: nat, rec: nat, i: nat): Outcome {
    var src := At(s, i);
    if src.moved >= |src.retired| then Next(Go(Put(s, i, src.(retired := [], moved := 0)), t, SetFree(rec, i)))
    else
      match DoPush(c, s, rec, src.retired[src.moved])
      case Fault => Fault
      case Next(s') =>
        Next(Go(Put(s', i, src.(moved := src.moved + 1)), t,
                if |At(s', rec).retired| >= c.capacity then MoveScan(rec, i) else Moving(rec, i)))
  }

  function DoHelpCas(s: State, t: nat, rec: nat, i: nat, cur: nat): State {
    if At(s, i).owner == cur then Go(Put(s, i, At(s, i).(owner := t)), t, Moving(rec, i))
    else Go(s, t, Onward(rec, i))
  }

  predicate IsDead(s: State, t: nat) {
    t in s.threads && s.threads[t] == Dead
  }

  // What a thread does between its calls.
  function Act(c: Config, s: State, t: nat, l: Local, act: Action): Outcome {
    match act
    case Attach => Next(if l == Outside then Go(s, t, AllocHead) else s)
    case Detach => Next(if l.Attached? then Go(Put(s, l.rec, At(s, l.rec).(owner := 0)), t, Outside) else s)
    case Retire(p) => if l.Attached? then DoRetire(c, s, t, l.rec, p) else Next(s)
    case ScanNow => Next(if l.Attached? then Go(s, t, Scanning(l.rec)) else s)
    case Die => Next(Go(s, t, Dead))
  }

  ghost function Exec(c: Config, s: State, t: nat, ch: Choice): Outcome
    requires t in s.threads
  {
    var l := s.threads[t];
    match l
    case Outside => Act(c, s, t, l, ch.act)
    case Attached(_) => Act(c, s, t, l, ch.act)
    case AllocHead => Next(Go(s, t, if |s.records| == 0 then PublishHead else AllocCas(|s.records| - 1)))
    case AllocCas(i) => Next(DoAllocCas(s, t, i))
    case AllocClear(i) => Next(Go(Put(s, i, At(s, i).(free := false)), t, Attached(i)))
    case PublishHead => Next(Go(s, t, PublishCas(|s.records|)))
    case PublishCas(head) => Next(DoPublish(s, t, head))
    case Scanning(rec) => Next(Go(DoScan(c, s, rec, Guards(ch.observed)), t, HelpHead(rec)))
    case HelpHead(rec) => Next(Go(s, t, Onward(rec, |s.records|)))
    case HelpFree(rec, i) => Next(Go(s, t, if At(s, i).free then Onward(rec, i) else HelpOwner(rec, i)))
    case HelpOwner(rec, i) =>
      Next(Go(s, t, if At(s, i).owner == 0 then HelpCas(rec, i, 0) else HelpAlive(rec, i, At(s, i).owner)))
    case HelpAlive(rec, i, cur) => Next(Go(s, t, HelpCas(rec, i, if IsDead(s, cur) then cur else 0)))
    case HelpCas(rec, i, cur) => Next(DoHelpCas(s, t, rec, i, cur))
    case Moving(rec, i) => DoMove(c, s, t, rec, i)
    case MoveScan(rec, i) => Next(Go(DoScan(c, s, rec, Guards(ch.observed)), t, Moving(rec, i)))
    case SetFree(rec, i) => Next(Go(Put(s, i, At(s, i).(free := true)), t, Release(rec, i)))
    case Release(rec, i) => Next(Go(Put(s, i, At(s, i).(owner := 0)), t, Onward(rec, i)))
    case Dead => Next(s)
  }

  // A pointer is retired once until it is freed; a scan reads `slots` slots of each record on
  // the list; there are never more than maxRecords records.
  ghost predicate ChoiceOk(c: Config, s: State, t: nat, ch: Choice)
    requires t in s.threads
  {
    && (s.threads[t].Attached? && ch.act.Retire? ==> ch.act.p !in Pending(s.records))
    && |ch.observed| <= |s.records|
    && (forall r :: 0 <= r < |ch.observed| ==> |ch.observed[r]| == c.slots)
    && (s.threads[t].PublishCas? ==> |s.records| < c.maxRecords)
  }

  ghost predicate Step(c: Config, s: State, t: nat, ch: Choice, s': State) {
    t in s.threads && ChoiceOk(c, s, t, ch) && Exec(c, s, t, ch) == Next(s')
  }

  // Thread 0 does not exist: 0 means no owner.
  ghost predicate Init(s: State) {
    && s.records == [] && s.given == multiset{} && s.freed == multiset{}
    && forall t :: t in s.threads ==> t != 0 && s.threads[t] == Outside
  }

  // ---------- the invariant ----------

  // Nobody is working on a record in this condition.
  predicate AtRest(c: Config, r: Rec) {
    r.moved == 0 && |r.retired| < c.capacity
  }

  predicate Mine(s: State, t: nat, r: nat) {
    r < |s.records| && s.records[r].owner == t
  }

  ghost predicate LocalOk(c: Config, s: State, t: nat, l: Local) {
    match l
    case Outside => true
    case AllocHead => true
    case AllocCas(i) => i < |s.records|
    case AllocClear(i) => Mine(s, t, i) && AtRest(c, s.records[i])
    case PublishHead => true
    case PublishCas(head) => head <= |s.records|
    case Attached(rec) => InUse(c, s, t, rec)
    case Scanning(rec) => Mine(s, t, rec) && !s.records[rec].free && s.records[rec].moved == 0
    case HelpHead(rec) => InUse(c, s, t, rec)
    case HelpFree(rec, i) => InUse(c, s, t, rec) && i < |s.records|
    case HelpOwner(rec, i) => InUse(c, s, t, rec) && i < |s.records|
    case HelpAlive(rec, i, cur) => InUse(c, s, t, rec) && i < |s.records|
    case HelpCas(rec, i, cur) => InUse(c, s, t, rec) && i < |s.records| && (cur == 0 || IsDead(s, cur))
    case Moving(rec, i) => InUse(c, s, t, rec) && Mine(s, t, i) && i != rec
    case MoveScan(rec, i) =>
      && Mine(s, t, rec) && !s.records[rec].free && s.records[rec].moved == 0
      && Mine(s, t, i) && i != rec
    case SetFree(rec, i) => InUse(c, s, t, rec) && Mine(s, t, i) && i != rec && s.records[i].retired == [] && s.records[i].moved == 0
    case Release(rec, i) => InUse(c, s, t, rec) && Mine(s, t, i) && i != rec && s.records[i].retired == [] && s.records[i].moved == 0
    case Dead => true
  }

  predicate InUse(c: Config, s: State, t: nat, r: nat) {
    Mine(s, t, r) && !s.records[r].free && AtRest(c, s.records[r])
  }

  // The records a thread owns.
  function Owned(l: Local): set<nat> {
    match l
    case AllocClear(i) => {i}
    case Attached(rec) => {rec}
    case Scanning(rec) => {rec}
    case HelpHead(rec) => {rec}
    case HelpFree(rec, _) => {rec}
    case HelpOwner(rec, _) => {rec}
    case HelpAlive(rec, _, _) => {rec}
    case HelpCas(rec, _, _) => {rec}
    case Moving(rec, i) => {rec, i}
    case MoveScan(rec, i) => {rec, i}
    case SetFree(rec, i) => {rec, i}
    case Release(rec, i) => {rec, i}
    case _ => {}
  }

  ghost predicate RecOk(c: Config, s: State, r: nat) {
    var rec := At(s, r);
    && (rec.owner == 0 || (rec.owner in s.threads && (IsDead(s, rec.owner) || r in Owned(s.threads[rec.owner]))))
    && rec.Sane() && |rec.retired| <= c.capacity
    && (rec.free ==> rec.retired == [])
    && (rec.owner == 0 || IsDead(s, rec.owner) ==> AtRest(c, rec))
  }

  ghost predicate Conserved(s: State) {
    && s.given == Pending(s.records) + s.freed
    && forall p :: Pending(s.records)[p] <= 1
  }

  ghost predicate Inv(c: Config, s: State) {
    && c.Roomy() && |s.records| <= c.maxRecords && 0 !in s.threads
    && (forall t :: t in s.threads ==> LocalOk(c, s, t, s.threads[t]))
    && (forall r {:trigger RecOk(c, s, r)} :: 0 <= r < |s.records| ==> RecOk(c, s, r))
    && Conserved(s)
  }
}
