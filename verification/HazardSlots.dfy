// The machine of HazardAdoption with the hazard slots in it: owners write their slots whenever
// they are not in a call, and a scan reads the list head and then one slot a step, record by
// record from the newest, before it divides its retired array.

module HazardSlots {
  import opened HazardScan
  import opened HazardAdoption
  import opened HazardRuns

  // A scan under way: n records were on the list when it read the head; done holds the slots
  // of the records it has read, the newest record's first, and part those of the next record.
  datatype Reading = Reading(n: nat, done: seq<seq<nat>>, part: seq<nat>)

  datatype Machine = Machine(base: State, slots: seq<seq<nat>>, scans: map<nat, Reading>)

  datatype Move = Guard(i: nat, p: nat) | Other(ch: Choice)

  predicate AtScan(l: Local) { l.Scanning? || l.MoveScan? }

  function Slot(m: Machine, r: nat, i: nat): nat {
    if r < |m.slots| && i < |m.slots[r]| then m.slots[r][i] else 0
  }

  function Nulls(k: nat): (s: seq<nat>)
    ensures |s| == k && forall i :: 0 <= i < k ==> s[i] == 0
  {
    if k == 0 then [] else Nulls(k - 1) + [0]
  }

  function WithSlot(slots: seq<seq<nat>>, r: nat, i: nat, p: nat): seq<seq<nat>>
    requires r < |slots| && i < |slots[r]|
  {
    var row: seq<nat> := slots[r][i := p];
    slots[r := row]
  }

  // hzp_gc.cpp 171-178 and 234-247: one slot, or on to the next record.
  function ReadOn(c: Config, m: Machine, rd: Reading): Reading
    requires |rd.done| < rd.n
  {
    if |rd.part| >= c.slots then Reading(rd.n, rd.done + [rd.part], [])
    else rd.(part := rd.part + [Slot(m, rd.n - 1 - |rd.done|, |rd.part|)])
  }

  // A record is published with null slots.
  ghost predicate BaseStep(c: Config, m: Machine, t: nat, ch: Choice, m': Machine) {
    && Step(c, m.base, t, ch, m'.base)
    && m'.slots == if |m'.base.records| > |m.slots| then m.slots + [Nulls(c.slots)] else m.slots
  }

  // A thread clears its slots, one by one, before it gives its record back.
  predicate Cleared(m: Machine, r: nat) {
    r < |m.slots| ==> forall i :: 0 <= i < |m.slots[r]| ==> m.slots[r][i] == 0
  }

  ghost predicate MachineStep(c: Config, m: Machine, t: nat, a: Move, m': Machine) {
    && t in m.base.threads
    && var l := m.base.threads[t];
       if AtScan(l) && t !in m.scans then
         m' == m.(scans := m.scans[t := Reading(|m.base.records|, [], [])])
       else if AtScan(l) && |m.scans[t].done| < m.scans[t].n then
         m' == m.(scans := m.scans[t := ReadOn(c, m, m.scans[t])])
       else if AtScan(l) then
         a.Other? && a.ch.observed == m.scans[t].done && BaseStep(c, m, t, a.ch, m') && m'.scans == m.scans - {t}
       else match a
         case Guard(i, p) =>
           && l.Attached? && l.rec < |m.slots| && i < |m.slots[l.rec]|
           && m' == m.(slots := WithSlot(m.slots, l.rec, i, p))
         case Other(ch) =>
           && BaseStep(c, m, t, ch, m') && m'.scans == m.scans
           && (l.Attached? && ch.act.Detach? ==> Cleared(m, l.rec))
  }

  ghost predicate MachineInit(m: Machine) {
    Init(m.base) && m.slots == [] && m.scans == map[]
  }

  // ---------- the invariant ----------

  predicate Rows(s: seq<seq<nat>>, k: nat) {
    forall r :: 0 <= r < |s| ==> |s[r]| == k
  }

  predicate ReadingOk(c: Config, m: Machine, rd: Reading) {
    rd.n <= |m.slots| && |rd.done| <= rd.n && Rows(rd.done, c.slots) && |rd.part| <= c.slots
  }

  ghost predicate ScansOk(c: Config, m: Machine) {
    forall t :: t in m.scans ==> t in m.base.threads && AtScan(m.base.threads[t]) && ReadingOk(c, m, m.scans[t])
  }

  ghost predicate MachineInv(c: Config, m: Machine) {
    Inv(c, m.base) && |m.slots| == |m.base.records| && Rows(m.slots, c.slots) && ScansOk(c, m)
  }

  // At most one record is published a step.
  lemma Publishes(c: Config, s: State, t: nat, ch: Choice)
    requires t in s.threads && Exec(c, s, t, ch).Next?
    ensures |s.records| <= |Exec(c, s, t, ch).s.records| <= |s.records| + 1
  {
    hide Kept, Dropped, Guards, DoMove, DoRetire, At;
    var l := s.threads[t];
    if l.Moving? { MovePublishes(c, s, t, l.rec, l.i); }
    if l.Attached? && ch.act.Retire? { RetirePublishes(c, s, t, l.rec, ch.act.p); }
  }

  lemma MovePublishes(c: Config, s: State, t: nat, rec: nat, i: nat)
    requires DoMove(c, s, t, rec, i).Next?
    ensures |DoMove(c, s, t, rec, i).s.records| == |s.records|
  {
  }

  lemma RetirePublishes(c: Config, s: State, t: nat, rec: nat, p: nat)
    requires DoRetire(c, s, t, rec, p).Next?
    ensures |DoRetire(c, s, t, rec, p).s.records| == |s.records|
  {
  }

  // Only a scan frees.
  lemma ScansFree(c: Config, s: State, t: nat, ch: Choice)
    requires t in s.threads && Exec(c, s, t, ch).Next?
    ensures !AtScan(s.threads[t]) ==> Exec(c, s, t, ch).s.freed == s.freed
    ensures AtScan(s.threads[t]) ==>
      Exec(c, s, t, ch).s.freed == s.freed + multiset(Dropped(c, At(s, s.threads[t].rec).retired, Guards(ch.observed)))
  {
    hide Dropped, Kept, Guards;
  }

  lemma BaseKeeps(c: Config, s: State, t: nat, ch: Choice, s': State)
    requires Inv(c, s) && Step(c, s, t, ch, s')
    ensures Inv(c, s') && (s' == s || Kindly(s, t, s'))
  {
    hide Inv, ChoiceOk, Exec, Good;
    DeadStays(c, s, t, ch);
    StepInv(c, s, t, ch);
    if s.threads[t] != Dead {
      StepGood(c, s, t, ch);
      GoodKindly(c, s, t, s');
    }
  }

  lemma GoodKindly(c: Config, s: State, t: nat, s': State)
    requires Good(c, s, t, s')
    ensures Kindly(s, t, s')
  {
  }

  lemma BaseStepInv(c: Config, m: Machine, t: nat, ch: Choice, m': Machine)
    requires MachineInv(c, m) && BaseStep(c, m, t, ch, m')
    requires m'.scans == if AtScan(m.base.threads[t]) then m.scans - {t} else m.scans
    ensures MachineInv(c, m')
  {
    hide Inv, ChoiceOk, Exec;
    BaseKeeps(c, m.base, t, ch, m'.base);
    Publishes(c, m.base, t, ch);
  }

  lemma ReadOnOk(c: Config, m: Machine, rd: Reading)
    requires ReadingOk(c, m, rd) && |rd.done| < rd.n
    ensures ReadingOk(c, m, ReadOn(c, m, rd))
  {
  }

  // Nothing but the values in slots and the scan of thread t changes.
  lemma QuietStep(c: Config, m: Machine, t: nat, m': Machine)
    requires MachineInv(c, m) && m'.base == m.base
    requires |m'.slots| == |m.slots| && Rows(m'.slots, c.slots)
    requires forall u :: u in m'.scans ==> u in m.base.threads && AtScan(m.base.threads[u])
    requires forall u :: u in m'.scans ==> (u in m.scans && m'.scans[u] == m.scans[u]) || ReadingOk(c, m, m'.scans[u])
    ensures MachineInv(c, m')
  {
  }

  // Every step keeps the invariant, and in what HazardAdoption shows of the machine it is a step
  // of that machine or changes nothing.
  lemma MachineStepInv(c: Config, m: Machine, t: nat, a: Move, m': Machine)
    requires MachineInv(c, m) && MachineStep(c, m, t, a, m')
    ensures MachineInv(c, m')
    ensures m'.base == m.base || (a.Other? && Step(c, m.base, t, a.ch, m'.base))
  {
    hide Inv, Step, ReadOn;
    var l := m.base.threads[t];
    if AtScan(l) && t !in m.scans {
      QuietStep(c, m, t, m');
    } else if AtScan(l) && |m.scans[t].done| < m.scans[t].n {
      ReadOnOk(c, m, m.scans[t]);
      QuietStep(c, m, t, m');
    } else if AtScan(l) || a.Other? {
      BaseStepInv(c, m, t, a.ch, m');
    } else {
      QuietStep(c, m, t, m');
    }
  }

  // A scan is never stuck: it can read on, or divide the array by what it has read.
  lemma ScanGoesOn(c: Config, m: Machine, t: nat)
    requires MachineInv(c, m) && t in m.base.threads && AtScan(m.base.threads[t])
    ensures exists a, m' :: MachineStep(c, m, t, a, m')
  {
    hide Inv, Exec;
    var a := Other(Choice(Attach, if t in m.scans then m.scans[t].done else []));
    if t in m.scans && |m.scans[t].done| >= m.scans[t].n {
      StepInv(c, m.base, t, a.ch);
      var s' := Exec(c, m.base, t, a.ch).s;
      var m' := Machine(s', if |s'.records| > |m.slots| then m.slots + [Nulls(c.slots)] else m.slots, m.scans - {t});
      assert MachineStep(c, m, t, a, m');
    } else {
      var rd := if t in m.scans then ReadOn(c, m, m.scans[t]) else Reading(|m.base.records|, [], []);
      assert MachineStep(c, m, t, a, m.(scans := m.scans[t := rd]));
    }
  }

  // ---------- a guarded pointer ----------

  // Slot i of record r holds p.
  predicate Holds(m: Machine, r: nat, i: nat, p: nat) {
    r < |m.slots| && i < |m.slots[r]| && m.slots[r][i] == p
  }

  // The scan has found p in slot i of record r, or will come to that slot.
  predicate Covers(rd: Reading, r: nat, i: nat, p: nat) {
    && r < rd.n
    && (rd.n - 1 - r < |rd.done| ==> i < |rd.done[rd.n - 1 - r]| && rd.done[rd.n - 1 - r][i] == p)
    && (rd.n - 1 - r == |rd.done| && i < |rd.part| ==> rd.part[i] == p)
  }

  // No scan under way frees p.
  predicate Shielded(m: Machine, t: nat, r: nat, i: nat, p: nat) {
    t in m.scans && t in m.base.threads && AtScan(m.base.threads[t]) ==>
      p !in At(m.base, m.base.threads[t].rec).retired || Covers(m.scans[t], r, i, p)
  }

  lemma ReadOnCovers(c: Config, m: Machine, rd: Reading, r: nat, i: nat, p: nat)
    requires ReadingOk(c, m, rd) && |rd.done| < rd.n && Holds(m, r, i, p) && i < c.slots
    requires Covers(rd, r, i, p)
    ensures Covers(ReadOn(c, m, rd), r, i, p)
  {
  }

  lemma CoversGuards(c: Config, m: Machine, rd: Reading, r: nat, i: nat, p: nat)
    requires Covers(rd, r, i, p) && |rd.done| >= rd.n && p != 0
    ensures p in Guards(rd.done)
  {
    var k := rd.n - 1 - r;
    assert rd.done[k][i] == p;
  }

  // Neither scan drops a guarded pointer, or one that is not there.
  lemma NotDropped(c: Config, s: seq<nat>, guards: set<nat>, p: nat)
    requires (p in guards && multiset(s)[p] <= 1) || p !in s
    ensures multiset(Dropped(c, s, guards))[p] == 0
  {
    CountBoth(s, guards, p);
  }

  // The array of a scanning thread holds no pointer twice, and all of it is pending.
  lemma ScannedOnce(c: Config, m: Machine, t: nat, p: nat)
    requires MachineInv(c, m) && t in m.base.threads && AtScan(m.base.threads[t])
    ensures multiset(At(m.base, m.base.threads[t].rec).retired)[p] <= Pending(m.base.records)[p] <= 1
  {
    var r := m.base.threads[t].rec;
    assert LocalOk(c, m.base, t, m.base.threads[t]);
    WholeRemaining(m.base.records[r]);
    PendingHas(m.base.records, r);
  }

  // The record of a scanning thread does not change while others move.
  lemma OwnArray(c: Config, s: State, u: nat, s': State, t: nat)
    requires Inv(c, s) && Kindly(s, u, s') && t in s.threads && t != u && AtScan(s.threads[t])
    ensures s'.threads[t] == s.threads[t] && At(s', s.threads[t].rec) == At(s, s.threads[t].rec)
  {
    assert LocalOk(c, s, t, s.threads[t]);
  }

  lemma OthersShielded(c: Config, m: Machine, u: nat, a: Move, m': Machine, t: nat, r: nat, i: nat, p: nat)
    requires MachineInv(c, m) && MachineStep(c, m, u, a, m') && t != u
    requires Shielded(m, t, r, i, p)
    ensures Shielded(m', t, r, i, p)
  {
    hide Inv, Step, ReadOn, ReadingOk, Covers;
    if t in m.scans {
      MachineStepInv(c, m, u, a, m');
      if m'.base != m.base {
        BaseKeeps(c, m.base, u, a.ch, m'.base);
        OwnArray(c, m.base, u, m'.base, t);
      }
    }
  }

  lemma OwnShielded(c: Config, m: Machine, u: nat, a: Move, m': Machine, r: nat, i: nat, p: nat)
    requires MachineInv(c, m) && MachineStep(c, m, u, a, m') && Holds(m, r, i, p)
    requires Shielded(m, u, r, i, p)
    ensures Shielded(m', u, r, i, p)
  {
    hide Inv, Step, ReadOn, Covers;
    var l := m.base.threads[u];
    if AtScan(l) && u !in m.scans {
      assert Covers(Reading(|m.base.records|, [], []), r, i, p) by { StartCovers(|m.base.records|, r, i, p); }
    } else if AtScan(l) && |m.scans[u].done| < m.scans[u].n {
      if Covers(m.scans[u], r, i, p) { ReadOnCovers(c, m, m.scans[u], r, i, p); }
    }
  }

  lemma StartCovers(n: nat, r: nat, i: nat, p: nat)
    requires r < n
    ensures Covers(Reading(n, [], []), r, i, p)
  {
  }

  lemma ShieldedNotFreed(c: Config, m: Machine, u: nat, a: Move, m': Machine, r: nat, i: nat, p: nat)
    requires MachineInv(c, m) && MachineStep(c, m, u, a, m') && p != 0
    requires Shielded(m, u, r, i, p)
    ensures m'.base.freed[p] == m.base.freed[p]
  {
    hide Inv, Exec, ReadOn, Covers, Dropped, ChoiceOk, Guards;
    var s := m.base;
    if a.Other? && Step(c, s, u, a.ch, m'.base) {
      ScansFree(c, s, u, a.ch);
      if AtScan(s.threads[u]) && u in m.scans && |m.scans[u].done| >= m.scans[u].n {
        if Covers(m.scans[u], r, i, p) { CoversGuards(c, m, m.scans[u], r, i, p); }
        ScannedOnce(c, m, u, p);
        NotDropped(c, At(s, s.threads[u].rec).retired, Guards(m.scans[u].done), p);
      }
    }
  }

  // ---------- runs ----------

  datatype Run = Run(config: Config, states: seq<Machine>, who: seq<nat>, moves: seq<Move>) {
    ghost predicate Valid() {
      && config.Roomy()
      && |states| > 0 && |who| == |moves| == |states| - 1
      && MachineInit(states[0])
      && forall i :: 0 <= i < |who| ==> MachineStep(config, states[i], who[i], moves[i], states[i + 1])
    }
  }

  lemma {:induction false} RunInv(r: Run, k: nat)
    requires r.Valid() && k < |r.states|
    ensures MachineInv(r.config, r.states[k])
  {
    hide MachineStep, MachineInv;
    if k == 0 {
      StartInv(r.config, r.states[0]);
    } else {
      RunInv(r, k - 1);
      MachineStepInv(r.config, r.states[k - 1], r.who[k - 1], r.moves[k - 1], r.states[k]);
    }
  }

  lemma StartInv(c: Config, m: Machine)
    requires c.Roomy() && MachineInit(m)
    ensures MachineInv(c, m)
  {
  }

  // From state a on, slot i of record k holds p, which at a is not pending.
  ghost predicate HeldSince(r: Run, a: nat, j: nat, k: nat, i: nat, p: nat)
    requires a <= j < |r.states|
  {
    && p != 0 && Pending(r.states[a].base.records)[p] == 0
    && forall x :: a <= x <= j ==> Holds(r.states[x], k, i, p)
  }

  lemma NotYetRetired(c: Config, m: Machine, t: nat, r: nat, i: nat, p: nat)
    requires MachineInv(c, m) && Pending(m.base.records)[p] == 0
    ensures Shielded(m, t, r, i, p)
  {
    hide Inv, Covers;
    if t in m.scans { ScannedOnce(c, m, t, p); }
  }

  lemma {:induction false} HeldUntil(r: Run, a: nat, j: nat, k: nat, i: nat, p: nat)
    requires r.Valid() && a <= j < |r.states| && HeldSince(r, a, j, k, i, p)
    ensures forall t :: Shielded(r.states[j], t, k, i, p)
    ensures r.states[j].base.freed[p] == r.states[a].base.freed[p]
    decreases j - a
  {
    hide MachineStep, MachineInv, Shielded, MachineInit;
    if a == j {
      RunInv(r, a);
      forall t ensures Shielded(r.states[j], t, k, i, p) { NotYetRetired(r.config, r.states[j], t, k, i, p); }
    } else {
      HeldUntil(r, a, j - 1, k, i, p);
      RunInv(r, j - 1);
      var m, u, mv, m' := r.states[j - 1], r.who[j - 1], r.moves[j - 1], r.states[j];
      ShieldedNotFreed(r.config, m, u, mv, m', k, i, p);
      forall t ensures Shielded(m', t, k, i, p) {
        if t == u { OwnShielded(r.config, m, u, mv, m', k, i, p); }
        else { OthersShielded(r.config, m, u, mv, m', t, k, i, p); }
      }
    }
  }

  // A pointer that one slot holds since before it was retired is not freed, whatever the other
  // slots and threads do and whichever scans are under way: if it has been retired meanwhile,
  // it is pending.
  lemma HeldNeverFreed(r: Run, a: nat, j: nat, k: nat, i: nat, p: nat)
    requires r.Valid() && a <= j < |r.states| && HeldSince(r, a, j, k, i, p)
    ensures r.states[j].base.freed[p] == r.states[a].base.freed[p]
    ensures r.states[a].base.given[p] + Pending(r.states[j].base.records)[p] == r.states[j].base.given[p]
  {
    hide MachineStep, MachineInit;
    HeldUntil(r, a, j, k, i, p);
    RunInv(r, a);
    RunInv(r, j);
  }
}
