// Attaching and HelpScan by a thread that runs alone: which record it gets, and that no record without
// a living owner is left with retired pointers.

module HazardAlone {
  import opened HazardScan
  import opened HazardAdoption
  import opened HazardRuns

  // Thread t makes the steps of chs, or as many as there are before it is between two calls.
  ghost function Solo(c: Config, s: State, t: nat, chs: seq<Choice>): Outcome
    requires t in s.threads
    decreases |chs|
  {
    if chs == [] || s.threads[t].Attached? then Next(s)
    else match Exec(c, s, t, chs[0])
      case Fault => Fault
      case Next(s') => if t in s'.threads then Solo(c, s', t, chs[1..]) else Fault
  }

  ghost predicate Allowed(c: Config, s: State, t: nat, chs: seq<Choice>)
    requires t in s.threads
    decreases |chs|
  {
    chs == [] || s.threads[t].Attached? ||
    (ChoiceOk(c, s, t, chs[0]) &&
      match Exec(c, s, t, chs[0])
      case Fault => true
      case Next(s') => t in s'.threads && Allowed(c, s', t, chs[1..]))
  }

  predicate Ownerless(s: State, r: nat) {
    At(s, r).owner == 0 || IsDead(s, At(s, r).owner)
  }

  // No pointer is stranded in record r.
  predicate Settled(s: State, r: nat) {
    Ownerless(s, r) ==> At(s, r).retired == []
  }

  // ---------- HelpScan ----------

  // How many steps the records below k may take.
  ghost function Work(s: State, rec: nat, k: nat): nat {
    if k == 0 then 0 else Work(s, rec, k - 1) + 7 + if k - 1 == rec then 0 else 2 * |At(s, k - 1).retired|
  }

  ghost function Need(s: State, l: Local): int {
    match l
    case HelpHead(rec) => Work(s, rec, |s.records|) + 1
    case HelpFree(rec, i) => Work(s, rec, i + 1)
    case HelpOwner(rec, i) => Work(s, rec, i + 1) - 1
    case HelpAlive(rec, i, cur) => Work(s, rec, i + 1) - 2
    case HelpCas(rec, i, cur) => Work(s, rec, i + 1) - 3
    case Moving(rec, i) => Work(s, rec, i) + 2 * (|At(s, i).retired| - At(s, i).moved) + 3
    case MoveScan(rec, i) => Work(s, rec, i) + 2 * (|At(s, i).retired| - At(s, i).moved) + 4
    case SetFree(rec, i) => Work(s, rec, i) + 2
    case Release(rec, i) => Work(s, rec, i) + 1
    case _ => 0
  }

  // The records above i are settled, and the traversal knows what it looked at.
  ghost predicate Helping(s: State, t: nat, l: Local) {
    match l
    case HelpHead(rec) => true
    case HelpFree(rec, i) => DoneFrom(s, i + 1)
    case HelpOwner(rec, i) => DoneFrom(s, i + 1)
    case HelpAlive(rec, i, cur) => DoneFrom(s, i + 1) && cur == At(s, i).owner != 0
    case HelpCas(rec, i, cur) => DoneFrom(s, i + 1) && if Ownerless(s, i) then cur == At(s, i).owner else cur == 0
    case Moving(rec, i) => DoneFrom(s, i + 1)
    case MoveScan(rec, i) => DoneFrom(s, i + 1)
    case SetFree(rec, i) => DoneFrom(s, i + 1)
    case Release(rec, i) => DoneFrom(s, i + 1)
    case Attached(rec) => DoneFrom(s, 0)
    case _ => false
  }

  ghost predicate DoneFrom(s: State, k: nat) {
    forall r :: k <= r < |s.records| ==> Settled(s, r)
  }

  lemma {:induction false} WorkSame(s: State, s': State, rec: nat, k: nat)
    requires forall r :: 0 <= r < k && r != rec ==> At(s', r).retired == At(s, r).retired
    ensures Work(s', rec, k) == Work(s, rec, k)
  {
    if k > 0 { WorkSame(s, s', rec, k - 1); }
  }

  // The same threads are dead, and the records from k on are as settled as before.
  ghost predicate AsBefore(s: State, s': State, k: nat) {
    && |s'.records| == |s.records|
    && (forall u :: IsDead(s', u) <==> IsDead(s, u))
    && (forall r :: k <= r < |s.records| ==> At(s', r) == At(s, r) || Settled(s', r))
  }

  lemma StillDone(s: State, s': State, k: nat)
    requires AsBefore(s, s', k) && DoneFrom(s, k)
    ensures DoneFrom(s', k)
  {
    forall r | k <= r < |s'.records| ensures Settled(s', r) { assert Settled(s, r); }
  }

  lemma OneMore(s: State, i: nat)
    requires DoneFrom(s, i + 1) && Settled(s, i)
    ensures DoneFrom(s, i)
  {
  }

  // The steps that only look.
  lemma LookTurn(c: Config, s: State, t: nat, ch: Choice)
    requires Inv(c, s) && t in s.threads && Helping(s, t, s.threads[t])
    requires var l := s.threads[t]; l.HelpHead? || l.HelpFree? || l.HelpOwner? || l.HelpAlive?
    ensures Exec(c, s, t, ch).Next? && t in Exec(c, s, t, ch).s.threads
    ensures var s' := Exec(c, s, t, ch).s; Helping(s', t, s'.threads[t]) && Need(s', s'.threads[t]) < Need(s, s.threads[t])
  {
    hide Pending, RecOk, Conserved, Work, DoneFrom, Settled;
    var l := s.threads[t];
    assert LocalOk(c, s, t, l);
    var s' := Exec(c, s, t, ch).s;
    var rec := l.rec;
    WorkSame(s, s', rec, |s.records|);
    if l.HelpHead? {
      NothingAbove(s');
    } else {
      WorkSame(s, s', rec, l.i + 1);
      WorkSame(s, s', rec, l.i);
      WorkIs(s, rec, l.i + 1);
      StillDone(s, s', l.i + 1);
      if l.HelpFree? && s.records[l.i].free {
        FreeIsEmpty(c, s, l.i);
        EmptySettled(s', l.i);
        OneMore(s', l.i);
      }
    }
  }

  lemma NothingAbove(s: State)
    ensures DoneFrom(s, |s.records|)
  {
  }

  lemma EmptySettled(s: State, r: nat)
    requires At(s, r).retired == []
    ensures Settled(s, r)
  {
  }

  lemma WorkIs(s: State, rec: nat, k: nat)
    requires k > 0
    ensures Work(s, rec, k) == Work(s, rec, k - 1) + 7 + if k - 1 == rec then 0 else 2 * |At(s, k - 1).retired|
  {
  }

  lemma FreeIsEmpty(c: Config, s: State, r: nat)
    requires Inv(c, s) && r < |s.records|
    ensures s.records[r].free ==> s.records[r].retired == []
    ensures Ownerless(s, r) ==> s.records[r].moved == 0
  {
    assert RecOk(c, s, r);
  }

  // The compare-and-swap takes a record without a living owner, and fails on any other.
  lemma CasTurn(c: Config, s: State, t: nat, ch: Choice)
    requires Inv(c, s) && t in s.threads && Helping(s, t, s.threads[t]) && s.threads[t].HelpCas?
    ensures Exec(c, s, t, ch).Next? && t in Exec(c, s, t, ch).s.threads
    ensures var s' := Exec(c, s, t, ch).s; Helping(s', t, s'.threads[t]) && Need(s', s'.threads[t]) < Need(s, s.threads[t])
  {
    hide Pending, RecOk, Conserved, Work, DoneFrom, Settled;
    var l := s.threads[t];
    assert LocalOk(c, s, t, l);
    var s' := Exec(c, s, t, ch).s;
    var rec, i := l.rec, l.i;
    FreeIsEmpty(c, s, i);
    WorkSame(s, s', rec, i + 1);
    WorkSame(s, s', rec, i);
    WorkIs(s, rec, i + 1);
    StillDone(s, s', i + 1);
    if !Ownerless(s, i) {
      OwnedSettled(s', i);
      OneMore(s', i);
    } else {
      NotOwn(c, s, t, rec, i);
    }
  }

  lemma OwnedSettled(s: State, r: nat)
    requires !Ownerless(s, r)
    ensures Settled(s, r)
  {
  }

  // A thread's own record is not ownerless.
  lemma NotOwn(c: Config, s: State, t: nat, rec: nat, i: nat)
    requires Inv(c, s) && t in s.threads && s.threads[t] != Dead && Mine(s, t, rec) && Ownerless(s, i) && i < |s.records|
    ensures i != rec
  {
  }

  // Moving one pointer, or the end of the moves.
  lemma MovingTurn(c: Config, s: State, t: nat, ch: Choice)
    requires Inv(c, s) && t in s.threads && Helping(s, t, s.threads[t]) && s.threads[t].Moving?
    requires Exec(c, s, t, ch).Next?
    ensures t in Exec(c, s, t, ch).s.threads
    ensures var s' := Exec(c, s, t, ch).s; Helping(s', t, s'.threads[t]) && Need(s', s'.threads[t]) < Need(s, s.threads[t])
  {
    hide Pending, Conserved, Work, DoneFrom, Settled;
    var l := s.threads[t];
    assert LocalOk(c, s, t, l);
    var s' := Exec(c, s, t, ch).s;
    var rec, i := l.rec, l.i;
    assert RecOk(c, s, i);
    hide RecOk;
    WorkSame(s, s', rec, i);
    OwnedSettled(s', rec);
    StillDone(s, s', i + 1);
  }

  lemma ScanTurn(c: Config, s: State, t: nat, ch: Choice)
    requires Inv(c, s) && t in s.threads && Helping(s, t, s.threads[t]) && s.threads[t].MoveScan?
    requires Exec(c, s, t, ch).Next?
    ensures t in Exec(c, s, t, ch).s.threads
    ensures var s' := Exec(c, s, t, ch).s; Helping(s', t, s'.threads[t]) && Need(s', s'.threads[t]) < Need(s, s.threads[t])
  {
    hide Pending, Conserved, Work, DoneFrom, Settled, Kept, Dropped, Guards;
    var l := s.threads[t];
    assert LocalOk(c, s, t, l);
    var s' := Exec(c, s, t, ch).s;
    WorkSame(s, s', l.rec, l.i);
    OwnedSettled(s', l.rec);
    StillDone(s, s', l.i + 1);
  }

  lemma ReleaseTurn(c: Config, s: State, t: nat, ch: Choice)
    requires Inv(c, s) && t in s.threads && Helping(s, t, s.threads[t]) && (s.threads[t].SetFree? || s.threads[t].Release?)
    ensures Exec(c, s, t, ch).Next? && t in Exec(c, s, t, ch).s.threads
    ensures var s' := Exec(c, s, t, ch).s; Helping(s', t, s'.threads[t]) && Need(s', s'.threads[t]) < Need(s, s.threads[t])
  {
    hide Pending, RecOk, Conserved, Work, DoneFrom, Settled;
    var l := s.threads[t];
    assert LocalOk(c, s, t, l);
    var s' := Exec(c, s, t, ch).s;
    WorkSame(s, s', l.rec, l.i);
    StillDone(s, s', l.i + 1);
    if l.Release? {
      EmptySettled(s', l.i);
      OneMore(s', l.i);
    }
  }

  lemma HelpTurn(c: Config, s: State, t: nat, ch: Choice)
    requires Inv(c, s) && t in s.threads && Helping(s, t, s.threads[t]) && !s.threads[t].Attached? && ChoiceOk(c, s, t, ch)
    ensures Exec(c, s, t, ch).Next? && t in Exec(c, s, t, ch).s.threads && Inv(c, Exec(c, s, t, ch).s)
    ensures var s' := Exec(c, s, t, ch).s; Helping(s', t, s'.threads[t]) && Need(s', s'.threads[t]) < Need(s, s.threads[t])
  {
    hide Inv, Exec, Helping, Need, ChoiceOk;
    StepInv(c, s, t, ch);
    HelpingWhere(s, t, s.threads[t]);
    var l := s.threads[t];
    if l.HelpCas? { CasTurn(c, s, t, ch); }
    else if l.Moving? { MovingTurn(c, s, t, ch); }
    else if l.MoveScan? { ScanTurn(c, s, t, ch); }
    else if l.SetFree? || l.Release? { ReleaseTurn(c, s, t, ch); }
    else { LookTurn(c, s, t, ch); }
  }

  lemma HelpingWhere(s: State, t: nat, l: Local)
    requires Helping(s, t, l)
    ensures l.HelpHead? || l.HelpFree? || l.HelpOwner? || l.HelpAlive? || l.HelpCas? || l.Moving? || l.MoveScan? || l.SetFree? || l.Release? || l.Attached?
  {
  }

  lemma NeedMore(c: Config, s: State, t: nat, l: Local)
    requires Inv(c, s) && t in s.threads && l == s.threads[t] && Helping(s, t, l) && !l.Attached?
    ensures Need(s, l) > 0
  {
    assert LocalOk(c, s, t, l);
    if l.HelpFree? || l.HelpOwner? || l.HelpAlive? || l.HelpCas? { WorkIs(s, l.rec, l.i + 1); }
    if l.Moving? || l.MoveScan? { assert RecOk(c, s, l.i); }
  }

  lemma {:induction false} HelpRuns(c: Config, s: State, t: nat, chs: seq<Choice>)
    requires Inv(c, s) && t in s.threads && Helping(s, t, s.threads[t])
    requires Allowed(c, s, t, chs) && |chs| >= Need(s, s.threads[t])
    ensures var o := Solo(c, s, t, chs); o.Next? && t in o.s.threads && o.s.threads[t].Attached? && DoneFrom(o.s, 0) && Inv(c, o.s)
    decreases |chs|
  {
    hide Inv, Exec, Helping, Need, ChoiceOk, DoneFrom;
    if s.threads[t].Attached? {
      AtEnd(s, t, s.threads[t]);
    } else {
      NeedMore(c, s, t, s.threads[t]);
      HelpTurn(c, s, t, chs[0]);
      HelpRuns(c, Exec(c, s, t, chs[0]).s, t, chs[1..]);
    }
  }

  lemma AtEnd(s: State, t: nat, l: Local)
    requires Helping(s, t, l) && l.Attached?
    ensures DoneFrom(s, 0)
  {
  }

  lemma {:induction false} WorkBound(c: Config, s: State, rec: nat, k: nat)
    requires Inv(c, s) && k <= |s.records|
    ensures Work(s, rec, k) <= k * (2 * c.capacity + 7)
  {
    if k > 0 {
      WorkBound(c, s, rec, k - 1);
      assert RecOk(c, s, k - 1);
      assert k * (2 * c.capacity + 7) == (k - 1) * (2 * c.capacity + 7) + (2 * c.capacity + 7);
    }
  }

  // HelpScan, run alone from any well-formed state, returns within a number of steps that the records
  // and their capacity bound, and then no record without a living owner holds a retired pointer.
  lemma HelpAlone(c: Config, s: State, t: nat, chs: seq<Choice>)
    requires Inv(c, s) && t in s.threads && s.threads[t].HelpHead?
    requires Allowed(c, s, t, chs) && |chs| >= |s.records| * (2 * c.capacity + 7) + 1
    ensures var o := Solo(c, s, t, chs);
      o.Next? && t in o.s.threads && o.s.threads[t].Attached? && forall r :: 0 <= r < |o.s.records| ==> Settled(o.s, r)
  {
    WorkBound(c, s, s.threads[t].rec, |s.records|);
    hide Inv;
    HelpRuns(c, s, t, chs);
  }

  // ---------- AllocateHPRec ----------

  // i is the newest record without an owner, or there is none.
  predicate Newest(s: State, i: int) {
    && -1 <= i < |s.records|
    && (i >= 0 ==> s.records[i].owner == 0)
    && forall r :: i < r < |s.records| ==> s.records[r].owner != 0
  }

  // The state with that record handed to t, or with a new one at the head of the list.
  function Got(s: State, t: nat, i: int): State
    requires Newest(s, i)
  {
    if i >= 0 then Go(Put(s, i, At(s, i).(owner := t, free := false)), t, Attached(i))
    else Go(s.(records := s.records + [Rec(t, false, [], 0)]), t, Attached(|s.records|))
  }

  lemma GoAgain(s: State, t: nat, k: Local, l: Local)
    ensures Go(Go(s, t, k), t, l) == Go(s, t, l)
  {
    assert s.threads[t := k][t := l] == s.threads[t := l];
  }

  lemma GoPut(s: State, t: nat, r: nat, rec: Rec, l: Local)
    ensures Put(Go(s, t, l), r, rec) == Go(Put(s, r, rec), t, l)
  {
  }

  // One step of a run, as long as the call goes on.
  lemma OneTurn(c: Config, s: State, t: nat, chs: seq<Choice>, s': State)
    requires t in s.threads && !s.threads[t].Attached? && chs != [] && Allowed(c, s, t, chs)
    requires Exec(c, s, t, chs[0]) == Next(s') && t in s'.threads
    ensures Solo(c, s, t, chs) == Solo(c, s', t, chs[1..]) && Allowed(c, s', t, chs[1..])
  {
  }

  lemma Returned(c: Config, s: State, t: nat, chs: seq<Choice>)
    requires t in s.threads && s.threads[t].Attached?
    ensures Solo(c, s, t, chs) == Next(s)
  {
  }

  // The record at hand has no owner: it is taken.
  lemma Takes(c: Config, s: State, t: nat, i: nat, chs: seq<Choice>)
    requires Newest(s, i) && i >= 0
    requires Allowed(c, Go(s, t, AllocCas(i)), t, chs) && |chs| >= 2
    ensures Solo(c, Go(s, t, AllocCas(i)), t, chs) == Next(Got(s, t, i))
  {
    hide Solo, Allowed;
    var s0 := Put(s, i, At(s, i).(owner := t));
    var s1, s2 := Go(s0, t, AllocClear(i)), Got(s, t, i);
    GoPut(s, t, i, At(s, i).(owner := t), AllocCas(i));
    GoAgain(s0, t, AllocCas(i), AllocClear(i));
    OneTurn(c, Go(s, t, AllocCas(i)), t, chs, s1);
    GoPut(s0, t, i, At(s0, i).(free := false), AllocClear(i));
    GoAgain(Put(s0, i, At(s0, i).(free := false)), t, AllocClear(i), Attached(i));
    OneTurn(c, s1, t, chs[1..], s2);
    Returned(c, s2, t, chs[1..][1..]);
  }

  // Every record has an owner: a new one is published.
  lemma Publishes(c: Config, s: State, t: nat, chs: seq<Choice>)
    requires Newest(s, -1)
    requires Allowed(c, Go(s, t, PublishHead), t, chs) && |chs| >= 2
    ensures Solo(c, Go(s, t, PublishHead), t, chs) == Next(Got(s, t, -1))
  {
    hide Solo, Allowed;
    var n := |s.records|;
    var s1, s2 := Go(s, t, PublishCas(n)), Got(s, t, -1);
    GoAgain(s, t, PublishHead, PublishCas(n));
    OneTurn(c, Go(s, t, PublishHead), t, chs, s1);
    GoAgain(s.(records := s.records + [Rec(t, false, [], 0)]), t, PublishCas(n), Attached(n));
    OneTurn(c, s1, t, chs[1..], s2);
    Returned(c, s2, t, chs[1..][1..]);
  }

  lemma {:induction false} Walks(c: Config, s: State, t: nat, j: nat, i: int, chs: seq<Choice>)
    requires j < |s.records| && Newest(s, i) && i <= j
    requires Allowed(c, Go(s, t, AllocCas(j)), t, chs) && |chs| >= j + 3
    ensures Solo(c, Go(s, t, AllocCas(j)), t, chs) == Next(Got(s, t, i))
    decreases j
  {
    hide Solo, Allowed, Got;
    if i == j {
      Takes(c, s, t, i, chs);
    } else if j == 0 {
      GoAgain(s, t, AllocCas(0), PublishHead);
      OneTurn(c, Go(s, t, AllocCas(0)), t, chs, Go(s, t, PublishHead));
      Publishes(c, s, t, chs[1..]);
    } else {
      GoAgain(s, t, AllocCas(j), AllocCas(j - 1));
      OneTurn(c, Go(s, t, AllocCas(j)), t, chs, Go(s, t, AllocCas(j - 1)));
      Walks(c, s, t, j - 1, i, chs[1..]);
    }
  }

  // AllocateHPRec, run alone, takes the newest record that has no owner, and publishes a new one
  // exactly if every record has an owner.
  lemma AttachAlone(c: Config, s: State, t: nat, i: int, chs: seq<Choice>)
    requires t in s.threads && s.threads[t] == AllocHead && Newest(s, i)
    requires Allowed(c, s, t, chs) && |chs| >= |s.records| + 3
    ensures Solo(c, s, t, chs) == Next(Got(s, t, i))
  {
    hide Solo, Allowed, Got;
    var n := |s.records|;
    if n == 0 {
      OneTurn(c, s, t, chs, Go(s, t, PublishHead));
      Publishes(c, s, t, chs[1..]);
    } else {
      OneTurn(c, s, t, chs, Go(s, t, AllocCas(n - 1)));
      Walks(c, s, t, n - 1, i, chs[1..]);
    }
  }
}
