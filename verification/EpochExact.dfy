// The condition on the last step of gc_enter is the right one: a belated entry can always be
// followed by steps that leave the thread two epochs behind, and an entry that is not belated
// never is.

module EpochExact {
  import opened EpochModel
  import opened EpochSafety

  // ---------- continuations ----------

  // No entry on the way is belated.
  ghost predicate AllPrompt(s: State, sched: seq<(nat, Action)>) {
    sched == [] || (var n := |sched| - 1; AllPrompt(s, sched[..n]) && EntryOk(Play(s, sched[..n]), sched[n].0))
  }

  // s can go on to s', through prompt entries only if p is set.
  ghost predicate Goes(p: bool, s: State, s': State) {
    exists sched :: Play(s, sched) == s' && (p ==> AllPrompt(s, sched))
  }

  lemma Stays(p: bool, s: State)
    ensures Goes(p, s, s)
  {
    assert Play(s, []) == s && AllPrompt(s, []);
  }

  lemma GoesNext(p: bool, s: State, s1: State, t: nat, a: Action)
    requires Goes(p, s, s1) && (p ==> EntryOk(s1, t))
    ensures Goes(p, s, Next(s1, t, a))
  {
    var sched :| Play(s, sched) == s1 && (p ==> AllPrompt(s, sched));
    var more := sched + [(t, a)];
    assert more[..|more| - 1] == sched;
    assert Play(s, more) == Next(s1, t, a) && (p ==> AllPrompt(s, more));
  }

  lemma {:induction false} PlayInv(s: State, sched: seq<(nat, Action)>)
    requires Inv(s) && AllPrompt(s, sched)
    ensures Inv(Play(s, sched))
    decreases |sched|
  {
    hide Inv, EntryOk;
    if sched != [] {
      var n := |sched| - 1;
      PlayInv(s, sched[..n]);
      StepInv(Play(s, sched[..n]), sched[n].0, sched[n].1);
    }
  }

  // ---------- a thread that leaves ----------

  // Nothing but thread u's record and the clock differ.
  ghost predicate OnlyOf(s: State, s': State, u: nat) {
    && u in s.threads && u in s'.threads
    && s' == s.(threads := s.threads[u := s'.threads[u]], now := s'.now)
    && CountOk(s'.threads[u]) && !Reclaiming(s'.threads[u].pc) && !s'.threads[u].pc.Register?
  }

  // Somebody else holds the reclaim lock, and u is a registered thread.
  ghost predicate Bystander(s: State, u: nat) {
    && s.inreclaim && u in s.threads && CountOk(s.threads[u])
    && !Reclaiming(s.threads[u].pc) && !s.threads[u].pc.Register?
  }

  // If u stands before the last step of gc_enter, that step is prompt.
  ghost predicate Timely(s: State, u: nat) {
    EntryOk(s, u) && !PassedOver(s, u)
  }

  lemma OwnRecord(s: State, u: nat, a: Action)
    requires Bystander(s, u) && (s.threads[u].pc.In? ==> a == Exit)
    ensures var s' := Next(s, u, a);
      && u in s'.threads && s' == SetThread(s, u, s'.threads[u])
      && CountOk(s'.threads[u]) && !Reclaiming(s'.threads[u].pc) && !s'.threads[u].pc.Register?
  {
  }

  // One step of u, its own business only.
  lemma OwnStep(p: bool, s0: State, s: State, u: nat, a: Action)
    requires Goes(p, s0, s) && (p ==> EntryOk(s, u))
    requires Bystander(s, u) && (s.threads[u].pc.In? ==> a == Exit)
    ensures Goes(p, s0, Next(s, u, a)) && OnlyOf(s, Next(s, u, a), u) && Bystander(Next(s, u, a), u)
  {
    hide Exec, CountOk, EntryOk;
    GoesNext(p, s0, s, u, a);
    OwnRecord(s, u, a);
  }

  lemma OnlyOnly(s: State, s1: State, s2: State, u: nat)
    requires OnlyOf(s, s1, u) && OnlyOf(s1, s2, u)
    ensures OnlyOf(s, s2, u)
  {
    assert s.threads[u := s1.threads[u]][u := s2.threads[u]] == s.threads[u := s2.threads[u]];
  }

  // A bystander's steps leave no reclaimer behind it.
  lemma StillTimely(s: State, s': State, u: nat)
    requires OnlyOf(s, s', u) && !PassedOver(s, u)
    ensures !PassedOver(s', u)
  {
    forall r | r in s'.threads ensures !PastThread(s'.threads[r].pc, u) {
      if r != u { assert s'.threads[r] == s.threads[r]; }
    }
  }

  function Rank(pc: Pc): nat {
    if pc.ReadEpoch? then 2 else if pc.Settle? then 1 else 0
  }

  // A bystander can leave its critical section, however deeply nested, or give up entering.
  lemma {:induction false} Leave(p: bool, s0: State, s: State, u: nat) returns (s': State)
    requires Goes(p, s0, s) && Bystander(s, u) && (p ==> Timely(s, u))
    ensures Goes(p, s0, s') && OnlyOf(s, s', u) && Bystander(s', u) && s'.threads[u].count == 1
    decreases Rank(s.threads[u].pc), s.threads[u].count
  {
    hide Goes, OnlyOf, PassedOver;
    if s.threads[u].count == 1 {
      s' := s;
      NoChange(s, u);
    } else {
      LeaveStep(s, u);
      OwnStep(p, s0, s, u, Exit);
      var s1 := Next(s, u, Exit);
      if p { StillTimely(s, s1, u); }
      s' := Leave(p, s0, s1, u);
      OnlyOnly(s, s1, s', u);
    }
  }

  lemma NoChange(s: State, u: nat)
    requires Bystander(s, u)
    ensures OnlyOf(s, s, u)
  {
    assert s.threads[u := s.threads[u]] == s.threads;
  }

  lemma LeaveStep(s: State, u: nat)
    requires Bystander(s, u) && s.threads[u].count != 1
    ensures var th, th' := s.threads[u], Next(s, u, Exit).threads[u];
      && (Rank(th'.pc) < Rank(th.pc) || (Rank(th'.pc) == Rank(th.pc) && th'.count < th.count))
      && (th'.pc.Settle? ==> th'.pc.seenEpoch == Next(s, u, Exit).epochs)
  {
  }

  // Leaving and entering again, a bystander sees the current epoch.
  lemma Refresh(p: bool, s0: State, s: State, u: nat) returns (s': State)
    requires Goes(p, s0, s) && Bystander(s, u) && (p ==> Timely(s, u))
    ensures Goes(p, s0, s') && OnlyOf(s, s', u) && Bystander(s', u)
    ensures s'.threads[u].epoch == s.current && !s'.threads[u].pc.Settle?
  {
    hide Goes, OnlyOf, PassedOver;
    s' := Leave(p, s0, s, u);
    SameShared(s, s', u);
    if s'.threads[u].epoch != s.current {
      var s1 := s';
      if !s1.threads[u].pc.Enter? {
        OwnStep(p, s0, s1, u, Exit);
        s1 := Next(s1, u, Exit);
        OnlyOnly(s, s', s1, u);
      }
      s' := ReEnter(p, s0, s1, u);
      SameShared(s, s1, u);
      OnlyOnly(s, s1, s', u);
    }
  }

  lemma SameShared(s: State, s': State, u: nat)
    requires OnlyOf(s, s', u)
    ensures s'.current == s.current && s'.epochs == s.epochs
  {
  }

  lemma ReEnter(p: bool, s0: State, s: State, u: nat) returns (s': State)
    requires Goes(p, s0, s) && Bystander(s, u) && s.threads[u].pc.Enter? && s.threads[u].epoch != s.current
    ensures Goes(p, s0, s') && OnlyOf(s, s', u) && Bystander(s', u)
    ensures s'.threads[u].epoch == s.current && !s'.threads[u].pc.Settle?
  {
    hide Goes, OnlyOf;
    OwnStep(p, s0, s, u, Exit);
    var s1 := Next(s, u, Exit);
    OwnStep(p, s0, s1, u, Exit);
    var s2 := Next(s1, u, Exit);
    OnlyOnly(s, s1, s2, u);
    OwnStep(p, s0, s2, u, Exit);
    s' := Next(s2, u, Exit);
    OnlyOnly(s, s2, s', u);
  }

  // ---------- the reclaimer goes on ----------

  // The threads a reclaimer at this point has still to look at.
  function Ahead(pc: Pc): seq<nat> {
    match pc
    case ReadCurrent(first) => first
    case CheckCount(_, _, rest) => rest
    case CheckEpoch(_, _, rest) => rest
    case _ => []
  }

  predicate Walking(pc: Pc) { pc.ReadCurrent? || pc.CheckCount? || pc.CheckEpoch? }

  // u stands before the last step of gc_enter with an epoch at least two advances old.
  predicate TooLate(s: State, u: nat) {
    Finishing(s, u) && s.threads[u].pc.seenEpoch != s.epochs && s.threads[u].pc.seenEpoch + 1 != s.epochs
  }

  // Thread t lags one epoch behind inside a critical section.
  predicate Lags(s: State, t: nat) {
    t in s.threads && s.threads[t].pc.In? && s.threads[t].trueEpoch + 1 == s.epochs
  }

  ghost predicate CurrOk(s: State, r: nat, pc: Pc) {
    match pc
    case CheckCount(curr, _, rest) => curr == s.current && rest != []
    case CheckEpoch(curr, _, rest) => curr == s.current && rest != [] && rest[0] != r
    case _ => true
  }

  // The reclaimer r is past t, which lags, and nothing but the threads still ahead can stop it.
  ghost predicate Passing(p: bool, s: State, r: nat, t: nat) {
    && r in s.threads && r != t && Lags(s, t) && s.inreclaim
    && s.threads[r].count == 1 && PastThread(s.threads[r].pc, t) && CurrOk(s, r, s.threads[r].pc)
    && (forall x :: x in s.threads && x != r ==> !Reclaiming(s.threads[x].pc))
    && (forall x :: x in Ahead(s.threads[r].pc) ==>
          && x in s.threads && CountOk(s.threads[x]) && !s.threads[x].pc.Register?
          && (p ==> !TooLate(s, x)))
  }

  lemma AheadBystander(p: bool, s: State, r: nat, t: nat, u: nat)
    requires Passing(p, s, r, t) && u in Ahead(s.threads[r].pc) && u != r
    ensures Bystander(s, u) && (p ==> Timely(s, u)) && u != t
  {
    assert forall x :: x in s.threads && x != r ==> !PastThread(s.threads[x].pc, u);
  }

  // What a thread ahead does on its own leaves the reclaimer where it is.
  lemma PassingKept(p: bool, s: State, s': State, r: nat, t: nat, u: nat)
    requires Passing(p, s, r, t) && OnlyOf(s, s', u) && u != r && u != t && !s'.threads[u].pc.Settle?
    ensures Passing(p, s', r, t) && s'.threads[r] == s.threads[r] && s'.current == s.current
  {
    forall x | x in Ahead(s.threads[r].pc)
      ensures x in s'.threads && CountOk(s'.threads[x]) && !s'.threads[x].pc.Register? && (p ==> !TooLate(s', x))
    {
      if x != u { assert s'.threads[x] == s.threads[x]; }
    }
  }

  lemma OwnTurn(p: bool, s0: State, s: State, r: nat)
    requires Goes(p, s0, s) && r in s.threads && Reclaiming(s.threads[r].pc)
    ensures Goes(p, s0, Next(s, r, Exit))
  {
    hide Goes;
    GoesNext(p, s0, s, r, Exit);
  }

  // A turn of the reclaimer that does not stop it.
  lemma TurnPasses(p: bool, s: State, r: nat, t: nat)
    requires Passing(p, s, r, t) && Walking(s.threads[r].pc)
    requires s.threads[r].pc.CheckCount? ==> s.threads[s.threads[r].pc.rest[0]].count == 1
    requires s.threads[r].pc.CheckEpoch? ==> s.threads[s.threads[r].pc.rest[0]].epoch == s.current
    ensures var s' := Next(s, r, Exit); Passing(p, s', r, t)
    ensures var pc, pc' := s.threads[r].pc, Next(s, r, Exit).threads[r].pc;
      && (pc'.Move? || pc'.CheckCount?)
      && (pc'.CheckCount? ==> if pc.ReadCurrent? then pc'.rest == pc.first else pc'.rest == pc.rest[1..])
  {
    var s' := Next(s, r, Exit);
    forall x | x in Ahead(s'.threads[r].pc)
      ensures x in s'.threads && CountOk(s'.threads[x]) && !s'.threads[x].pc.Register? && (p ==> !TooLate(s', x))
    {
      assert x in Ahead(s.threads[r].pc);
    }
  }

  // Everybody still ahead gets out of the way, until the reclaimer moves garbage.
  lemma {:induction false} Walk(p: bool, s0: State, s: State, r: nat, t: nat) returns (s': State)
    requires Goes(p, s0, s) && Passing(p, s, r, t) && Walking(s.threads[r].pc)
    ensures Goes(p, s0, s') && Passing(p, s', r, t) && s'.threads[r].pc.Move?
    decreases |Ahead(s.threads[r].pc)|, if s.threads[r].pc.ReadCurrent? then 1 else 0
  {
    hide Goes, OnlyOf, Next, Bystander, Timely, Lags;
    var s1 := s;
    if !s.threads[r].pc.ReadCurrent? {
      var u := s.threads[r].pc.rest[0];
      if u != r {
        AheadBystander(p, s, r, t, u);
        s1 := StepAside(p, s0, s, r, t, u);
      }
    }
    OwnTurn(p, s0, s1, r);
    TurnPasses(p, s1, r, t);
    s' := Next(s1, r, Exit);
    if !s'.threads[r].pc.Move? { s' := Walk(p, s0, s', r, t); }
  }

  lemma StepAside(p: bool, s0: State, s: State, r: nat, t: nat, u: nat) returns (s': State)
    requires Goes(p, s0, s) && Bystander(s, u) && (p ==> Timely(s, u)) && u != r && u != t
    requires r in s.threads && Passing(p, s, r, t)
    ensures Goes(p, s0, s') && Passing(p, s', r, t) && s'.threads[r] == s.threads[r] && s'.current == s.current
    ensures u in s'.threads && (if s.threads[r].pc.CheckCount? then s'.threads[u].count == 1 else s'.threads[u].epoch == s'.current)
  {
    hide Goes, OnlyOf, Timely, Passing;
    if s.threads[r].pc.CheckCount? {
      s' := Leave(p, s0, s, u);
    } else {
      s' := Refresh(p, s0, s, u);
      SameShared(s, s', u);
    }
    PassingKept(p, s, s', r, t, u);
  }

  // Nothing stops the moves, and the advance at their end.
  lemma {:induction false} Moves(p: bool, s0: State, s: State, r: nat, t: nat) returns (s': State)
    requires Goes(p, s0, s) && r in s.threads && r != t && Lags(s, t)
    requires s.threads[r].pc.Move? || s.threads[r].pc.Advance?
    ensures Goes(p, s0, s') && !Safe(s')
    decreases if s.threads[r].pc.Move? then 1 + |s.threads[r].pc.rest| else 0,
              if s.threads[r].pc.Move? && s.threads[r].pc.cls < s.sizes then s.sizes - s.threads[r].pc.cls else 0
  {
    hide Goes;
    OwnTurn(p, s0, s, r);
    s' := Next(s, r, Exit);
    if s.threads[r].pc.Move? {
      s' := Moves(p, s0, s', r, t);
    } else {
      assert s'.threads[t].pc.In? && s'.epochs > s'.threads[t].trueEpoch + 1;
    }
  }

  // ---------- the condition ----------

  lemma EntryPasses(p: bool, s: State, t: nat, a: Action, r: nat)
    requires Inv(s) && Finishing(s, t) && s.threads[t].pc.seenEpoch + 1 == s.epochs
    requires r in s.threads && PastThread(s.threads[r].pc, t)
    requires p ==> forall u :: u != t ==> EntryOk(s, u)
    ensures Passing(p, Next(s, t, a), r, t)
  {
    assert ThreadOk(s, r) && ThreadOk(s, t);
    var s' := Next(s, t, a);
    assert s'.threads[r] == s.threads[r];
    forall x | x in Ahead(s.threads[r].pc)
      ensures x in s'.threads && CountOk(s'.threads[x]) && !s'.threads[x].pc.Register? && (p ==> !TooLate(s', x))
    {
      assert x in s.list && ThreadOk(s, x) && x != t;
      if p { assert EntryOk(s, x); }
    }
  }

  // A belated entry breaks safety: the run can be continued so that the thread is two epochs
  // behind inside its critical section; and if nobody else's entry is belated, through prompt
  // entries only.
  lemma BelatedBreaks(p: bool, s: State, t: nat, a: Action) returns (s': State)
    requires Inv(s) && Finishing(s, t) && !EntryOk(s, t)
    requires p ==> forall u :: u != t ==> EntryOk(s, u)
    ensures Goes(p, Next(s, t, a), s') && !Safe(s')
  {
    hide Goes, Passing, Inv;
    var s1 := Next(s, t, a);
    Stays(p, s1);
    s' := s1;
    SeenBound(s, t);
    if s.threads[t].pc.seenEpoch + 1 == s.epochs {
      var r :| r in s.threads && PastThread(s.threads[r].pc, t);
      EntryPasses(p, s, t, a, r);
      s' := FromPassing(p, s1, r, t);
    } else {
      assert s1.threads[t].pc.In? && s1.threads[t].trueEpoch + 1 < s1.epochs;
    }
  }

  lemma SeenBound(s: State, t: nat)
    requires Inv(s) && t in s.threads && s.threads[t].pc.Settle?
    ensures s.threads[t].pc.seenEpoch <= s.epochs
  {
    assert ThreadOk(s, t);
  }

  lemma FromPassing(p: bool, s: State, r: nat, t: nat) returns (s': State)
    requires Goes(p, s, s) && Passing(p, s, r, t)
    ensures Goes(p, s, s') && !Safe(s')
  {
    hide Goes, Safe;
    s' := s;
    if Walking(s.threads[r].pc) { s' := Walk(p, s, s, r, t); }
    s' := Moves(p, s, s', r, t);
  }

  // When nobody else is about to enter belatedly, the last step of gc_enter is followed by safe
  // states only, for as long as entries are prompt, if and only if it is prompt itself.
  lemma PromptExactly(s: State, t: nat, a: Action)
    requires Inv(s) && Finishing(s, t) && forall u :: u != t ==> EntryOk(s, u)
    ensures EntryOk(s, t) <==> forall s' :: Goes(true, Next(s, t, a), s') ==> Safe(s')
  {
    if EntryOk(s, t) {
      StepInv(s, t, a);
      forall s' | Goes(true, Next(s, t, a), s') ensures Safe(s') {
        var sched :| Play(Next(s, t, a), sched) == s' && AllPrompt(Next(s, t, a), sched);
        PlayInv(Next(s, t, a), sched);
        InvSafe(s');
      }
    } else {
      var s' := BelatedBreaks(true, s, t, a);
    }
  }
}
