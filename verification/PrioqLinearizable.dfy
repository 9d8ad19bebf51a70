// Main results for the queue: every run is matched step by step by the atomic
// queue, and the invariant holds in every state of every run.

module PrioqLinearizable {
  import opened PrioqParams
  import opened PrioqModel
  import opened PrioqInvariant
  import opened PrioqStability
  import opened PrioqEffects
  import opened PrioqInsertSteps
  import opened PrioqDeleteSteps
  import A = AtomicQueue

  // Where a thread stands in the atomic queue: a call is pending until the
  // successful swap of line 193, the reads of lines 184 and 318, or the
  // fetch-and-or of line 334.
  function PhaseOf(l: Local): A.Phase {
    match l
    case Outside => A.Idle
    case InsAlloc(k, v) => A.Called(A.Insert(k, v))
    case LocateRead(a, up, _, _) => if up == 0 then A.Called(A.Insert(a.k, a.v)) else A.Performed(A.Void)
    case LocateTest(a, up, _, _, _, _) => if up == 0 then A.Called(A.Insert(a.k, a.v)) else A.Performed(A.Void)
    case DupMark(a) => A.Called(A.Insert(a.k, a.v))
    case DupSame(a) => A.Called(A.Insert(a.k, a.v))
    case Prepare(a) => A.Called(A.Insert(a.k, a.v))
    case LinkCas(a) => A.Called(A.Insert(a.k, a.v))
    case DupClear(_) => A.Performed(A.Void)
    case DupFree(_) => A.Performed(A.Void)
    case UpNew(_, _) => A.Performed(A.Void)
    case UpSucc(_, _) => A.Performed(A.Void)
    case UpPrepare(_, _) => A.Performed(A.Void)
    case UpCas(_, _) => A.Performed(A.Void)
    case Finish(_) => A.Performed(A.Void)
    case InsDone => A.Performed(A.Void)
    case DelObserve => A.Called(A.DeleteMin)
    case DelRead(_) => A.Called(A.DeleteMin)
    case DelFlag(_, _) => A.Called(A.DeleteMin)
    case DelMark(_) => A.Called(A.DeleteMin)
    case DelHeadTest(_, v) => A.Performed(A.Val(v))
    case DelSwing(_, v) => A.Performed(A.Val(v))
    case ReHead(_, v, _, _) => A.Performed(A.Val(v))
    case RePred(_, v, _, _, _) => A.Performed(A.Val(v))
    case ReTest(_, v, _, _, _, _) => A.Performed(A.Val(v))
    case ReSkip(_, v, _, _, _, _) => A.Performed(A.Val(v))
    case ReNext(_, v, _, _, _) => A.Performed(A.Val(v))
    case ReCas(_, v, _, _, _, _) => A.Performed(A.Val(v))
    case FreeRead(_, v, _) => A.Performed(A.Val(v))
    case FreeNode(_, v, _, _) => A.Performed(A.Val(v))
    case DelDone(v) => A.Performed(A.Val(v))
  }

  // Only the thread itself, or nobody, knows the node `mine` before the step.
  ghost predicate PrivateNext(m: Memory, l: Local, l': Local, mine: Option<nat>) {
    && (mine.Some? ==> mine == PrivateNode(l) || mine.value !in m.nodes)
    && (PrivateNode(l').Some? ==> PrivateNode(l') == PrivateNode(l) || PrivateNode(l').value !in m.nodes)
  }

  // An insertion of the sentinel's key returns without having been performed.
  predicate Drops(p: A.Phase, e: A.Event, p': A.Phase) {
    e.Internal? && p.Called? && p.op.Insert? && p.op.k == KEYMAX && p' == A.Performed(A.Void)
  }

  // What callers get: the steps of the atomic queue, but for the sentinel's key.
  ghost predicate Serves(c: map<nat, nat>, p: A.Phase, e: A.Event, c': map<nat, nat>, p': A.Phase) {
    A.StepPhase(c, p, e, c', p') || (Drops(p, e, p') && c' == c)
  }

  // What one step of thread t at l establishes.
  ghost predicate Advanced(m: Memory, g: History, t: nat, l: Local, e: A.Event, o: Outcome, g': History, mine: Option<nat>) {
    && o.Next?
    && MemOk(o.m, g')
    && ThreadOk(o.m, g', t, o.l)
    && Guarantee(m, g, o.m, g', t, mine)
    && PrivateNext(m, l, o.l, mine)
    && Serves(Contents(m, g.live), PhaseOf(l), e, Contents(o.m, g'.live), PhaseOf(o.l))
  }

  // A step that only reads, outside the reclamation phase.
  lemma ReadOnly(m: Memory, g: History, t: nat, l: Local, l': Local)
    requires MemOk(m, g) && ThreadOk(m, g, t, l)
    requires InsertOk(m, g, l') && DeleteOk(m, g, l')
    requires ClaimStart(l) == None && ClaimStart(l') == None && !Restructuring(l')
    requires PrivateNode(l').Some? ==> PrivateNode(l') == PrivateNode(l)
    requires Serves(Contents(m, g.live), PhaseOf(l), A.Internal, Contents(m, g.live), PhaseOf(l'))
    ensures Advanced(m, g, t, l, A.Internal, Next(m, l'), g, None)
  {
    hide InsertOk, DeleteOk, Guarantee, PhaseOf, PrivateNode, Serves;
    NothingHappened(m, g, t);
  }

  lemma LocateReadAdvanced(m: Memory, g: History, t: nat, a: Ins, up: nat, x: nat, i: nat)
    requires MemOk(m, g) && ThreadOk(m, g, t, LocateRead(a, up, x, i)) && !BehindTail(a, up, x, i)
    ensures Advanced(m, g, t, LocateRead(a, up, x, i), A.Internal, DoLocateRead(m, a, up, x, i), g, None)
  {
    hide MemOk;
    LocateReadStep(m, g, a, up, x, i);
    ReadOnly(m, g, t, LocateRead(a, up, x, i), DoLocateRead(m, a, up, x, i).l);
  }

  lemma LocateTestAdvanced(m: Memory, g: History, t: nat, a: Ins, up: nat, x: nat, i: nat, xn: nat, mk: bool)
    requires MemOk(m, g) && ThreadOk(m, g, t, LocateTest(a, up, x, i, xn, mk))
    ensures Advanced(m, g, t, LocateTest(a, up, x, i, xn, mk), A.Internal, DoLocateTest(m, a, up, x, i, xn, mk), g, None)
  {
    hide MemOk;
    LocateTestStep(m, g, a, up, x, i, xn, mk);
    ReadOnly(m, g, t, LocateTest(a, up, x, i, xn, mk), DoLocateTest(m, a, up, x, i, xn, mk).l);
  }

  lemma DupMarkAdvanced(m: Memory, g: History, t: nat, a: Ins)
    requires MemOk(m, g) && ThreadOk(m, g, t, DupMark(a))
    ensures Advanced(m, g, t, DupMark(a), A.Internal, DoDupMark(m, a), g, None)
  {
    hide MemOk;
    DupMarkStep(m, g, a);
    ReadOnly(m, g, t, DupMark(a), DoDupMark(m, a).l);
  }

  lemma DupSameAdvanced(m: Memory, g: History, t: nat, a: Ins)
    requires MemOk(m, g) && ThreadOk(m, g, t, DupSame(a))
    ensures Advanced(m, g, t, DupSame(a), A.Internal, DoDupSame(m, a), g, None)
  {
    hide MemOk;
    DupSameStep(m, g, a);
    ReadOnly(m, g, t, DupSame(a), DoDupSame(m, a).l);
  }

  lemma UpNewAdvanced(m: Memory, g: History, t: nat, a: Ins, i: nat)
    requires MemOk(m, g) && ThreadOk(m, g, t, UpNew(a, i))
    ensures Advanced(m, g, t, UpNew(a, i), A.Internal, DoUpNew(m, a, i), g, None)
  {
    hide MemOk;
    UpNewStep(m, g, a, i);
    ReadOnly(m, g, t, UpNew(a, i), DoUpNew(m, a, i).l);
  }

  lemma UpSuccAdvanced(m: Memory, g: History, t: nat, a: Ins, i: nat)
    requires MemOk(m, g) && ThreadOk(m, g, t, UpSucc(a, i))
    ensures Advanced(m, g, t, UpSucc(a, i), A.Internal, DoUpSucc(m, a, i), g, None)
  {
    hide MemOk;
    UpSuccStep(m, g, a, i);
    ReadOnly(m, g, t, UpSucc(a, i), DoUpSucc(m, a, i).l);
  }

  lemma DelReadAdvanced(m: Memory, g: History, t: nat, d: Del)
    requires MemOk(m, g) && ThreadOk(m, g, t, DelRead(d))
    ensures Advanced(m, g, t, DelRead(d), A.Internal, DoDelRead(m, d), g, None)
  {
    hide MemOk;
    ReadStep(m, g, d);
    ReadOnly(m, g, t, DelRead(d), DoDelRead(m, d).l);
  }

  lemma DelFlagAdvanced(m: Memory, g: History, t: nat, d: Del, link: Link)
    requires MemOk(m, g) && ThreadOk(m, g, t, DelFlag(d, link))
    ensures Advanced(m, g, t, DelFlag(d, link), A.Internal, DoDelFlag(m, d, link), g, None)
  {
    hide MemOk;
    FlagStep(m, g, d, link);
    ReadOnly(m, g, t, DelFlag(d, link), DoDelFlag(m, d, link).l);
  }

  lemma DelHeadTestAdvanced(m: Memory, g: History, t: nat, d: Del, v: nat)
    requires MemOk(m, g) && ThreadOk(m, g, t, DelHeadTest(d, v))
    ensures Advanced(m, g, t, DelHeadTest(d, v), A.Internal, DoDelHeadTest(m, d, v), g, None)
  {
    hide MemOk;
    HeadTestStep(m, g, d, v);
    ReadOnly(m, g, t, DelHeadTest(d, v), DoDelHeadTest(m, d, v).l);
  }

  lemma DelObserveAdvanced(m: Memory, g: History, t: nat)
    requires MemOk(m, g) && ThreadOk(m, g, t, DelObserve)
    ensures Advanced(m, g, t, DelObserve, A.Internal, DoDelObserve(m), g, None)
  {
    hide MemOk;
    ObserveStep(m, g);
    ReadOnly(m, g, t, DelObserve, DoDelObserve(m).l);
  }

  // A step of restructure that only reads.
  lemma RestructureOnly(m: Memory, g: History, t: nat, l: Local, l': Local)
    requires MemOk(m, g)
    requires Restructuring(l) && ThreadOk(m, g, t, l')
    requires (Restructuring(l') || l'.FreeRead?) && l'.v == l.v
    ensures Advanced(m, g, t, l, A.Internal, Next(m, l'), g, None)
  {
    hide MemOk, ThreadOk, Guarantee, Contents;
    NothingHappened(m, g, t);
  }

  lemma ReHeadAdvanced(m: Memory, g: History, t: nat, d: Del, v: nat, i: nat, pred: nat)
    requires MemOk(m, g) && ThreadOk(m, g, t, ReHead(d, v, i, pred))
    ensures Advanced(m, g, t, ReHead(d, v, i, pred), A.Internal, DoReHead(m, d, v, i, pred), g, None)
  {
    hide MemOk, ThreadOk;
    ReHeadStep(m, g, t, d, v, i, pred);
    RestructureOnly(m, g, t, ReHead(d, v, i, pred), DoReHead(m, d, v, i, pred).l);
  }

  lemma RePredAdvanced(m: Memory, g: History, t: nat, d: Del, v: nat, i: nat, pred: nat, h: nat)
    requires MemOk(m, g) && ThreadOk(m, g, t, RePred(d, v, i, pred, h))
    ensures Advanced(m, g, t, RePred(d, v, i, pred, h), A.Internal, DoRePred(m, d, v, i, pred, h), g, None)
  {
    hide MemOk, ThreadOk;
    RePredStep(m, g, t, d, v, i, pred, h);
    RestructureOnly(m, g, t, RePred(d, v, i, pred, h), DoRePred(m, d, v, i, pred, h).l);
  }

  lemma ReTestAdvanced(m: Memory, g: History, t: nat, d: Del, v: nat, i: nat, pred: nat, h: nat, cur: nat)
    requires MemOk(m, g) && ThreadOk(m, g, t, ReTest(d, v, i, pred, h, cur))
    ensures Advanced(m, g, t, ReTest(d, v, i, pred, h, cur), A.Internal, DoReTest(m, d, v, i, pred, h, cur), g, None)
  {
    hide MemOk, ThreadOk;
    ReTestStep(m, g, t, d, v, i, pred, h, cur);
    RestructureOnly(m, g, t, ReTest(d, v, i, pred, h, cur), DoReTest(m, d, v, i, pred, h, cur).l);
  }

  lemma ReSkipAdvanced(m: Memory, g: History, t: nat, d: Del, v: nat, i: nat, pred: nat, h: nat, cur: nat)
    requires MemOk(m, g) && ThreadOk(m, g, t, ReSkip(d, v, i, pred, h, cur))
    ensures Advanced(m, g, t, ReSkip(d, v, i, pred, h, cur), A.Internal, DoReSkip(m, d, v, i, pred, h, cur), g, None)
  {
    hide MemOk, ThreadOk;
    ReSkipStep(m, g, t, d, v, i, pred, h, cur);
    RestructureOnly(m, g, t, ReSkip(d, v, i, pred, h, cur), DoReSkip(m, d, v, i, pred, h, cur).l);
  }

  lemma ReNextAdvanced(m: Memory, g: History, t: nat, d: Del, v: nat, i: nat, pred: nat, h: nat)
    requires MemOk(m, g) && ThreadOk(m, g, t, ReNext(d, v, i, pred, h))
    ensures Advanced(m, g, t, ReNext(d, v, i, pred, h), A.Internal, DoReNext(m, d, v, i, pred, h), g, None)
  {
    hide MemOk, ThreadOk;
    ReNextStep(m, g, t, d, v, i, pred, h);
    RestructureOnly(m, g, t, ReNext(d, v, i, pred, h), DoReNext(m, d, v, i, pred, h).l);
  }

  lemma FreeReadAdvanced(m: Memory, g: History, t: nat, d: Del, v: nat, cur: nat)
    requires MemOk(m, g) && ThreadOk(m, g, t, FreeRead(d, v, cur))
    ensures Advanced(m, g, t, FreeRead(d, v, cur), A.Internal, DoFreeRead(m, d, v, cur), g, None)
  {
    hide MemOk, ThreadOk, Guarantee, SameContents, Contents;
    FreeReadStep(m, g, t, d, v, cur);
    NothingHappened(m, g, t);
  }

  lemma ReCasAdvanced(m: Memory, g: History, t: nat, d: Del, v: nat, i: nat, pred: nat, h: nat, cur: nat)
    requires MemOk(m, g) && ThreadOk(m, g, t, ReCas(d, v, i, pred, h, cur))
    ensures Advanced(m, g, t, ReCas(d, v, i, pred, h, cur), A.Internal, DoReCas(m, d, v, i, pred, h, cur), g, None)
  {
    hide MemOk, ThreadOk, Guarantee;
    ReCasStep(m, g, t, d, v, i, pred, h, cur);
  }

  lemma AllocAdvanced(m: Memory, g: History, t: nat, k: nat, v: nat, id: nat, level: nat)
    requires MemOk(m, g) && ThreadOk(m, g, t, InsAlloc(k, v))
    requires id !in m.nodes && 1 <= level <= NUM_LEVELS
    ensures Advanced(m, g, t, InsAlloc(k, v), A.Internal, DoAlloc(m, k, v, id, level), g, Some(id))
  {
    hide MemOk, Guarantee;
    AllocStep(m, g, t, k, v, id, level);
  }

  lemma DupClearAdvanced(m: Memory, g: History, t: nat, a: Ins)
    requires MemOk(m, g) && ThreadOk(m, g, t, DupClear(a))
    ensures Advanced(m, g, t, DupClear(a), A.Internal, DoDupClear(m, a), g, Some(a.new_))
  {
    hide MemOk, Guarantee;
    DupClearStep(m, g, t, a);
  }

  lemma DupFreeAdvanced(m: Memory, g: History, t: nat, a: Ins)
    requires MemOk(m, g) && ThreadOk(m, g, t, DupFree(a))
    ensures Advanced(m, g, t, DupFree(a), A.Internal, DoDupFree(m, a), g, Some(a.new_))
  {
    hide MemOk, Guarantee;
    FreePrivate(m, g, DoDupFree(m, a).m, t, a.new_);
  }

  lemma PrepareAdvanced(m: Memory, g: History, t: nat, a: Ins)
    requires MemOk(m, g) && ThreadOk(m, g, t, Prepare(a))
    ensures Advanced(m, g, t, Prepare(a), A.Internal, DoPrepare(m, a), g, Some(a.new_))
  {
    hide MemOk, Guarantee;
    PrepareStep(m, g, t, a);
  }

  lemma UpPrepareAdvanced(m: Memory, g: History, t: nat, a: Ins, i: nat)
    requires MemOk(m, g) && ThreadOk(m, g, t, UpPrepare(a, i))
    ensures Advanced(m, g, t, UpPrepare(a, i), A.Internal, DoUpPrepare(m, a, i), g, None)
  {
    hide MemOk, Guarantee;
    UpPrepareStep(m, g, t, a, i);
  }

  lemma FinishAdvanced(m: Memory, g: History, t: nat, a: Ins)
    requires MemOk(m, g) && ThreadOk(m, g, t, Finish(a))
    ensures Advanced(m, g, t, Finish(a), A.Internal, DoFinish(m, a), g, None)
  {
    hide MemOk, Guarantee;
    FinishStep(m, g, t, a);
  }

  lemma LinkAdvanced(m: Memory, g: History, t: nat, a: Ins) returns (g': History)
    requires MemOk(m, g) && ThreadOk(m, g, t, LinkCas(a))
    requires m.Next(a.preds[0], 0) == Link(a.succs[0], false)
    ensures Advanced(m, g, t, LinkCas(a), A.Internal, DoLinkCas(m, a), g', Some(a.new_))
  {
    hide MemOk, Guarantee, LocatedOk, PrivateOk, MovedOn, FilledFrom;
    g' := LinkStep(m, g, t, a);
  }

  lemma LinkFailAdvanced(m: Memory, g: History, t: nat, a: Ins)
    requires MemOk(m, g) && ThreadOk(m, g, t, LinkCas(a))
    requires m.Next(a.preds[0], 0) != Link(a.succs[0], false)
    ensures Advanced(m, g, t, LinkCas(a), A.Internal, DoLinkCas(m, a), g, None)
  {
    hide MemOk, LocatedOk, PrivateOk, MovedOn, FilledFrom;
    LinkFailStep(m, g, a);
    ReadOnly(m, g, t, LinkCas(a), DoLinkCas(m, a).l);
  }

  // The swap of line 193 either adds an absent key, or changes nothing.
  lemma LinkCasAdvanced(m: Memory, g: History, t: nat, a: Ins) returns (g': History, mine: Option<nat>)
    requires MemOk(m, g) && ThreadOk(m, g, t, LinkCas(a))
    ensures Advanced(m, g, t, LinkCas(a), A.Internal, DoLinkCas(m, a), g', mine)
  {
    hide MemOk, Advanced, LocatedOk, PrivateOk;
    if m.Next(a.preds[0], 0) == Link(a.succs[0], false) {
      g' := LinkAdvanced(m, g, t, a);
      mine := Some(a.new_);
    } else {
      LinkFailAdvanced(m, g, t, a);
      g', mine := g, None;
    }
  }

  lemma UpIndex(m: Memory, g: History, a: Ins, i: nat)
    requires MemOk(m, g) && InsertOk(m, g, UpCas(a, i))
    ensures i in a.preds && i in a.succs
  {
    assert NodeOk(m, a.new_);
  }

  lemma UpLinkAdvanced(m: Memory, g: History, t: nat, a: Ins, i: nat)
    requires MemOk(m, g) && ThreadOk(m, g, t, UpCas(a, i))
    requires i in a.preds && i in a.succs && m.Next(a.preds[i], i) == Link(a.succs[i], false)
    ensures Advanced(m, g, t, UpCas(a, i), A.Internal, DoUpCas(m, a, i), g, None)
  {
    hide MemOk, Guarantee, LocatedOk, PublishedOk, FilledFrom;
    UpCasStep(m, g, t, a, i);
  }

  lemma UpFailAdvanced(m: Memory, g: History, t: nat, a: Ins, i: nat)
    requires MemOk(m, g) && ThreadOk(m, g, t, UpCas(a, i))
    requires i in a.preds && i in a.succs && m.Next(a.preds[i], i) != Link(a.succs[i], false)
    ensures Advanced(m, g, t, UpCas(a, i), A.Internal, DoUpCas(m, a, i), g, None)
  {
    hide MemOk, LocatedOk, PublishedOk, FilledFrom;
    UpFailStep(m, g, a, i);
    ReadOnly(m, g, t, UpCas(a, i), DoUpCas(m, a, i).l);
  }

  lemma UpCasAdvanced(m: Memory, g: History, t: nat, a: Ins, i: nat)
    requires MemOk(m, g) && ThreadOk(m, g, t, UpCas(a, i))
    ensures Advanced(m, g, t, UpCas(a, i), A.Internal, DoUpCas(m, a, i), g, None)
  {
    hide MemOk, Advanced, LocatedOk, PublishedOk;
    UpIndex(m, g, a, i);
    if m.Next(a.preds[i], i) == Link(a.succs[i], false) {
      UpLinkAdvanced(m, g, t, a, i);
    } else {
      UpFailAdvanced(m, g, t, a, i);
    }
  }

  lemma MarkedAdvanced(m: Memory, g: History, t: nat, d: Del, maxOffset: int)
    requires MemOk(m, g) && ThreadOk(m, g, t, DelMark(d))
    requires m.Next(d.x, 0).Marked()
    ensures Advanced(m, g, t, DelMark(d), A.Internal, DoDelMark(m, d, maxOffset), g, None)
  {
    hide MemOk, TraverseOk, Quiet;
    MarkedAlready(m, g, t, d, maxOffset);
    ReadOnly(m, g, t, DelMark(d), DoDelMark(m, d, maxOffset).l);
  }

  // The fetch-and-or of line 334 either removes the minimum and returns its value,
  // or changes nothing.
  lemma DelMarkAdvanced(m: Memory, g: History, t: nat, d: Del, maxOffset: int) returns (g': History)
    requires MemOk(m, g) && ThreadOk(m, g, t, DelMark(d))
    ensures Advanced(m, g, t, DelMark(d), A.Internal, DoDelMark(m, d, maxOffset), g', None)
  {
    hide MemOk, Guarantee, TraverseOk, Quiet, A.Perform;
    if m.Next(d.x, 0).Marked() {
      MarkedAdvanced(m, g, t, d, maxOffset);
      g' := g;
    } else {
      g' := MarkStep(m, g, t, d, maxOffset);
    }
  }

  lemma DelSwingAdvanced(m: Memory, g: History, t: nat, d: Del, v: nat) returns (g': History)
    requires MemOk(m, g) && ThreadOk(m, g, t, DelSwing(d, v))
    ensures Advanced(m, g, t, DelSwing(d, v), A.Internal, DoDelSwing(m, d, v), g', None)
  {
    hide MemOk, Guarantee, TraverseOk, Owes;
    if m.Next(HEAD, 0) == d.obs {
      g' := SwingStep(m, g, t, d, v);
    } else {
      g' := g;
      SwingMissed(m, g, t, d, v);
    }
  }

  lemma SwingMissed(m: Memory, g: History, t: nat, d: Del, v: nat)
    requires MemOk(m, g) && ThreadOk(m, g, t, DelSwing(d, v)) && m.Next(HEAD, 0) != d.obs
    ensures Advanced(m, g, t, DelSwing(d, v), A.Internal, DoDelSwing(m, d, v), g, None)
  {
    hide MemOk, Guarantee, TraverseOk, Owes;
    SwingFailStep(m, g, d, v);
    ReadOnly(m, g, t, DelSwing(d, v), DelDone(v));
  }

  lemma FreeNodeAdvanced(m: Memory, g: History, t: nat, d: Del, v: nat, cur: nat, nxt: nat) returns (g': History)
    requires MemOk(m, g) && ThreadOk(m, g, t, FreeNode(d, v, cur, nxt))
    ensures Advanced(m, g, t, FreeNode(d, v, cur, nxt), A.Internal, DoFreeNode(m, d, v, cur, nxt), g', None)
  {
    hide MemOk, ThreadOk, Guarantee;
    g' := FreeNodeStep(m, g, t, d, v, cur, nxt);
  }

  lemma CallOrReturn(m: Memory, g: History, t: nat, l: Local, maxOffset: int, c: Choice)
    requires MemOk(m, g) && ThreadOk(m, g, t, l) && ChoiceOk(m, c)
    requires l.Outside? || l.InsDone? || l.DelDone?
    ensures Advanced(m, g, t, l, EventOf(l, c), Exec(m, l, maxOffset, c), g, None)
  {
    hide Guarantee;
    NothingHappened(m, g, t);
  }

  lemma InsertAdvances(m: Memory, g: History, t: nat, l: Local, maxOffset: int, c: Choice)
    returns (g': History, mine: Option<nat>)
    requires MemOk(m, g) && ThreadOk(m, g, t, l) && ChoiceOk(m, c)
    requires PhaseOf(l).Called? ==> PhaseOf(l).op.Insert?
    requires PhaseOf(l).Performed? ==> PhaseOf(l).res.Void?
    requires !l.Outside? && !l.InsDone? && !Doomed(l)
    ensures Advanced(m, g, t, l, A.Internal, Exec(m, l, maxOffset, c), g', mine)
  {
    hide MemOk, ThreadOk, Advanced;
    g', mine := g, None;
    match l
    case InsAlloc(k, v) => AllocAdvanced(m, g, t, k, v, c.id, c.level); mine := Some(c.id);
    case LocateRead(a, up, x, i) => LocateReadAdvanced(m, g, t, a, up, x, i);
    case LocateTest(a, up, x, i, xn, mk) => LocateTestAdvanced(m, g, t, a, up, x, i, xn, mk);
    case DupMark(a) => DupMarkAdvanced(m, g, t, a);
    case DupSame(a) => DupSameAdvanced(m, g, t, a);
    case DupClear(a) => DupClearAdvanced(m, g, t, a); mine := Some(a.new_);
    case DupFree(a) => DupFreeAdvanced(m, g, t, a); mine := Some(a.new_);
    case Prepare(a) => PrepareAdvanced(m, g, t, a); mine := Some(a.new_);
    case LinkCas(a) => g', mine := LinkCasAdvanced(m, g, t, a);
    case UpNew(a, i) => UpNewAdvanced(m, g, t, a, i);
    case UpSucc(a, i) => UpSuccAdvanced(m, g, t, a, i);
    case UpPrepare(a, i) => UpPrepareAdvanced(m, g, t, a, i);
    case UpCas(a, i) => UpCasAdvanced(m, g, t, a, i);
    case Finish(a) => FinishAdvanced(m, g, t, a);
  }

  lemma DeleteAdvances(m: Memory, g: History, t: nat, l: Local, maxOffset: int, c: Choice) returns (g': History)
    requires MemOk(m, g) && ThreadOk(m, g, t, l) && ChoiceOk(m, c)
    requires PhaseOf(l).Called? ==> PhaseOf(l).op.DeleteMin?
    requires PhaseOf(l).Performed? ==> PhaseOf(l).res.Val?
    requires !l.Outside? && !l.DelDone?
    ensures Advanced(m, g, t, l, A.Internal, Exec(m, l, maxOffset, c), g', None)
  {
    hide MemOk, ThreadOk, Advanced;
    g' := g;
    match l
    case DelObserve => DelObserveAdvanced(m, g, t);
    case DelRead(d) => DelReadAdvanced(m, g, t, d);
    case DelFlag(d, link) => DelFlagAdvanced(m, g, t, d, link);
    case DelMark(d) => g' := DelMarkAdvanced(m, g, t, d, maxOffset);
    case DelHeadTest(d, v) => DelHeadTestAdvanced(m, g, t, d, v);
    case DelSwing(d, v) => g' := DelSwingAdvanced(m, g, t, d, v);
    case ReHead(d, v, i, pred) => ReHeadAdvanced(m, g, t, d, v, i, pred);
    case RePred(d, v, i, pred, h) => RePredAdvanced(m, g, t, d, v, i, pred, h);
    case ReTest(d, v, i, pred, h, cur) => ReTestAdvanced(m, g, t, d, v, i, pred, h, cur);
    case ReSkip(d, v, i, pred, h, cur) => ReSkipAdvanced(m, g, t, d, v, i, pred, h, cur);
    case ReNext(d, v, i, pred, h) => ReNextAdvanced(m, g, t, d, v, i, pred, h);
    case ReCas(d, v, i, pred, h, cur) => ReCasAdvanced(m, g, t, d, v, i, pred, h, cur);
    case FreeRead(d, v, cur) => FreeReadAdvanced(m, g, t, d, v, cur);
    case FreeNode(d, v, cur, nxt) => g' := FreeNodeAdvanced(m, g, t, d, v, cur, nxt);
  }

  // Every step of every thread that is not about to follow the tail's null pointer: no
  // fault, the invariant is kept, and the atomic queue makes the corresponding step,
  // unless an insertion of the sentinel's key is dropped.
  lemma ThreadStep(m: Memory, g: History, t: nat, l: Local, maxOffset: int, c: Choice)
    returns (g': History, mine: Option<nat>)
    requires MemOk(m, g) && ThreadOk(m, g, t, l) && ChoiceOk(m, c)
    ensures Doomed(l) ==> Exec(m, l, maxOffset, c) == Fault
    ensures !Doomed(l) ==> Advanced(m, g, t, l, EventOf(l, c), Exec(m, l, maxOffset, c), g', mine)
  {
    hide ThreadOk, Advanced;
    g', mine := g, None;
    if Doomed(l) { return; }
    hide MemOk, Exec;
    if l.Outside? || l.InsDone? || l.DelDone? {
      CallOrReturn(m, g, t, l, maxOffset, c);
    } else if (PhaseOf(l).Called? && PhaseOf(l).op.Insert?) || (PhaseOf(l).Performed? && PhaseOf(l).res.Void?) {
      g', mine := InsertAdvances(m, g, t, l, maxOffset, c);
    } else {
      g' := DeleteAdvances(m, g, t, l, maxOffset, c);
    }
  }
}
