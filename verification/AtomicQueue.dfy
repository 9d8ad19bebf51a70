// The sequential specification of the priority queue, and the automaton whose
// operations each take effect in one indivisible step between call and return.
// An implementation whose runs are matched step by step by this automaton, with
// the same calls and returns, is linearizable.

module AtomicQueue {

  datatype Op = Insert(k: nat, v: nat) | DeleteMin

  // insert returns nothing; deletemin returns a value, 0 when the queue is empty.
  datatype Response = Void | Val(v: nat)

  datatype Event = Call(op: Op) | Return(res: Response) | Internal

  // Where one thread stands with its current operation.
  datatype Phase = Idle | Called(op: Op) | Performed(res: Response)

  datatype State = State(contents: map<nat, nat>, phases: map<nat, Phase>)

  ghost predicate IsMin(m: map<nat, nat>, k: nat) {
    k in m && forall k' :: k' in m ==> k <= k'
  }

  // The effect of one operation on the abstract map.
  ghost predicate Perform(m: map<nat, nat>, op: Op, m': map<nat, nat>, res: Response) {
    match op
    case Insert(k, v) =>
      res == Void && m' == (if k in m then m else m[k := v])
    case DeleteMin =>
      if m == map[] then m' == m && res == Val(0)
      else exists k :: IsMin(m, k) && m' == m - {k} && res == Val(m[k])
  }

  // One step of thread t from phase p.
  ghost predicate StepPhase(m: map<nat, nat>, p: Phase, e: Event, m': map<nat, nat>, p': Phase) {
    match e
    case Call(op) => p == Idle && p' == Called(op) && m' == m
    case Return(res) => p == Performed(res) && p' == Idle && m' == m
    case Internal =>
      || (p' == p && m' == m)
      || (p.Called? && p'.Performed? && Perform(m, p.op, m', p'.res))
  }

  ghost predicate Step(a: State, t: nat, e: Event, a': State) {
    && t in a.phases
    && t in a'.phases
    && a'.phases == a.phases[t := a'.phases[t]]
    && StepPhase(a.contents, a.phases[t], e, a'.contents, a'.phases[t])
  }

  ghost predicate Init(a: State) {
    && a.contents == map[]
    && forall t :: t in a.phases ==> a.phases[t] == Idle
  }
}
