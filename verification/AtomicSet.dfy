// The sequential meaning of the operations on the lock-free skip list of lib/spraylist:
// a set of values, every operation taking effect in one step between call and return.

module AtomicSet {

  datatype Op =
    | Insert(v: nat)        // fraser_insert
    | Remove(v: nat)        // fraser_remove, remove_succ == 0
    | RemoveSucc(v: nat)    // fraser_remove, remove_succ != 0
    | Contains(v: nat)      // fraser_find
    | DeleteMin             // naive_delete_min
    | Spray                 // spray_delete_min

  // Missed is a return value of 0.  Unset is naive_delete_min's return of 1 without
  // storing a value.
  datatype Reply = Added | Refused | Removed(v: nat) | Present | Missed | Unset

  datatype Event = Call(op: Op) | Return(reply: Reply) | Internal

  datatype Phase = Idle | Called(op: Op) | Performed(reply: Reply)

  datatype State = State(values: set<nat>, phases: map<nat, Phase>)

  predicate Takes(s: set<nat>, v: nat, s': set<nat>) {
    v in s && s' == s - {v}
  }

  // insert is decided by the set; a removal takes a value that is there, or gives up.
  predicate Perform(s: set<nat>, op: Op, s': set<nat>, reply: Reply) {
    match op
    case Insert(v) => if v in s then s' == s && reply == Refused else s' == s + {v} && reply == Added
    case Remove(v) => (reply == Removed(v) && Takes(s, v, s')) || (reply == Missed && s' == s)
    case RemoveSucc(v) =>
      || (reply.Removed? && v <= reply.v && Takes(s, reply.v, s'))
      || (reply == Missed && s' == s)
    case Contains(v) => s' == s && ((reply == Present && v in s) || reply == Missed)
    case DeleteMin => (reply.Removed? && Takes(s, reply.v, s')) || (reply == Unset && s' == s)
    case Spray => (reply.Removed? && Takes(s, reply.v, s')) || (reply == Missed && s' == s)
  }

  predicate StepPhase(s: set<nat>, p: Phase, e: Event, s': set<nat>, p': Phase) {
    match e
    case Call(op) => p == Idle && p' == Called(op) && s' == s
    case Return(reply) => p == Performed(reply) && p' == Idle && s' == s
    case Internal =>
      || (p' == p && s' == s)
      || (p.Called? && p'.Performed? && Perform(s, p.op, s', p'.reply))
  }

  ghost predicate Step(a: State, t: nat, e: Event, a': State) {
    && t in a.phases
    && t in a'.phases
    && a'.phases == a.phases[t := a'.phases[t]]
    && StepPhase(a.values, a.phases[t], e, a'.values, a'.phases[t])
  }

  ghost predicate Init(a: State) {
    && a.values == {}
    && forall t :: t in a.phases ==> a.phases[t] == Idle
  }
}
