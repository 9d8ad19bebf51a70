// Every reachable state of the machine in HazardAdoption: nothing retired is lost or freed
// twice, no push overflows, and a record whose m_bFree is set holds nothing.

module HazardRuns {
  import opened Sequences
  import opened HazardScan
  import opened HazardAdoption

  // ---------- the size of what a scan keeps ----------

  lemma {:induction false} GuardsBound(observed: seq<seq<nat>>, slots: nat)
    requires forall r :: 0 <= r < |observed| ==> |observed[r]| == slots
    ensures |Guards(observed)| <= |observed| * slots
  {
    if observed == [] {
      assert Guards(observed) == {};
    } else {
      var n := |observed| - 1;
      GuardsBound(observed[..n], slots);
      MoreGuards(observed, n);
      MulStep(n, slots);
    }
  }

  lemma MulStep(n: nat, k: nat)
    ensures (n + 1) * k == n * k + k
  {
  }

  lemma MoreGuards(observed: seq<seq<nat>>, n: nat)
    requires n == |observed| - 1
    ensures |Guards(observed)| <= |Guards(observed[..n])| + |observed[n]|
  {
    GuardsOfPrefix(observed, n);
    assert observed[..n + 1] == observed;
    hide Guards;
    var row := set i | 0 <= i < |observed[n]| :: observed[n][i];
    SetOfSeq(observed[n]);
    SubsetSize(Guards(observed), Guards(observed[..n]) + row);
  }

  lemma {:induction false} SetOfSeq(s: seq<nat>)
    ensures |set i | 0 <= i < |s| :: s[i]| <= |s|
  {
    var all := set i | 0 <= i < |s| :: s[i];
    if s == [] {
      assert all == {};
    } else {
      var last := |s| - 1;
      SetOfSeq(s[..last]);
      var rest := set i | 0 <= i < last :: s[..last][i];
      assert all <= rest + {s[last]};
      SubsetSize(all, rest + {s[last]});
    }
  }

  lemma {:induction false} SubsetSize(a: set<nat>, b: set<nat>)
    requires a <= b
    ensures |a| <= |b|
  {
    if a != {} {
      var x :| x in a;
      SubsetSize(a - {x}, b - {x});
    }
  }

  // A sequence that holds each guard at most once and nothing else.
  lemma {:induction false} OncePerGuard(k: seq<nat>, guards: set<nat>)
    requires forall x :: multiset(k)[x] <= if x in guards then 1 else 0
    ensures |k| <= |guards|
  {
    if k != [] {
      var last := |k| - 1;
      assert k == k[..last] + [k[last]];
      forall x ensures multiset(k[..last])[x] <= if x in guards - {k[last]} then 1 else 0 {
        assert multiset(k)[x] <= if x in guards then 1 else 0;
      }
      assert k[last] in guards by { assert multiset(k)[k[last]] >= 1; }
      OncePerGuard(k[..last], guards - {k[last]});
    }
  }

  // Either scan splits the array, and keeps no more than there are guards when no pointer
  // occurs twice.
  lemma ScanSplits(c: Config, s: seq<nat>, guards: set<nat>)
    ensures multiset(Kept(c, s, guards)) + multiset(Dropped(c, s, guards)) == multiset(s)
    ensures (forall x :: multiset(s)[x] <= 1) ==> |Kept(c, s, guards)| <= |guards|
  {
    var k: multiset<nat>, d: multiset<nat> := multiset(Kept(c, s, guards)), multiset(Dropped(c, s, guards));
    forall x: nat
      ensures k[x] + d[x] == multiset(s)[x]
      ensures k[x] <= if x in guards then multiset(s)[x] else 0
    {
      CountBoth(s, guards, x);
    }
    assert k + d == multiset(s);
    if forall x :: multiset(s)[x] <= 1 {
      OncePerGuard(Kept(c, s, guards), guards);
    }
  }

  // ---------- pending pointers ----------

  lemma {:induction false} PendingPut(records: seq<Rec>, r: nat, rec: Rec)
    requires r < |records|
    ensures Pending(records[r := rec]) + records[r].Remaining() == Pending(records) + rec.Remaining()
  {
    hide Rec.Remaining;
    var last := |records| - 1;
    var front := Pending(records[..last]);
    if r == last {
      assert records[r := rec][..last] == records[..last];
      Swap(front, front, multiset{}, multiset{}, records[r].Remaining(), rec.Remaining());
    } else {
      PendingPut(records[..last], r, rec);
      assert records[r := rec][..last] == records[..last][r := rec];
      Swap(front, Pending(records[..last][r := rec]), records[r].Remaining(), rec.Remaining(),
           records[last].Remaining(), records[last].Remaining());
    }
  }

  lemma Swap(a: multiset<nat>, a': multiset<nat>, o: multiset<nat>, n: multiset<nat>, z: multiset<nat>, z': multiset<nat>)
    requires a' + o == a + n
    ensures z == z' ==> (a' + z') + o == (a + z) + n
    ensures a == a' ==> (a' + z') + z == (a + z) + z'
  {
    forall x ensures ((a' + z') + o)[x] == (a' + o)[x] + z'[x] && ((a + z) + n)[x] == (a + n)[x] + z[x] {}
  }

  lemma {:induction false} PendingHas(records: seq<Rec>, r: nat)
    requires r < |records|
    ensures records[r].Remaining() <= Pending(records)
  {
    var last := |records| - 1;
    if r != last {
      PendingHas(records[..last], r);
      assert records[..last][r] == records[r];
    }
  }

  // ---------- what one step keeps ----------

  // Records of other living threads stay as they are.
  ghost predicate Kindly(s: State, t: nat, s': State) {
    && |s.records| <= |s'.records|
    && t in s.threads && s'.threads.Keys == s.threads.Keys
    && (forall u :: u in s.threads && u != t ==> s'.threads[u] == s.threads[u])
    && s.threads[t] != Dead
    && forall r :: 0 <= r < |s.records| && Others(s, t, s.records[r].owner) ==> s'.records[r] == s.records[r]
  }

  predicate Others(s: State, t: nat, owner: nat) {
    owner != 0 && owner != t && !IsDead(s, owner)
  }

  lemma LocalKept(c: Config, s: State, t: nat, s': State, u: nat)
    requires Kindly(s, t, s') && u in s.threads && u != t && u != 0
    requires LocalOk(c, s, u, s.threads[u])
    ensures LocalOk(c, s', u, s'.threads[u])
  {
    if s.threads[u] != Dead {
      assert forall r: nat :: Mine(s, u, r) ==> Mine(s', u, r) && s'.records[r] == s.records[r];
      assert forall d :: IsDead(s, d) ==> IsDead(s', d);
    }
  }

  // The own part of a step.
  ghost predicate Good(c: Config, s: State, t: nat, s': State) {
    && Kindly(s, t, s')
    && |s'.records| <= c.maxRecords
    && LocalOk(c, s', t, s'.threads[t])
    && (forall r {:trigger RecOk(c, s', r)} :: 0 <= r < |s'.records| ==> RecOk(c, s', r))
    && Conserved(s')
  }

  lemma GoodInv(c: Config, s: State, t: nat, s': State)
    requires Inv(c, s) && Good(c, s, t, s')
    ensures Inv(c, s')
  {
    hide RecOk, Conserved, LocalOk;
    forall u | u in s'.threads ensures LocalOk(c, s', u, s'.threads[u]) {
      if u != t { LocalKept(c, s, t, s', u); }
    }
  }

  lemma RecKept(c: Config, s: State, t: nat, s': State, r: nat)
    requires Kindly(s, t, s') && r < |s.records| && s'.records[r] == s.records[r] && RecOk(c, s, r)
    requires s'.threads[t] != Dead
    requires s.records[r].owner == t ==> r in Owned(s'.threads[t])
    ensures RecOk(c, s', r)
  {
  }

  // Steps that change no record.
  lemma GoStep(c: Config, s: State, t: nat, l: Local)
    requires Inv(c, s) && t in s.threads && s.threads[t] != Dead && l != Dead
    requires LocalOk(c, s, t, l) && Owned(l) == Owned(s.threads[t])
    ensures Good(c, s, t, Go(s, t, l))
  {
    hide Pending, LocalOk;
    var s' := Go(s, t, l);
    forall r {:trigger RecOk(c, s', r)} | 0 <= r < |s'.records| ensures RecOk(c, s', r) {
      assert RecOk(c, s, r);
      RecKept(c, s, t, s', r);
    }
    LocalMoved(c, s, t, s', l);
  }

  lemma LocalMoved(c: Config, s: State, t: nat, s': State, l: Local)
    requires t in s.threads && t in s'.threads && s'.records == s.records && LocalOk(c, s, t, l)
    requires forall u :: IsDead(s, u) ==> IsDead(s', u)
    ensures LocalOk(c, s', t, l)
  {
  }

  // Steps that change the owner or the free flag of one record.
  lemma PutStep(c: Config, s: State, t: nat, r: nat, rec: Rec, l: Local)
    requires Inv(c, s) && t in s.threads && s.threads[t] != Dead && l != Dead && r < |s.records|
    requires !Others(s, t, s.records[r].owner)
    requires rec.retired == s.records[r].retired && rec.moved == s.records[r].moved
    requires rec.owner == 0 ==> AtRest(c, rec)
    requires rec.owner == 0 || (rec.owner == t && r in Owned(l))
    requires rec.free ==> rec.retired == []
    requires forall r' :: r' != r && r' in Owned(s.threads[t]) ==> r' in Owned(l)
    requires LocalOk(c, Go(Put(s, r, rec), t, l), t, l)
    ensures Good(c, s, t, Go(Put(s, r, rec), t, l))
  {
    hide Pending, LocalOk, Owned;
    var s' := Go(Put(s, r, rec), t, l);
    forall q {:trigger RecOk(c, s', q)} | 0 <= q < |s'.records| ensures RecOk(c, s', q) {
      assert RecOk(c, s, q);
      if q != r { RecKept(c, s, t, s', q); }
    }
    PendingPut(s.records, r, rec);
    SameSum(Pending(s'.records), s.records[r].Remaining(), Pending(s.records));
  }

  lemma SameSum(a: multiset<nat>, o: multiset<nat>, b: multiset<nat>)
    requires a + o == b + o
    ensures a == b
  {
    forall x ensures a[x] == b[x] { assert (a + o)[x] == (b + o)[x]; }
  }

  // ---------- the owner's changes to a retired array ----------

  // Only the pending pointers of record r change.
  lemma Refilled(c: Config, s: State, t: nat, r: nat, rec: Rec, s': State)
    requires forall q {:trigger RecOk(c, s, q)} :: 0 <= q < |s.records| ==> RecOk(c, s, q)
    requires t != 0 && Mine(s, t, r) && t in s.threads && s.threads[t] != Dead && t in s'.threads
    requires s'.records == s.records[r := rec] && s'.threads == s.threads[t := s'.threads[t]]
    requires s'.threads[t] != Dead && Owned(s'.threads[t]) == Owned(s.threads[t])
    requires rec.owner == t && rec.Sane() && |rec.retired| <= c.capacity && (rec.free ==> rec.retired == [])
    ensures Kindly(s, t, s')
    ensures forall q {:trigger RecOk(c, s', q)} :: 0 <= q < |s'.records| ==> RecOk(c, s', q)
    ensures Pending(s'.records) + s.records[r].Remaining() == Pending(s.records) + rec.Remaining()
  {
    hide Pending, Conserved;
    forall q {:trigger RecOk(c, s', q)} | 0 <= q < |s'.records| ensures RecOk(c, s', q) {
      assert RecOk(c, s, q);
      if q != r { RecKept(c, s, t, s', q); }
    }
    PendingPut(s.records, r, rec);
  }

  lemma ScanStep(c: Config, s: State, t: nat, r: nat, observed: seq<seq<nat>>, l: Local)
    requires Inv(c, s) && t in s.threads && s.threads[t] != Dead && l != Dead && Mine(s, t, r)
    requires |observed| <= |s.records|
    requires forall k :: 0 <= k < |observed| ==> |observed[k]| == c.slots
    requires s.records[r].moved == 0 && !s.records[r].free && Owned(l) == Owned(s.threads[t])
    ensures Kindly(s, t, Go(DoScan(c, s, r, Guards(observed)), t, l))
    ensures var s' := Go(DoScan(c, s, r, Guards(observed)), t, l);
      && (forall q {:trigger RecOk(c, s', q)} :: 0 <= q < |s'.records| ==> RecOk(c, s', q))
      && Conserved(s')
      && |s'.records[r].retired| < c.capacity
  {
    hide Pending, Kept, Dropped, LocalOk, Owned;
    var guards, old_ := Guards(observed), s.records[r];
    var s' := Go(DoScan(c, s, r, guards), t, l);
    var rec := old_.(retired := Kept(c, old_.retired, guards));
    ScanSplits(c, old_.retired, guards);
    WholeRemaining(old_);
    WholeRemaining(rec);
    PendingHas(s.records, r);
    assert forall x :: multiset(old_.retired)[x] <= Pending(s.records)[x] <= 1;
    GuardsBound(observed, c.slots);
    MulMono(|observed|, c.maxRecords, c.slots);
    Refilled(c, s, t, r, rec, s');
    ScanConserves(Pending(s.records), Pending(s'.records), multiset(old_.retired), multiset(rec.retired),
                  multiset(Dropped(c, old_.retired, guards)), s.given, s.freed);
  }

  lemma WholeRemaining(r: Rec)
    requires r.moved == 0
    ensures r.Remaining() == multiset(r.retired)
  {
    assert r.retired[0..] == r.retired;
  }

  lemma MulMono(a: nat, b: nat, k: nat)
    requires a <= b
    ensures a * k <= b * k
  {
  }

  lemma ScanConserves(p: multiset<nat>, p': multiset<nat>, all: multiset<nat>, kept: multiset<nat>, dropped: multiset<nat>,
                      given: multiset<nat>, freed: multiset<nat>)
    requires p' + all == p + kept && kept + dropped == all && given == p + freed
    ensures given == p' + (freed + dropped)
    ensures forall x :: p'[x] <= p[x]
  {
    forall x ensures given[x] == (p' + (freed + dropped))[x] && p'[x] <= p[x] {
      assert (p' + all)[x] == (p + kept)[x] && (kept + dropped)[x] == all[x];
    }
  }

  lemma RetireStep(c: Config, s: State, t: nat, r: nat, p: nat)
    requires Inv(c, s) && t in s.threads && s.threads[t] == Attached(r) && p !in Pending(s.records)
    ensures DoRetire(c, s, t, r, p).Next?
    ensures Good(c, s, t, DoRetire(c, s, t, r, p).s)
  {
    hide Pending, Rec.Remaining;
    var old_ := s.records[r];
    var rec := old_.(retired := old_.retired + [p]);
    var s' := DoRetire(c, s, t, r, p).s;
    assert RecOk(c, s, r);
    Refilled(c, s, t, r, rec, s');
    WholeRemaining(old_);
    WholeRemaining(rec);
    RetireConserves(Pending(s.records), Pending(s'.records), multiset(old_.retired), p, s.given, s.freed);
  }

  lemma RetireConserves(q: multiset<nat>, q': multiset<nat>, all: multiset<nat>, p: nat, given: multiset<nat>, freed: multiset<nat>)
    requires q' + all == q + (all + multiset{p}) && given == q + freed && p !in q
    requires forall x :: q[x] <= 1
    ensures given + multiset{p} == q' + freed
    ensures forall x :: q'[x] <= 1
  {
    forall x ensures q'[x] == (q + multiset{p})[x] {
      assert (q' + all)[x] == (q + (all + multiset{p}))[x];
    }
  }

  lemma MoveStep(c: Config, s: State, t: nat, rec: nat, i: nat)
    requires Inv(c, s) && t in s.threads && s.threads[t] == Moving(rec, i)
    ensures DoMove(c, s, t, rec, i).Next?
    ensures Good(c, s, t, DoMove(c, s, t, rec, i).s)
  {
    assert RecOk(c, s, i) && RecOk(c, s, rec);
    hide Pending, Rec.Remaining, Conserved, Good;
    if s.records[i].moved >= |s.records[i].retired| { EmptyStep(c, s, t, rec, i); } else { MoveOne(c, s, t, rec, i); }
  }

  lemma EmptyStep(c: Config, s: State, t: nat, rec: nat, i: nat)
    requires Inv(c, s) && t in s.threads && s.threads[t] == Moving(rec, i)
    requires s.records[i].moved == |s.records[i].retired|
    ensures DoMove(c, s, t, rec, i).Next?
    ensures Good(c, s, t, DoMove(c, s, t, rec, i).s)
  {
    hide Pending, Rec.Remaining, RecOk;
    var src := s.records[i];
    var s' := DoMove(c, s, t, rec, i).s;
    var empty := src.(retired := [], moved := 0);
    Refilled(c, s, t, i, empty, s');
    NoneRemain(src);
    NoneRemain(empty);
    SameSum(Pending(s'.records), multiset{}, Pending(s.records));
  }

  lemma MoveOne(c: Config, s: State, t: nat, rec: nat, i: nat)
    requires Inv(c, s) && t in s.threads && s.threads[t] == Moving(rec, i)
    requires s.records[i].moved < |s.records[i].retired|
    ensures DoMove(c, s, t, rec, i).Next?
    ensures Good(c, s, t, DoMove(c, s, t, rec, i).s)
  {
    assert RecOk(c, s, i);
    MoveShape(c, s, t, rec, i);
    MoveKeeps(c, s, t, rec, i, DoMove(c, s, t, rec, i).s);
  }

  function MovedTo(s: State, rec: nat, i: nat): Rec
    requires rec < |s.records| && i < |s.records| && s.records[i].moved < |s.records[i].retired|
  {
    s.records[rec].(retired := s.records[rec].retired + [s.records[i].retired[s.records[i].moved]])
  }

  // What pushing one pointer over changes.
  lemma MoveShape(c: Config, s: State, t: nat, rec: nat, i: nat)
    requires InUse(c, s, t, rec) && Mine(s, t, i) && i != rec
    requires s.records[i].moved < |s.records[i].retired|
    ensures DoMove(c, s, t, rec, i).Next?
    ensures var s' := DoMove(c, s, t, rec, i).s; var src := s.records[i];
      && s'.records == s.records[rec := MovedTo(s, rec, i)][i := src.(moved := src.moved + 1)]
      && s'.threads == s.threads[t := s'.threads[t]] && (s'.threads[t] == Moving(rec, i) || s'.threads[t] == MoveScan(rec, i))
      && s'.given == s.given && s'.freed == s.freed
      && LocalOk(c, s', t, s'.threads[t])
  {
  }

  lemma MoveKeeps(c: Config, s: State, t: nat, rec: nat, i: nat, s': State)
    requires Inv(c, s) && t in s.threads && s.threads[t] == Moving(rec, i)
    requires RecOk(c, s, i) && s.records[i].moved < |s.records[i].retired| && t in s'.threads
    requires var src := s.records[i];
      s'.records == s.records[rec := MovedTo(s, rec, i)][i := src.(moved := src.moved + 1)]
    requires s'.threads == s.threads[t := s'.threads[t]] && (s'.threads[t] == Moving(rec, i) || s'.threads[t] == MoveScan(rec, i))
    requires s'.given == s.given && s'.freed == s.freed && LocalOk(c, s', t, s'.threads[t])
    ensures Good(c, s, t, s')
  {
    hide Pending, RecOk, Kindly, MovedTo;
    MovePending(c, s, t, rec, i, s');
  }

  lemma MovePending(c: Config, s: State, t: nat, rec: nat, i: nat, s': State)
    requires forall q {:trigger RecOk(c, s, q)} :: 0 <= q < |s.records| ==> RecOk(c, s, q)
    requires t != 0 && t in s.threads && s.threads[t] == Moving(rec, i) && t in s'.threads
    requires InUse(c, s, t, rec) && Mine(s, t, i) && i != rec
    requires RecOk(c, s, i) && s.records[i].moved < |s.records[i].retired|
    requires s'.records == s.records[rec := MovedTo(s, rec, i)][i := s.records[i].(moved := s.records[i].moved + 1)]
    requires s'.threads == s.threads[t := s'.threads[t]] && (s'.threads[t] == Moving(rec, i) || s'.threads[t] == MoveScan(rec, i))
    ensures Kindly(s, t, s')
    ensures forall q {:trigger RecOk(c, s', q)} :: 0 <= q < |s'.records| ==> RecOk(c, s', q)
    ensures Pending(s'.records) == Pending(s.records)
  {
    var src, dest := s.records[i], s.records[rec];
    var dest', src' := MovedTo(s, rec, i), src.(moved := src.moved + 1);
    hide Pending, Rec.Remaining, RecOk, Kindly;
    TwoRefilled(c, s, t, rec, i, dest', src', s');
    WholeRemaining(dest);
    WholeRemaining(dest');
    OneLess(src);
    MoveConserves(Pending(s.records), Pending(s.records[rec := dest']), Pending(s'.records),
                  multiset(dest.retired), src'.Remaining(), src.retired[src.moved]);
  }

  lemma TwoRefilled(c: Config, s: State, t: nat, rec: nat, i: nat, dest': Rec, src': Rec, s': State)
    requires forall q {:trigger RecOk(c, s, q)} :: 0 <= q < |s.records| ==> RecOk(c, s, q)
    requires t != 0 && Mine(s, t, rec) && Mine(s, t, i) && i != rec && t in s.threads && s.threads[t] != Dead && t in s'.threads
    requires s'.records == s.records[rec := dest'][i := src'] && s'.threads == s.threads[t := s'.threads[t]]
    requires s'.threads[t] != Dead && Owned(s'.threads[t]) == Owned(s.threads[t])
    requires dest'.owner == t && dest'.Sane() && |dest'.retired| <= c.capacity && (dest'.free ==> dest'.retired == [])
    requires src'.owner == t && src'.Sane() && |src'.retired| <= c.capacity && (src'.free ==> src'.retired == [])
    ensures Kindly(s, t, s')
    ensures forall q {:trigger RecOk(c, s', q)} :: 0 <= q < |s'.records| ==> RecOk(c, s', q)
    ensures Pending(s.records[rec := dest']) + s.records[rec].Remaining() == Pending(s.records) + dest'.Remaining()
    ensures Pending(s'.records) + s.records[i].Remaining() == Pending(s.records[rec := dest']) + src'.Remaining()
  {
    hide Pending, Rec.Remaining, RecOk, AtRest;
    var s1 := s.(records := s.records[rec := dest']);
    assert s1.threads == s.threads[t := s1.threads[t]];
    Refilled(c, s, t, rec, dest', s1);
    Refilled(c, s1, t, i, src', s');
  }

  lemma NoneRemain(r: Rec)
    requires r.moved == |r.retired|
    ensures r.Remaining() == multiset{}
  {
  }

  lemma OneLess(r: Rec)
    requires r.moved < |r.retired|
    ensures r.Remaining() == multiset{r.retired[r.moved]} + r.(moved := r.moved + 1).Remaining()
  {
    assert r.retired[r.moved..] == [r.retired[r.moved]] + r.retired[r.moved + 1..];
  }

  lemma MoveConserves(p: multiset<nat>, p1: multiset<nat>, p': multiset<nat>, d: multiset<nat>, rest: multiset<nat>, x: nat)
    requires p1 + d == p + (d + multiset{x})
    requires p' + (multiset{x} + rest) == p1 + rest
    ensures p' == p
  {
    forall y ensures p'[y] == p[y] {
      assert (p1 + d)[y] == (p + (d + multiset{x}))[y];
      assert (p' + (multiset{x} + rest))[y] == (p1 + rest)[y];
    }
  }

  lemma PublishStep(c: Config, s: State, t: nat)
    requires Inv(c, s) && t in s.threads && s.threads[t] == PublishCas(|s.records|) && |s.records| < c.maxRecords
    ensures Good(c, s, t, DoPublish(s, t, |s.records|))
  {
    var n := |s.records|;
    var s' := DoPublish(s, t, n);
    forall q {:trigger RecOk(c, s', q)} | 0 <= q < |s'.records| ensures RecOk(c, s', q) {
      if q < n {
        assert RecOk(c, s, q);
        RecKept(c, s, t, s', q);
      }
    }
    assert s'.records[..n] == s.records;
    assert Pending(s'.records) == Pending(s.records);
    MulMono(1, c.maxRecords, c.slots);
  }

  lemma DieStep(c: Config, s: State, t: nat)
    requires Inv(c, s) && t in s.threads && (s.threads[t] == Outside || s.threads[t].Attached?)
    ensures Good(c, s, t, Go(s, t, Dead))
  {
    hide Pending;
    var s' := Go(s, t, Dead);
    forall q {:trigger RecOk(c, s', q)} | 0 <= q < |s'.records| ensures RecOk(c, s', q) {
      assert RecOk(c, s, q);
    }
  }

  // ---------- any step ----------

  lemma IdleStep(c: Config, s: State, t: nat, ch: Choice)
    requires Inv(c, s) && t in s.threads && ChoiceOk(c, s, t, ch)
    requires s.threads[t] == Outside || s.threads[t].Attached?
    ensures Exec(c, s, t, ch).Next?
    ensures Good(c, s, t, Exec(c, s, t, ch).s)
  {
    hide Conserved;
    var l := s.threads[t];
    assert Go(s, t, l) == s by { assert s.threads[t := l] == s.threads; }
    if ch.act == Die { DieStep(c, s, t); }
    else if l == Outside && ch.act == Attach { GoStep(c, s, t, AllocHead); }
    else if l.Attached? && ch.act == Detach {
      var r := l.rec;
      PutStep(c, s, t, r, s.records[r].(owner := 0), Outside);
    }
    else if l.Attached? && ch.act.Retire? { RetireStep(c, s, t, l.rec, ch.act.p); }
    else if l.Attached? && ch.act == ScanNow { GoStep(c, s, t, Scanning(l.rec)); }
    else { GoStep(c, s, t, l); }
  }

  lemma AllocStep(c: Config, s: State, t: nat, ch: Choice)
    requires Inv(c, s) && t in s.threads && ChoiceOk(c, s, t, ch)
    requires s.threads[t].AllocHead? || s.threads[t].AllocCas? || s.threads[t].AllocClear? || s.threads[t].PublishHead? || s.threads[t].PublishCas?
    ensures Exec(c, s, t, ch).Next?
    ensures Good(c, s, t, Exec(c, s, t, ch).s)
  {
    hide Conserved, Pending;
    var l := s.threads[t];
    if l.AllocHead? { GoStep(c, s, t, if |s.records| == 0 then PublishHead else AllocCas(|s.records| - 1)); }
    else if l.AllocCas? {
      assert RecOk(c, s, l.i);
      if s.records[l.i].owner == 0 { PutStep(c, s, t, l.i, s.records[l.i].(owner := t), AllocClear(l.i)); }
      else { GoStep(c, s, t, if l.i == 0 then PublishHead else AllocCas(l.i - 1)); }
    }
    else if l.AllocClear? { PutStep(c, s, t, l.i, s.records[l.i].(free := false), Attached(l.i)); }
    else if l.PublishHead? { GoStep(c, s, t, PublishCas(|s.records|)); }
    else if l.head == |s.records| { PublishStep(c, s, t); }
    else { GoStep(c, s, t, PublishCas(|s.records|)); }
  }

  lemma LookStep(c: Config, s: State, t: nat, ch: Choice)
    requires Inv(c, s) && t in s.threads && ChoiceOk(c, s, t, ch)
    requires s.threads[t].HelpHead? || s.threads[t].HelpFree? || s.threads[t].HelpOwner? || s.threads[t].HelpAlive?
    ensures Exec(c, s, t, ch).Next?
    ensures Good(c, s, t, Exec(c, s, t, ch).s)
  {
    hide Conserved, Pending, RecOk, AtRest, Good;
    GoStep(c, s, t, Exec(c, s, t, ch).s.threads[t]);
  }

  lemma AdoptStep(c: Config, s: State, t: nat, ch: Choice)
    requires Inv(c, s) && t in s.threads && ChoiceOk(c, s, t, ch)
    requires s.threads[t].HelpCas? || s.threads[t].SetFree? || s.threads[t].Release?
    ensures Exec(c, s, t, ch).Next?
    ensures Good(c, s, t, Exec(c, s, t, ch).s)
  {
    hide Conserved, Pending, Good;
    var l := s.threads[t];
    assert RecOk(c, s, l.i) && RecOk(c, s, l.rec);
    var old_ := s.records[l.i];
    if l.SetFree? { PutStep(c, s, t, l.i, old_.(free := true), Release(l.rec, l.i)); }
    else if l.Release? { PutStep(c, s, t, l.i, old_.(owner := 0), Onward(l.rec, l.i)); }
    else if old_.owner == l.cur { PutStep(c, s, t, l.i, old_.(owner := t), Moving(l.rec, l.i)); }
    else { GoStep(c, s, t, Onward(l.rec, l.i)); }
  }

  lemma AnyScanStep(c: Config, s: State, t: nat, ch: Choice)
    requires Inv(c, s) && t in s.threads && ChoiceOk(c, s, t, ch)
    requires s.threads[t].Scanning? || s.threads[t].MoveScan?
    ensures Exec(c, s, t, ch).Next?
    ensures Good(c, s, t, Exec(c, s, t, ch).s)
  {
    hide Conserved, Pending, RecOk, Guards, Kept, Dropped;
    var l := s.threads[t];
    ScanStep(c, s, t, l.rec, ch.observed, if l.Scanning? then HelpHead(l.rec) else Moving(l.rec, l.i));
  }

  lemma MovingIs(c: Config, s: State, t: nat, ch: Choice)
    requires t in s.threads && s.threads[t].Moving?
    ensures Exec(c, s, t, ch) == DoMove(c, s, t, s.threads[t].rec, s.threads[t].i)
  {
  }

  lemma DeadStays(c: Config, s: State, t: nat, ch: Choice)
    requires t in s.threads
    ensures s.threads[t] == Dead ==> Exec(c, s, t, ch) == Next(s)
  {
  }

  lemma StepGood(c: Config, s: State, t: nat, ch: Choice)
    requires Inv(c, s) && t in s.threads && ChoiceOk(c, s, t, ch) && s.threads[t] != Dead
    ensures Exec(c, s, t, ch).Next? && Good(c, s, t, Exec(c, s, t, ch).s)
  {
    hide Inv, Good, ChoiceOk, Exec;
    var l := s.threads[t];
    if l == Outside || l.Attached? { IdleStep(c, s, t, ch); }
    else if l.AllocHead? || l.AllocCas? || l.AllocClear? || l.PublishHead? || l.PublishCas? { AllocStep(c, s, t, ch); }
    else if l.HelpHead? || l.HelpFree? || l.HelpOwner? || l.HelpAlive? { LookStep(c, s, t, ch); }
    else if l.HelpCas? || l.SetFree? || l.Release? { AdoptStep(c, s, t, ch); }
    else if l.Scanning? || l.MoveScan? { AnyScanStep(c, s, t, ch); }
    else { MoveStep(c, s, t, l.rec, l.i); MovingIs(c, s, t, ch); }
  }

  // Every step of every thread can be taken and keeps the invariant: no push overflows.
  lemma StepInv(c: Config, s: State, t: nat, ch: Choice)
    requires Inv(c, s) && t in s.threads && ChoiceOk(c, s, t, ch)
    ensures Exec(c, s, t, ch).Next?
    ensures Inv(c, Exec(c, s, t, ch).s)
  {
    hide Inv, Good, ChoiceOk, Exec;
    DeadStays(c, s, t, ch);
    if s.threads[t] != Dead {
      StepGood(c, s, t, ch);
      GoodInv(c, s, t, Exec(c, s, t, ch).s);
    }
  }

  // ---------- runs ----------

  datatype Run = Run(config: Config, states: seq<State>, who: seq<nat>, choices: seq<Choice>) {
    ghost predicate Valid() {
      && config.Roomy()
      && |states| > 0 && |who| == |choices| == |states| - 1
      && Init(states[0])
      && forall i :: 0 <= i < |who| ==> Step(config, states[i], who[i], choices[i], states[i + 1])
    }
  }

  lemma {:induction false} RunInv(r: Run, i: nat)
    requires r.Valid() && i < |r.states|
    ensures Inv(r.config, r.states[i])
  {
    if i > 0 {
      RunInv(r, i - 1);
      assert Step(r.config, r.states[i - 1], r.who[i - 1], r.choices[i - 1], r.states[i]);
      StepInv(r.config, r.states[i - 1], r.who[i - 1], r.choices[i - 1]);
    }
  }

  // In every reachable state each pointer was retired as often as it is pending in some
  // record or was freed, and it is pending at most once; a record with m_bFree set holds no
  // retired pointer; a record nobody living owns is not full.
  lemma NothingLost(r: Run, i: nat)
    requires r.Valid() && i < |r.states|
    ensures r.states[i].given == Pending(r.states[i].records) + r.states[i].freed
    ensures forall p :: Pending(r.states[i].records)[p] <= 1
    ensures forall k :: 0 <= k < |r.states[i].records| && r.states[i].records[k].free ==> r.states[i].records[k].retired == []
    ensures forall k :: 0 <= k < |r.states[i].records| && r.states[i].records[k].owner == 0 ==>
      |r.states[i].records[k].retired| < r.config.capacity
  {
    RunInv(r, i);
    var s := r.states[i];
    forall k | 0 <= k < |s.records|
      ensures s.records[k].free ==> s.records[k].retired == []
      ensures s.records[k].owner == 0 ==> |s.records[k].retired| < r.config.capacity
    {
      assert RecOk(r.config, s, k);
    }
  }

  // No push of any reachable step finds its array full.
  lemma NoOverflow(r: Run, i: nat, t: nat, ch: Choice)
    requires r.Valid() && i < |r.states|
    requires t in r.states[i].threads && ChoiceOk(r.config, r.states[i], t, ch)
    ensures Exec(r.config, r.states[i], t, ch) != Fault
  {
    RunInv(r, i);
    StepInv(r.config, r.states[i], t, ch);
  }

  // ---------- how much room is needed ----------

  ghost predicate Shaped(observed: seq<seq<nat>>, n: nat, slots: nat) {
    |observed| == n && forall r :: 0 <= r < n ==> |observed[r]| == slots
  }

  // A scan of a full array of distinct non-null pointers is sure to make room exactly when
  // the capacity is above the number of hazard slots.
  lemma RoomExactly(c: Config, s: seq<nat>, n: nat)
    requires Distinct(s) && 0 !in s && |s| == c.capacity && c.slots > 0
    ensures (forall o :: Shaped(o, n, c.slots) ==> |Kept(c, s, Guards(o))| < c.capacity) <==> n * c.slots < c.capacity
  {
    forall x ensures multiset(s)[x] <= 1 { DistinctOnce(s, x); }
    if n * c.slots < c.capacity {
      forall o | Shaped(o, n, c.slots) ensures |Kept(c, s, Guards(o))| < c.capacity {
        ScanSplits(c, s, Guards(o));
        GuardsBound(o, c.slots);
      }
    } else {
      var o := Spread(s, n, c.slots);
      SpreadGuards(s, n, c.slots);
      KeepsAll(c, s, Guards(o));
      assert Shaped(o, n, c.slots);
    }
  }

  // The pointers of s laid out over n records of k slots.
  ghost function Spread(s: seq<nat>, n: nat, k: nat): (o: seq<seq<nat>>)
    ensures Shaped(o, n, k)
  {
    seq(n, r => seq(k, i => if 0 <= r * k + i < |s| then s[r * k + i] else 0))
  }

  lemma SpreadGuards(s: seq<nat>, n: nat, k: nat)
    requires 0 !in s && k > 0 && |s| <= n * k
    ensures forall x :: x in s ==> x in Guards(Spread(s, n, k))
  {
    var o := Spread(s, n, k);
    forall x | x in s ensures x in Guards(o) {
      var j: nat :| j < |s| && s[j] == x;
      Row(j, n, k);
      assert o[j / k][j % k] == x;
    }
  }

  lemma Row(j: nat, n: nat, k: nat)
    requires k > 0 && j < n * k
    ensures 0 <= j / k < n && 0 <= j % k < k && j / k * k + j % k == j
  {
    if j / k >= n { MulMono(n, j / k, k); }
  }

  // When everything is guarded nothing goes.
  lemma KeepsAll(c: Config, s: seq<nat>, guards: set<nat>)
    requires forall x :: x in s ==> x in guards
    requires forall x :: multiset(s)[x] <= 1
    ensures |Kept(c, s, guards)| == |s|
  {
    var d: multiset<nat> := multiset(Dropped(c, s, guards));
    var k: multiset<nat> := multiset(Kept(c, s, guards));
    ScanSplits(c, s, guards);
    forall x: nat ensures d[x] == 0 {
      CountBoth(s, guards, x);
      assert (k + d)[x] == multiset(s)[x];
    }
    assert d == multiset{};
    assert |multiset(Kept(c, s, guards))| == |multiset(s)|;
  }
}
