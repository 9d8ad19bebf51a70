// The two scans of the hazard-pointer collector, lib/libcds/src/hzp_gc.cpp.  Pointers are
// numbers, null is 0, the lowest bit is the parity.  A scan reads the hazard slots of
// every listed record one after the other while their owners keep rewriting them;
// `observed[r][i]` is what its read of slot i of record r returned.

module HazardScan {
  import opened Sequences

  // ---------- sequences ----------

  predicate Sorted(s: seq<nat>) {
    forall i, j :: 0 <= i < j < |s| ==> s[i] <= s[j]
  }

  function Filter(s: seq<nat>, keep: set<nat>): (r: seq<nat>)
    ensures |r| <= |s|
    ensures forall x :: x in r <==> x in s && x in keep
  {
    if s == [] then []
    else
      var last := |s| - 1;
      Filter(s[..last], keep) + (if s[last] in keep then [s[last]] else [])
  }

  function Reject(s: seq<nat>, keep: set<nat>): (r: seq<nat>)
    ensures |r| <= |s|
    ensures forall x :: x in r <==> x in s && x !in keep
  {
    if s == [] then []
    else
      var last := |s| - 1;
      Reject(s[..last], keep) + (if s[last] in keep then [] else [s[last]])
  }

  // A scan loses nothing and invents nothing.
  lemma {:induction false} Partition(s: seq<nat>, keep: set<nat>)
    ensures multiset(Filter(s, keep)) + multiset(Reject(s, keep)) == multiset(s)
  {
    if s != [] {
      var last := |s| - 1;
      assert s == s[..last] + [s[last]];
      Partition(s[..last], keep);
    }
  }

  lemma {:induction false} FilterCount(s: seq<nat>, keep: set<nat>, x: nat)
    ensures multiset(Filter(s, keep))[x] == if x in keep then multiset(s)[x] else 0
    ensures multiset(Reject(s, keep))[x] == if x in keep then 0 else multiset(s)[x]
  {
    if s != [] {
      var last := |s| - 1;
      assert s == s[..last] + [s[last]];
      FilterCount(s[..last], keep, x);
    }
  }

  // ---------- library routines the scans call ----------

  function Insert(s: seq<nat>, x: nat): (r: seq<nat>)
    ensures multiset(r) == multiset(s) + multiset{x} && |r| == |s| + 1
  {
    if s == [] || x <= s[0] then [x] + s
    else
      assert s == [s[0]] + s[1..];
      [s[0]] + Insert(s[1..], x)
  }

  lemma {:induction false} InsertSorted(s: seq<nat>, x: nat)
    requires Sorted(s)
    ensures Sorted(Insert(s, x))
  {
    if s != [] && x > s[0] {
      InsertSorted(s[1..], x);
      var r := Insert(s[1..], x);
      forall j | 0 <= j < |r| ensures s[0] <= r[j] {
        assert r[j] in multiset(s[1..]) + multiset{x};
      }
    }
  }

  // std::sort
  function SortSeq(s: seq<nat>): (r: seq<nat>)
    ensures multiset(r) == multiset(s) && |r| == |s|
  {
    if s == [] then []
    else
      assert s == [s[0]] + s[1..];
      Insert(SortSeq(s[1..]), s[0])
  }

  lemma {:induction false} SortSorted(s: seq<nat>)
    ensures Sorted(SortSeq(s))
    ensures forall y :: y in SortSeq(s) <==> y in s
  {
    if s != [] {
      SortSorted(s[1..]);
      InsertSorted(SortSeq(s[1..]), s[0]);
    }
    assert forall y :: y in SortSeq(s) <==> y in multiset(SortSeq(s));
  }

  // std::lower_bound.  Whatever the order, it stops where the elements stop being smaller.
  method LowerBound(s: seq<nat>, v: nat) returns (it: nat)
    ensures it <= |s|
    ensures it < |s| ==> s[it] >= v
    ensures it > 0 ==> s[it - 1] < v
  {
    var lo, hi := 0, |s|;
    while lo < hi
      invariant lo <= hi <= |s|
      invariant lo > 0 ==> s[lo - 1] < v
      invariant hi < |s| ==> s[hi] >= v
    {
      var mid := (lo + hi) / 2;
      if s[mid] < v { lo := mid + 1; } else { hi := mid; }
    }
    it := lo;
  }

  // std::binary_search
  method BinarySearch(s: seq<nat>, v: nat) returns (found: bool)
    requires Sorted(s)
    ensures found <==> v in s
  {
    var it := LowerBound(s, v);
    found := it < |s| && s[it] == v;
  }

  // ---------- guards ----------

  // The non-null values a scan read from the hazard slots.
  ghost function Guards(observed: seq<seq<nat>>): set<nat> {
    set r, i | 0 <= r < |observed| && 0 <= i < |observed[r]| && observed[r][i] != 0 :: observed[r][i]
  }

  // The collector's memory at the moment of each read: moments[r][i] is the value of every
  // slot when slot i of record r was read.
  ghost predicate ReadFrom(observed: seq<seq<nat>>, moments: seq<seq<seq<seq<nat>>>>) {
    && |moments| == |observed|
    && (forall r :: 0 <= r < |observed| ==> |moments[r]| == |observed[r]|)
    && (forall r, i :: 0 <= r < |observed| && 0 <= i < |observed[r]| ==>
          r < |moments[r][i]| && i < |moments[r][i][r]| && observed[r][i] == moments[r][i][r][i])
  }

  // One slot of one listed record holds p from the first read to the last.
  ghost predicate HeldThroughout(moments: seq<seq<seq<seq<nat>>>>, r: nat, i: nat, p: nat) {
    && r < |moments| && i < |moments[r]|
    && (forall r', i' :: 0 <= r' < |moments| && 0 <= i' < |moments[r']| ==>
          r < |moments[r'][i']| && i < |moments[r'][i'][r]| && moments[r'][i'][r][i] == p)
  }

  // Such a pointer is a guard, whatever the other slots did meanwhile.
  lemma HeldIsGuard(observed: seq<seq<nat>>, moments: seq<seq<seq<seq<nat>>>>, r: nat, i: nat, p: nat)
    requires ReadFrom(observed, moments) && HeldThroughout(moments, r, i, p) && p != 0
    ensures p in Guards(observed)
  {
    assert observed[r][i] == p;
  }

  // ---------- the retired array ----------

  class RetiredVector {
    var arr: array<nat>
    var size: nat

    ghost predicate Valid() reads this { size <= arr.Length }

    ghost function Contents(): (s: seq<nat>)
      reads this, arr
      requires Valid()
    {
      arr[..size]
    }

    constructor (capacity: nat)
      ensures Valid() && fresh(arr) && arr.Length == capacity && Contents() == []
    {
      arr := new nat[capacity];
      size := 0;
    }

    method Push(p: nat)
      requires Valid() && size < arr.Length
      modifies this`size, arr
      ensures Valid() && Contents() == old(Contents()) + [p]
      ensures forall k :: 0 <= k < arr.Length && k != old(size) ==> arr[k] == old(arr[k])
    {
      arr[size] := p;
      size := size + 1;
    }

    method IsFull() returns (full: bool)
      requires Valid()
      ensures full <==> |Contents()| == arr.Length
    {
      full := size >= arr.Length;
    }

    // Only the counter is reset; the elements stay where they are.
    method Clear()
      requires Valid()
      modifies this`size
      ensures Valid() && Contents() == [] && arr[..] == old(arr[..])
    {
      size := 0;
    }
  }

  // ---------- classic_scan ----------

  // Stage 1: the non-null hazard values.
  method CollectGuards(observed: seq<seq<nat>>) returns (plist: seq<nat>)
    ensures forall p :: p in plist <==> p in Guards(observed)
  {
    plist := [];
    for r := 0 to |observed|
      invariant forall p :: p in plist <==> p in Guards(observed[..r])
    {
      for i := 0 to |observed[r]|
        invariant forall p :: p in plist <==> p in Guards(observed[..r]) || (p != 0 && p in observed[r][..i])
      {
        var hptr := observed[r][i];
        assert observed[r][..i + 1] == observed[r][..i] + [hptr];
        if hptr != 0 {
          plist := plist + [hptr];
        }
      }
      assert observed[r][..|observed[r]|] == observed[r];
      GuardsOfPrefix(observed, r);
    }
    assert observed[..|observed|] == observed;
  }

  method SortedGuards(observed: seq<seq<nat>>) returns (plist: seq<nat>)
    ensures Sorted(plist)
    ensures forall p :: p in plist <==> p in Guards(observed)
  {
    plist := CollectGuards(observed);
    SortSorted(plist);
    plist := SortSeq(plist);
  }

  lemma GuardsOfPrefix(observed: seq<seq<nat>>, r: nat)
    requires r < |observed|
    ensures forall p :: p in Guards(observed[..r + 1]) <==> p in Guards(observed[..r]) || (p != 0 && p in observed[r])
  {
    var a, b := observed[..r], observed[..r + 1];
    forall p ensures p in Guards(b) <==> p in Guards(a) || (p != 0 && p in observed[r]) {
      if p in Guards(a) {
        var r0, i :| 0 <= r0 < |a| && 0 <= i < |a[r0]| && a[r0][i] != 0 && a[r0][i] == p;
        assert b[r0][i] == p;
      }
      if p != 0 && p in observed[r] {
        var i :| 0 <= i < |observed[r]| && observed[r][i] == p;
        assert b[r][i] == p;
      }
      if p in Guards(b) {
        var r0, i :| 0 <= r0 < |b| && 0 <= i < |b[r0]| && b[r0][i] != 0 && b[r0][i] == p;
        if r0 < r { assert a[r0][i] == p; }
      }
    }
  }

  // Keeps the guarded pointers in order and frees the others, rewriting the array while
  // reading it.
  method ClassicScan(vec: RetiredVector, observed: seq<seq<nat>>) returns (freed: seq<nat>)
    requires vec.Valid()
    modifies vec`size, vec.arr
    ensures vec.Valid()
    ensures vec.Contents() == Filter(old(vec.Contents()), Guards(observed))
    ensures freed == Reject(old(vec.Contents()), Guards(observed))
  {
    hide Guards, Sorted;
    ghost var before := vec.Contents();
    ghost var guards := Guards(observed);
    var sorted := SortedGuards(observed);
    var end := vec.size;
    vec.Clear();
    freed := [];
    var it := 0;
    while it < end
      invariant it <= end == |before| <= vec.arr.Length
      invariant vec.Valid() && vec.size <= it
      invariant vec.arr == old(vec.arr)
      invariant forall k :: it <= k < end ==> vec.arr[k] == before[k]
      invariant vec.Contents() == Filter(before[..it], guards)
      invariant freed == Reject(before[..it], guards)
    {
      TakeOne(before, it, guards);
      freed := KeepOrFree(vec, it, sorted, freed);
      it := it + 1;
    }
    assert before[..end] == before;
  }

  // The loop body of stage 2.
  method KeepOrFree(vec: RetiredVector, it: nat, sorted: seq<nat>, freed: seq<nat>) returns (freed': seq<nat>)
    requires vec.Valid() && vec.size <= it < vec.arr.Length
    requires Sorted(sorted)
    modifies vec`size, vec.arr
    ensures vec.Valid() && vec.size <= it + 1
    ensures forall k :: it < k < vec.arr.Length ==> vec.arr[k] == old(vec.arr[k])
    ensures vec.Contents() == old(vec.Contents()) + (if old(vec.arr[it]) in sorted then [old(vec.arr[it])] else [])
    ensures freed' == freed + (if old(vec.arr[it]) in sorted then [] else [old(vec.arr[it])])
  {
    var p := vec.arr[it];
    freed' := freed;
    var found := BinarySearch(sorted, p);
    if found {
      vec.Push(p);
    } else {
      freed' := freed' + [p];
    }
  }

  lemma TakeOne(s: seq<nat>, i: nat, keep: set<nat>)
    requires i < |s|
    ensures Filter(s[..i + 1], keep) == Filter(s[..i], keep) + (if s[i] in keep then [s[i]] else [])
    ensures Reject(s[..i + 1], keep) == Reject(s[..i], keep) + (if s[i] in keep then [] else [s[i]])
  {
    assert s[..i + 1][..i] == s[..i];
  }

  // ---------- inplace_scan ----------

  predicate Even(s: seq<nat>) {
    forall k :: 0 <= k < |s| ==> s[k] % 2 == 0
  }

  function SetMark(p: nat): nat { if p % 2 == 0 then p + 1 else p }

  function ClearMark(p: nat): nat { p - p % 2 }

  // The first copy of each guarded pointer is kept, all else is freed.
  predicate KeptAt(s: seq<nat>, guards: set<nat>, k: nat)
    requires k < |s|
  {
    s[k] in guards && s[k] !in s[..k]
  }

  ghost function KeepFirst(s: seq<nat>, guards: set<nat>): seq<nat> {
    if s == [] then []
    else
      var last := |s| - 1;
      KeepFirst(s[..last], guards) + (if KeptAt(s, guards, last) then [s[last]] else [])
  }

  ghost function FreeRest(s: seq<nat>, guards: set<nat>): seq<nat> {
    if s == [] then []
    else
      var last := |s| - 1;
      FreeRest(s[..last], guards) + (if KeptAt(s, guards, last) then [] else [s[last]])
  }

  // The array while the hazard slots are searched: the first copies of the pointers in
  // marks carry the tag.
  ghost predicate Tagged(t: seq<nat>, s: seq<nat>, marks: set<nat>) {
    && |t| == |s|
    && forall k :: 0 <= k < |s| ==> t[k] == if KeptAt(s, marks, k) then s[k] + 1 else s[k]
  }

  // Tagging keeps lower_bound working: for an even pointer it still finds the first copy.
  lemma SearchTagged(t: seq<nat>, s: seq<nat>, marks: set<nat>, p: nat, it: nat)
    requires Sorted(s) && Even(s) && Tagged(t, s, marks)
    requires it <= |t|
    requires it < |t| ==> t[it] >= p
    requires it > 0 ==> t[it - 1] < p
    ensures p % 2 == 0 && it < |t| ==> (p in s <==> s[it] == p)
    ensures p % 2 == 0 && it == |t| ==> p !in s
    ensures p % 2 == 0 ==> p !in s[..it]
  {
    if p % 2 == 0 {
      if it > 0 {
        forall k | 0 <= k < it ensures s[k] < p {
          assert s[k] <= s[it - 1] <= t[it - 1];
        }
      }
      if it < |t| {
        assert s[it] % 2 == 0 && s[it] >= p;
        forall k | it < k < |s| ensures s[it] <= s[k] {}
      }
    }
  }

  // The step for one hazard value.
  lemma TagOne(t: seq<nat>, s: seq<nat>, marks: set<nat>, p: nat, it: nat, t': seq<nat>)
    requires Sorted(s) && Even(s) && Tagged(t, s, marks)
    requires it <= |t|
    requires it < |t| ==> t[it] >= p
    requires it > 0 ==> t[it - 1] < p
    requires t' == if it < |t| && t[it] == p then t[it := SetMark(p)] else t
    ensures Tagged(t', s, marks + {p})
  {
    SearchTagged(t, s, marks, p, it);
    forall k | 0 <= k < |s|
      ensures t'[k] == if KeptAt(s, marks + {p}, k) then s[k] + 1 else s[k]
    {
      if s[k] == p && p !in marks {
        assert s[k] % 2 == 0;
        assert p !in s[..it];
        assert k >= it by { assert forall j :: 0 <= j < it ==> s[..it][j] == s[j]; }
        if k > it { assert s[it] == p && s[..k][it] == p; }
      }
    }
  }

  // Stages 1 and 2: check the parities, sort, and tag what the hazard slots hold.
  method AllEven(vec: RetiredVector) returns (even: bool)
    requires vec.Valid()
    ensures even <==> Even(vec.Contents())
  {
    even := true;
    var it := 0;
    while it < vec.size
      invariant it <= vec.size
      invariant even <==> Even(vec.Contents()[..it])
    {
      if vec.arr[it] % 2 == 1 {
        even := false;
      }
      assert vec.Contents()[..it + 1] == vec.Contents()[..it] + [vec.arr[it]];
      it := it + 1;
    }
    assert vec.Contents()[..it] == vec.Contents();
  }

  method SortArray(vec: RetiredVector)
    requires vec.Valid()
    modifies vec.arr
    ensures vec.Valid() && vec.Contents() == SortSeq(old(vec.Contents()))
  {
    var s := SortSeq(vec.arr[..vec.size]);
    for i := 0 to vec.size
      invariant vec.arr[..i] == s[..i]
    {
      vec.arr[i] := s[i];
    }
    assert s[..vec.size] == s;
  }

  method TagGuarded(vec: RetiredVector, observed: seq<seq<nat>>, ghost s: seq<nat>)
    requires vec.Valid() && vec.Contents() == s && Sorted(s) && Even(s)
    modifies vec.arr
    ensures vec.Valid() && Tagged(vec.Contents(), s, Guards(observed))
  {
    ghost var marks: set<nat> := {};
    for r := 0 to |observed|
      invariant vec.Valid() && Tagged(vec.Contents(), s, marks)
      invariant marks == Guards(observed[..r])
    {
      for i := 0 to |observed[r]|
        invariant vec.Valid() && Tagged(vec.Contents(), s, marks)
        invariant forall p :: p in marks <==> p in Guards(observed[..r]) || (p != 0 && p in observed[r][..i])
      {
        var hptr := observed[r][i];
        assert observed[r][..i + 1] == observed[r][..i] + [hptr];
        if hptr != 0 {
          TagSlot(vec, hptr, s, marks);
          marks := marks + {hptr};
        }
      }
      assert observed[r][..|observed[r]|] == observed[r];
      GuardsOfPrefix(observed, r);
      assert marks == Guards(observed[..r + 1]);
    }
    assert observed[..|observed|] == observed;
  }

  method TagSlot(vec: RetiredVector, hptr: nat, ghost s: seq<nat>, ghost marks: set<nat>)
    requires vec.Valid() && Sorted(s) && Even(s) && Tagged(vec.Contents(), s, marks)
    modifies vec.arr
    ensures vec.Valid() && Tagged(vec.Contents(), s, marks + {hptr})
  {
    ghost var t := vec.Contents();
    var it := LowerBound(vec.arr[..vec.size], hptr);
    if it < vec.size && vec.arr[it] == hptr {
      vec.arr[it] := SetMark(hptr);
      assert vec.Contents() == t[it := SetMark(hptr)];
    }
    TagOne(t, s, marks, hptr, it, vec.Contents());
  }

  // Stage 3: move the tagged pointers to the front, without their tags, and free the rest.
  method Compact(vec: RetiredVector, ghost s: seq<nat>, ghost guards: set<nat>) returns (freed: seq<nat>)
    requires vec.Valid() && Even(s) && |vec.Contents()| == |s| && Tagged(vec.Contents(), s, guards)
    modifies vec`size, vec.arr
    ensures vec.Valid()
    ensures vec.Contents() == KeepFirst(s, guards)
    ensures freed == FreeRest(s, guards)
  {
    hide SetMark, ClearMark, Even, Tagged, KeptAt;
    freed := [];
    ghost var t := vec.Contents();
    var ins, it := 0, 0;
    while it < vec.size
      invariant ins <= it <= vec.size == |s|
      invariant vec.arr == old(vec.arr)
      invariant forall k :: it <= k < vec.size ==> vec.arr[k] == t[k]
      invariant vec.arr[..ins] == KeepFirst(s[..it], guards)
      invariant freed == FreeRest(s[..it], guards)
    {
      KeepOne(s, it, guards);
      Untag(t, s, guards, it);
      if vec.arr[it] % 2 == 1 {
        vec.arr[it] := ClearMark(vec.arr[it]);
        vec.arr[ins] := vec.arr[it];
        ins := ins + 1;
      } else {
        freed := freed + [vec.arr[it]];
      }
      it := it + 1;
    }
    assert s[..|s|] == s;
    vec.size := ins;
  }

  lemma Untag(t: seq<nat>, s: seq<nat>, marks: set<nat>, k: nat)
    requires Even(s) && Tagged(t, s, marks) && k < |s|
    ensures |t| == |s|
    ensures t[k] % 2 == 1 <==> KeptAt(s, marks, k)
    ensures KeptAt(s, marks, k) ==> ClearMark(t[k]) == s[k]
    ensures !KeptAt(s, marks, k) ==> t[k] == s[k]
  {
    assert s[k] % 2 == 0;
  }

  lemma KeepOne(s: seq<nat>, i: nat, guards: set<nat>)
    requires i < |s|
    ensures KeepFirst(s[..i + 1], guards) == KeepFirst(s[..i], guards) + (if KeptAt(s, guards, i) then [s[i]] else [])
    ensures FreeRest(s[..i + 1], guards) == FreeRest(s[..i], guards) + (if KeptAt(s, guards, i) then [] else [s[i]])
  {
    assert s[..i + 1][..i] == s[..i];
  }

  // The whole in-place scan, for every content of the array.
  method InplaceScan(vec: RetiredVector, observed: seq<seq<nat>>) returns (freed: seq<nat>)
    requires vec.Valid()
    modifies vec`size, vec.arr
    ensures vec.Valid()
    ensures !Even(old(vec.Contents())) ==>
              && vec.Contents() == Filter(old(vec.Contents()), Guards(observed))
              && freed == Reject(old(vec.Contents()), Guards(observed))
    ensures Even(old(vec.Contents())) ==>
              && vec.Contents() == KeepFirst(SortSeq(old(vec.Contents())), Guards(observed))
              && freed == FreeRest(SortSeq(old(vec.Contents())), Guards(observed))
  {
    var even := AllEven(vec);
    if !even {
      freed := ClassicScan(vec, observed);
      return;
    }
    ghost var before := vec.Contents();
    SortArray(vec);
    SortSorted(before);
    ghost var s := vec.Contents();
    assert Even(s) by {
      forall k | 0 <= k < |s| ensures s[k] % 2 == 0 { assert s[k] in before; }
    }
    TagGuarded(vec, observed, s);
    freed := Compact(vec, s, Guards(observed));
  }

  // ---------- the fast form against the simple one ----------

  lemma {:induction false} KeepCount(s: seq<nat>, guards: set<nat>, x: nat)
    ensures multiset(KeepFirst(s, guards))[x] == if x in guards && x in s then 1 else 0
    ensures multiset(KeepFirst(s, guards))[x] + multiset(FreeRest(s, guards))[x] == multiset(s)[x]
  {
    if s != [] {
      var last := |s| - 1;
      assert s == s[..last] + [s[last]];
      KeepCount(s[..last], guards, x);
    }
  }

  // No guarded pointer was retired twice.
  ghost predicate GuardedOnce(s: seq<nat>, guards: set<nat>) {
    forall x :: x in s && x in guards ==> multiset(s)[x] == 1
  }

  lemma CountBoth(s: seq<nat>, guards: set<nat>, x: nat)
    ensures multiset(KeepFirst(SortSeq(s), guards))[x] == if x in guards && x in s then 1 else 0
    ensures multiset(KeepFirst(SortSeq(s), guards))[x] + multiset(FreeRest(SortSeq(s), guards))[x] == multiset(s)[x]
    ensures multiset(Filter(s, guards))[x] == if x in guards then multiset(s)[x] else 0
    ensures multiset(Filter(s, guards))[x] + multiset(Reject(s, guards))[x] == multiset(s)[x]
    ensures multiset(s)[x] > 0 <==> x in s
  {
    SortSorted(s);
    KeepCount(SortSeq(s), guards, x);
    FilterCount(s, guards, x);
  }

  // On even pointers the in-place scan keeps and frees the same pointers as the classic
  // one, as multisets, exactly when no guarded pointer was retired twice.
  lemma ScansAgree(s: seq<nat>, guards: set<nat>)
    ensures GuardedOnce(s, guards) <==>
              && multiset(KeepFirst(SortSeq(s), guards)) == multiset(Filter(s, guards))
              && multiset(FreeRest(SortSeq(s), guards)) == multiset(Reject(s, guards))
  {
    forall x: nat
      ensures multiset(KeepFirst(SortSeq(s), guards))[x] == if x in guards && x in s then 1 else 0
      ensures multiset(KeepFirst(SortSeq(s), guards))[x] + multiset(FreeRest(SortSeq(s), guards))[x] == multiset(s)[x]
      ensures multiset(Filter(s, guards))[x] == if x in guards then multiset(s)[x] else 0
      ensures multiset(Filter(s, guards))[x] + multiset(Reject(s, guards))[x] == multiset(s)[x]
      ensures multiset(s)[x] > 0 <==> x in s
    {
      CountBoth(s, guards, x);
    }
    SameWhenOnce(s, guards, multiset(KeepFirst(SortSeq(s), guards)), multiset(FreeRest(SortSeq(s), guards)),
                 multiset(Filter(s, guards)), multiset(Reject(s, guards)));
  }

  lemma SameWhenOnce(s: seq<nat>, guards: set<nat>, k: multiset<nat>, f: multiset<nat>, k': multiset<nat>, f': multiset<nat>)
    requires forall x: nat :: k[x] == if x in guards && x in s then 1 else 0
    requires forall x: nat :: k[x] + f[x] == multiset(s)[x]
    requires forall x: nat :: k'[x] == if x in guards then multiset(s)[x] else 0
    requires forall x: nat :: k'[x] + f'[x] == multiset(s)[x]
    requires forall x: nat :: multiset(s)[x] > 0 <==> x in s
    ensures GuardedOnce(s, guards) <==> k == k' && f == f'
  {
    if GuardedOnce(s, guards) {
      assert forall x: nat :: k[x] == k'[x];
    }
    if k == k' {
      forall x: nat | x in s && x in guards ensures multiset(s)[x] == 1 {
        assert k[x] == k'[x];
      }
    }
  }

  // Distinct pointers in particular are treated alike.
  lemma DistinctAgree(s: seq<nat>, guards: set<nat>)
    requires Distinct(s)
    ensures multiset(KeepFirst(SortSeq(s), guards)) == multiset(Filter(s, guards))
    ensures multiset(FreeRest(SortSeq(s), guards)) == multiset(Reject(s, guards))
  {
    assert GuardedOnce(s, guards) by {
      forall x | x in s ensures multiset(s)[x] == 1 { DistinctOnce(s, x); }
    }
    ScansAgree(s, guards);
  }

  lemma {:induction false} DistinctOnce(s: seq<nat>, x: nat)
    requires Distinct(s)
    ensures multiset(s)[x] == if x in s then 1 else 0
  {
    if s != [] {
      var last := |s| - 1;
      assert s == s[..last] + [s[last]];
      DistinctOnce(s[..last], x);
    }
  }

  // A pointer that one slot of a listed record holds while the slots are read is not freed,
  // in either scan, if it was retired once.
  lemma HeldNotFreed(s: seq<nat>, observed: seq<seq<nat>>, moments: seq<seq<seq<seq<nat>>>>, r: nat, i: nat, p: nat)
    requires ReadFrom(observed, moments) && HeldThroughout(moments, r, i, p) && p != 0
    ensures p !in Reject(s, Guards(observed))
    ensures multiset(s)[p] <= 1 ==> p !in FreeRest(SortSeq(s), Guards(observed))
    ensures p in s ==> p in KeepFirst(SortSeq(s), Guards(observed))
  {
    HeldIsGuard(observed, moments, r, i, p);
    SortSorted(s);
    KeepCount(SortSeq(s), Guards(observed), p);
    var kept: multiset<nat> := multiset(KeepFirst(SortSeq(s), Guards(observed)));
    var freed: multiset<nat> := multiset(FreeRest(SortSeq(s), Guards(observed)));
    assert multiset(s)[p] > 0 <==> p in s;
    assert kept[p] + freed[p] == multiset(s)[p];
  }
}
