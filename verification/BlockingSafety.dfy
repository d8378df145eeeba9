/**
 Every step keeps the invariant, and no enabled step can panic, follow a dead pointer or break a lock.
 */
module BlockingSafety {
  import opened Prelude
  import opened BlockingPool
  import opened BlockingInvariant
  import opened BlockingFrame

  ghost predicate Stepping(st: State, i: nat) {
    Inv(st) && FutReady(st, i) && !FutFaults(st, i)
  }

  // What the step of a future on a slot needs to know of the two.
  ghost predicate OnSlot(st: State, i: nat) {
    && Shape(st) && FutReady(st, i) && !FutFaults(st, i) && FutOk(st, i)
    && (FutSlot(st.At(i)).Some? ==> SlotOk(st, FutSlot(st.At(i)).value))
  }

  lemma FutSafe(st: State, i: nat)
    requires Inv(st) && FutReady(st, i)
    ensures !FutFaults(st, i)
  {
    hide WorkOk;
    assert FutOk(st, i);
    if RefOf(st.futs[i]).Some? {
      FutOwns(st, i);
      assert SlotOk(st, RefOf(st.futs[i]).value);
    }
  }

  // ---------------------------------------------------------------- a future and the slot it owns

  // Once its result is published, no worker holds the closure of a future.
  lemma DoneSole(st: State, i: nat, s: nat)
    requires Inv(st) && s < |st.slots| && st.phase[s].PDone? && st.phase[s].f == i
    ensures SoleUser(st, None, i)
  {
    hide FutOk;
    assert SlotOk(st, s);
    forall m | 0 <= m < |st.workers| && UsesLife(st.workers[m]) && HandledBy(st.workers[m]).value < |st.slots|
      ensures Submitter(st.phase[HandledBy(st.workers[m]).value]) != Some(i)
    {
      var t := HandledBy(st.workers[m]).value;
      assert WorkOk(st, m) && SlotOk(st, t);
      SlotNames(st, s);
      SlotNames(st, t);
    }
  }

  lemma WritingOwn(st: State, i: nat)
    requires OnSlot(st, i) && (st.At(i).SetWaker? || st.At(i).WriteShared? || st.At(i).WriteRunner?)
    ensures FutOk(FutNext(st, i), i) && SlotOk(FutNext(st, i), st.At(i).s)
  {
    hide FutFaults;
  }

  lemma WritingKeeps(st: State, i: nat)
    requires Stepping(st, i) && (st.At(i).SetWaker? || st.At(i).WriteShared? || st.At(i).WriteRunner?)
    ensures Inv(FutNext(st, i))
  {
    hide WorkOk, Touch, GlobalOk, FutFaults;
    var s := st.At(i).s;
    assert FutOk(st, i) && SlotOk(st, s);
    WritingOwn(st, i);
    SlotNames(st, s);
    hide SlotOk;
    var st' := FutNext(st, i);
    OwnTouch(st, st', i, s);
    TouchKeeps(st, st', Touched(Some(i), None, Some(s)));
  }

  lemma PollingOwn(st: State, i: nat)
    requires OnSlot(st, i) && (st.At(i).StoreQueued? || st.At(i).ResetWaker? || st.At(i).LoadState?)
    ensures FutOk(FutNext(st, i), i) && SlotOk(FutNext(st, i), st.At(i).s)
  {
    hide FutFaults;
  }

  lemma PollingKeeps(st: State, i: nat)
    requires Stepping(st, i) && (st.At(i).StoreQueued? || st.At(i).ResetWaker? || st.At(i).LoadState?)
    ensures Inv(FutNext(st, i))
  {
    hide WorkOk, Touch, GlobalOk, FutFaults;
    var s := st.At(i).s;
    assert FutOk(st, i) && SlotOk(st, s);
    PollingOwn(st, i);
    var st' := FutNext(st, i);
    OwnTouch(st, st', i, s);
    TouchKeeps(st, st', Touched(Some(i), None, Some(s)));
  }

  lemma StartingOwn(st: State, i: nat)
    requires OnSlot(st, i) && st.At(i).StartCas?
    ensures FutOk(FutNext(st, i), i) && SlotOk(FutNext(st, i), st.At(i).s)
  {
    hide FutFaults;
  }

  lemma StartingKeeps(st: State, i: nat)
    requires Stepping(st, i) && st.At(i).StartCas?
    ensures Inv(FutNext(st, i))
  {
    hide WorkOk, Touch, GlobalOk, FutFaults;
    var s := st.At(i).s;
    assert FutOk(st, i) && SlotOk(st, s);
    StartingOwn(st, i);
    var st' := FutNext(st, i);
    OwnTouch(st, st', i, s);
    TouchKeeps(st, st', Touched(Some(i), None, Some(s)));
  }

  lemma FinishingOwn(st: State, i: nat)
    requires OnSlot(st, i) && (st.At(i).TakeResult? || st.At(i).RelFree?)
    ensures FutOk(FutNext(st, i), i) && SlotOk(FutNext(st, i), st.At(i).s)
  {
    hide FutFaults;
  }

  lemma FinishingKeeps(st: State, i: nat)
    requires Stepping(st, i) && (st.At(i).TakeResult? || st.At(i).RelFree?)
    ensures Inv(FutNext(st, i))
  {
    hide WorkOk, Touch, GlobalOk, FutFaults;
    var s := st.At(i).s;
    assert FutOk(st, i) && SlotOk(st, s);
    FinishingOwn(st, i);
    if st.At(i).TakeResult? { DoneSole(st, i, s); }
    var st' := FutNext(st, i);
    OwnTouch(st, st', i, s);
    TouchKeeps(st, st', Touched(Some(i), None, Some(s)));
  }

  lemma DropLockOwn(st: State, i: nat)
    requires OnSlot(st, i) && st.At(i).DropLock?
    ensures FutOk(FutNext(st, i), i) && SlotOk(FutNext(st, i), st.At(i).s)
  {
    hide FutFaults;
  }

  lemma DropLockKeeps(st: State, i: nat)
    requires Stepping(st, i) && st.At(i).DropLock?
    ensures Inv(FutNext(st, i))
  {
    hide WorkOk, Touch, GlobalOk, FutFaults;
    var s := st.At(i).s;
    assert FutOk(st, i) && SlotOk(st, s);
    DropLockOwn(st, i);
    var st' := FutNext(st, i);
    OwnTouch(st, st', i, s);
    TouchKeeps(st, st', Touched(Some(i), None, Some(s)));
  }

  lemma DropUnlockOwn(st: State, i: nat)
    requires OnSlot(st, i) && st.At(i).DropUnlock?
    ensures FutOk(FutNext(st, i), i) && SlotOk(FutNext(st, i), st.At(i).s)
  {
    hide FutFaults;
  }

  lemma DropUnlockKeeps(st: State, i: nat)
    requires Stepping(st, i) && st.At(i).DropUnlock?
    ensures Inv(FutNext(st, i))
  {
    hide WorkOk, Touch, GlobalOk, FutFaults;
    var s := st.At(i).s;
    assert FutOk(st, i) && SlotOk(st, s);
    DropUnlockOwn(st, i);
    var st' := FutNext(st, i);
    OwnTouch(st, st', i, s);
    TouchKeeps(st, st', Touched(Some(i), None, Some(s)));
  }

  lemma DropLoadOwn(st: State, i: nat)
    requires OnSlot(st, i) && st.At(i).DropLoad?
    ensures FutOk(FutNext(st, i), i) && SlotOk(FutNext(st, i), st.At(i).s)
  {
    hide FutFaults;
  }

  lemma DropLoadKeeps(st: State, i: nat)
    requires Stepping(st, i) && st.At(i).DropLoad?
    ensures Inv(FutNext(st, i))
  {
    hide WorkOk, Touch, GlobalOk, FutFaults;
    var s := st.At(i).s;
    assert FutOk(st, i) && SlotOk(st, s);
    DropLoadOwn(st, i);
    SlotNames(st, s);
    hide SlotOk;
    var st' := FutNext(st, i);
    OwnTouch(st, st', i, s);
    TouchKeeps(st, st', Touched(Some(i), None, Some(s)));
  }

  lemma DropNullOwn(st: State, i: nat)
    requires OnSlot(st, i) && st.At(i).DropNull?
    ensures FutOk(FutNext(st, i), i) && SlotOk(FutNext(st, i), st.At(i).s)
  {
    hide FutFaults;
  }

  lemma DropNullKeeps(st: State, i: nat)
    requires Stepping(st, i) && st.At(i).DropNull?
    ensures Inv(FutNext(st, i))
  {
    hide WorkOk, Touch, GlobalOk, FutFaults;
    var s := st.At(i).s;
    assert FutOk(st, i) && SlotOk(st, s);
    DropNullOwn(st, i);
    var st' := FutNext(st, i);
    OwnTouch(st, st', i, s);
    TouchKeeps(st, st', Touched(Some(i), None, Some(s)));
  }

  // Handing the claimed slot to the future that found it.
  lemma ClaimUnlockKeeps(st: State, i: nat)
    requires Stepping(st, i) && st.At(i).ClaimUnlock? && st.At(i).found.Some?
    ensures Inv(FutNext(st, i))
  {
    hide WorkOk, Touch, GlobalOk, FutFaults;
    var s := st.At(i).found.value;
    assert FutOk(st, i) && SlotOk(st, s);
    var st' := FutNext(st, i);
    OwnTouch(st, st', i, s);
    TouchKeeps(st, st', Touched(Some(i), None, Some(s)));
  }

  lemma PollKeeps(st: State, i: nat, t: Task)
    requires Inv(st) && Enabled(st, Poll(i, t))
    ensures Inv(PollStart(st, i, t))
  {
    hide WorkOk, Touch;
    assert FutOk(st, i);
    var st' := PollStart(st, i, t);
    if st.futs[i].slot.Some? {
      var s := st.futs[i].slot.value;
      assert SlotOk(st, s);
      OwnTouch(st, st', i, s);
      TouchKeeps(st, st', Touched(Some(i), None, Some(s)));
    } else {
      AloneTouch(st, st', i);
      TouchKeeps(st, st', Touched(Some(i), None, None));
    }
  }

  lemma DropKeeps(st: State, i: nat)
    requires Inv(st) && Enabled(st, Drop(i))
    ensures Inv(DropStart(st, i))
  {
    hide WorkOk, Touch;
    assert FutOk(st, i);
    var st' := DropStart(st, i);
    if st.futs[i].slot.Some? {
      var s := st.futs[i].slot.value;
      assert SlotOk(st, s);
      OwnTouch(st, st', i, s);
      TouchKeeps(st, st', Touched(Some(i), None, Some(s)));
    } else {
      AloneTouch(st, st', i);
      TouchKeeps(st, st', Touched(Some(i), None, None));
    }
  }

  // A step of a future that touches no slot, apart from its own record, the waiters list and its lock.
  lemma AloneTouch(st: State, st': State, i: nat)
    requires Inv(st) && i < |st.futs| && SameSize(st, st')
    requires st' == st.(futs := st'.futs, waiters := st'.waiters, waitersLock := st'.waitersLock)
    requires forall j :: 0 <= j < |st.futs| && j != i ==> SameFut(st, st', j)
    requires forall j :: 0 <= j < |st.futs| && j != i && st.futs[j].task in st.waiters ==>
               st'.futs[j].woken || st.futs[j].task in st'.waiters
    requires RefOf(st.futs[i]).None? && !st.At(i).Gone?
    requires FutLock(st.At(i)).None? && FutLock(st'.At(i)).None?
    requires SameLife(st, st', i)
    requires st'.waitersLock == st.waitersLock || st.waitersLock.None? || st.waitersLock == Some(Fut(i))
    ensures Touch(st, st', Touched(Some(i), None, None))
    requires |st'.waiters| <= st.cap
    requires || (InWaiters(st', Fut(i)) == InWaiters(st, Fut(i)) && st'.waitersLock == st.waitersLock)
             || st'.waitersLock.None?
             || (st'.waitersLock == Some(Fut(i)) && InWaiters(st', Fut(i)))
    ensures GlobalOk(st')
  {
    hide SlotOk, WorkOk, FutOk;
    if st.waitersLock.Some? && st.waitersLock.value.Fut? {
      var j := st.waitersLock.value.i;
      assert j != i ==> SameFut(st, st', j);
    }
  }

  lemma ListKeeps(st: State, i: nat)
    requires Stepping(st, i)
    requires st.At(i).ClaimLock? || st.At(i).RelLock? || st.At(i).RelUnlock? ||
             (st.At(i).ClaimUnlock? && st.At(i).found.None?)
    ensures Inv(FutNext(st, i))
  {
    hide WorkOk, SlotOk, Touch, FutFaults;
    assert FutOk(st, i);
    var st' := FutNext(st, i);
    AloneTouch(st, st', i);
    TouchKeeps(st, st', Touched(Some(i), None, None));
  }

  lemma RelWakeKeeps(st: State, i: nat)
    requires Stepping(st, i) && st.At(i).RelWake?
    ensures Inv(FutNext(st, i))
  {
    hide WorkOk, SlotOk, Touch, FutFaults;
    assert FutOk(st, i);
    var st' := FutNext(st, i);
    AloneTouch(st, st', i);
    TouchKeeps(st, st', Touched(Some(i), None, None));
  }

  lemma ScanMiss(st: State, i: nat)
    requires Stepping(st, i) && st.At(i).ClaimScan?
    requires st.At(i).j < |st.slots| ==> st.slots[st.At(i).j].state != Free
    ensures Inv(FutNext(st, i))
  {
    hide WorkOk, SlotOk, Touch, FutFaults;
    assert FutOk(st, i);
    var st' := FutNext(st, i);
    AloneTouch(st, st', i);
    TouchKeeps(st, st', Touched(Some(i), None, None));
  }

  lemma ScanKeeps(st: State, i: nat)
    requires Stepping(st, i) && st.At(i).ClaimScan?
    ensures Inv(FutNext(st, i))
  {
    var j := st.At(i).j;
    if j < |st.slots| && st.slots[j].state == Free {
      ScanHit(st, i, j);
    } else {
      ScanMiss(st, i);
    }
    hide Inv, Shape, FutFaults, FutReady;
  }

  lemma ScanHit(st: State, i: nat, j: nat)
    requires Stepping(st, i) && st.At(i) == ClaimScan(j) && j < |st.slots| && st.slots[j].state == Free
    ensures Inv(FutNext(st, i))
  {
    hide WorkOk, FutFaults;
    assert FutOk(st, i) && SlotOk(st, j);
    var st' := FutNext(st, i);
    TouchKeeps(st, st', Touched(Some(i), None, Some(j)));
  }

  // ---------------------------------------------------------------- the queue

  lemma {:induction false} WithoutOne(q: seq<nat>, s: nat)
    requires NoDup(q)
    ensures NoDup(Without(q, s)) && |Without(q, s)| <= |q|
    ensures forall t :: t in Without(q, s) <==> t in q && t != s
  {
    if q != [] {
      assert q == [q[0]] + q[1..];
      assert q[0] !in q[1..];
      if q[0] != s { WithoutOne(q[1..], s); }
    }
  }

  lemma SendOwn(st: State, i: nat)
    requires OnSlot(st, i) && st.At(i).Send?
    ensures FutOk(FutNext(st, i), i) && SlotOk(FutNext(st, i), st.At(i).s)
  {
    hide FutFaults;
  }

  lemma SendKeeps(st: State, i: nat)
    requires Stepping(st, i) && st.At(i).Send?
    ensures Inv(FutNext(st, i))
  {
    hide WorkOk, FutFaults;
    var s := st.At(i).s;
    assert FutOk(st, i) && SlotOk(st, s);
    SendOwn(st, i);
    var st' := FutNext(st, i);
    TouchKeeps(st, st', Touched(Some(i), None, Some(s)));
  }

  lemma RemoveOwn(st: State, i: nat)
    requires OnSlot(st, i) && NoDup(st.queue) && st.At(i).DropRemove? && st.At(i).s in st.queue
    ensures FutOk(FutNext(st, i), i) && SlotOk(FutNext(st, i), st.At(i).s)
  {
    hide FutFaults;
    WithoutOne(st.queue, st.At(i).s);
  }

  lemma RemoveTouch(st: State, i: nat)
    requires OnSlot(st, i) && GlobalOk(st) && st.At(i).DropRemove? && st.At(i).s in st.queue
    ensures Touch(st, FutNext(st, i), Touched(Some(i), None, Some(st.At(i).s))) && GlobalOk(FutNext(st, i))
  {
    assert st.phase[st.At(i).s] == PQueued(i);
    FutLocks(st, i);
    hide FutOk, SlotOk, FutFaults, OnSlot;
    WithoutOne(st.queue, st.At(i).s);
  }

  lemma RemoveKeeps(st: State, i: nat)
    requires Stepping(st, i) && st.At(i).DropRemove? && st.At(i).s in st.queue
    ensures Inv(FutNext(st, i))
  {
    hide WorkOk, FutFaults, Touch;
    assert FutOk(st, i) && SlotOk(st, st.At(i).s);
    RemoveOwn(st, i);
    RemoveTouch(st, i);
    TouchKeeps(st, FutNext(st, i), Touched(Some(i), None, Some(st.At(i).s)));
    hide FutOk, SlotOk, GlobalOk;
  }

  lemma RemoveMissKeeps(st: State, i: nat)
    requires Stepping(st, i) && st.At(i).DropRemove? && st.At(i).s !in st.queue
    ensures Inv(FutNext(st, i))
  {
    hide WorkOk, Touch, GlobalOk, FutFaults;
    var s := st.At(i).s;
    assert FutOk(st, i) && SlotOk(st, s);
    var st' := FutNext(st, i);
    OwnTouch(st, st', i, s);
    TouchKeeps(st, st', Touched(Some(i), None, Some(s)));
  }

  // ---------------------------------------------------------------- a future and a worker

  lemma SpawnOwn(st: State, i: nat)
    requires Stepping(st, i) && StartOk(st) && st.At(i).Spawn? && st.At(i).w < |st.workers|
    ensures st.workers[st.At(i).w].Off?
    ensures FutOk(FutNext(st, i), i) && WorkOk(FutNext(st, i), st.At(i).w) && SlotOk(FutNext(st, i), st.At(i).s)
  {
    hide FutFaults;
    assert FutOk(st, i) && SlotOk(st, st.At(i).s) && WorkOk(st, st.At(i).w);
  }

  lemma SpawnOk(st: State, i: nat)
    requires OnSlot(st, i) && st.At(i).Spawn? && st.At(i).w < |st.workers| && st.workers[st.At(i).w].Off?
    ensures FutOk(FutNext(st, i), i) && SlotOk(FutNext(st, i), st.At(i).s) && WorkOk(FutNext(st, i), st.At(i).w)
  {
    hide FutFaults;
  }

  lemma SpawnTouch(st: State, i: nat)
    requires Stepping(st, i) && st.At(i).Spawn? && st.At(i).w < |st.workers| && st.workers[st.At(i).w].Off?
    ensures var x := Touched(Some(i), Some(st.At(i).w), Some(st.At(i).s));
      Touch(st, FutNext(st, i), x) && GlobalOk(FutNext(st, i))
  {
    hide FutFaults, WorkOk, SlotOk, Touch, GlobalOk;
    assert FutOk(st, i);
    InPlaceTouch(st, FutNext(st, i), Touched(Some(i), Some(st.At(i).w), Some(st.At(i).s)), st.At(i).s);
  }

  lemma SpawnKeeps(st: State, i: nat)
    requires Stepping(st, i) && StartOk(st) && st.At(i).Spawn? && st.At(i).w < |st.workers|
    ensures Inv(FutNext(st, i))
  {
    SpawnOwn(st, i);
    hide FutFaults, WorkOk, SlotOk, Touch, GlobalOk;
    assert FutOk(st, i) && SlotOk(st, st.At(i).s);
    SpawnOk(st, i);
    SpawnTouch(st, i);
    TouchKeeps(st, FutNext(st, i), Touched(Some(i), Some(st.At(i).w), Some(st.At(i).s)));
  }

  lemma SpawnEndKeeps(st: State, i: nat)
    requires Stepping(st, i) && st.At(i).Spawn? && st.At(i).w >= |st.workers|
    ensures Inv(FutNext(st, i))
  {
    hide WorkOk, Touch, GlobalOk, FutFaults;
    var s := st.At(i).s;
    assert FutOk(st, i) && SlotOk(st, s);
    var st' := FutNext(st, i);
    OwnTouch(st, st', i, s);
    TouchKeeps(st, st', Touched(Some(i), None, Some(s)));
  }

  lemma OrphanOwn(st: State, i: nat)
    requires OnSlot(st, i) && st.At(i).DropOrphan?
    ensures var s := st.At(i).s;
            && s < |st.slots| && st.phase[s].PWork? && st.phase[s].f == i && st.phase[s].k < |st.workers|
    ensures FutOk(FutNext(st, i), i) && SlotOk(FutNext(st, i), st.At(i).s)
  {
    hide FutFaults, WorkOk;
  }

  lemma OrphanWork(st: State, i: nat, k: nat)
    requires Stepping(st, i) && st.At(i).DropOrphan?
    requires st.At(i).s < |st.slots| && st.phase[st.At(i).s] == PWork(k, i) && k < |st.workers|
    ensures WorkOk(FutNext(st, i), k)
  {
    hide FutFaults;
    var s := st.At(i).s;
    assert FutOk(st, i) && WorkOk(st, k);
    assert SlotOk(st, s);
  }

  // The worker of a dequeued slot handles no other slot.
  lemma WorkBound(st: State, k: nat, s: nat)
    requires Inv(st) && s < |st.slots| && PhaseWork(st.phase[s]) == Some(k)
    ensures k < |st.workers| && HandledBy(st.workers[k]) == Some(s)
    ensures forall t :: 0 <= t < |st.slots| ==> !AboutToWake(st, k, t)
  {
    hide FutOk, WorkOk;
    assert SlotOk(st, s);
    SlotNames(st, s);
  }

  lemma OrphanKeeps(st: State, i: nat)
    requires Stepping(st, i) && st.At(i).DropOrphan?
    ensures Inv(FutNext(st, i))
  {
    hide FutFaults, WorkOk, Touch, GlobalOk;
    OrphanOwn(st, i);
    var s := st.At(i).s;
    var k := st.phase[s].k;
    assert SlotOk(st, s) && FutOk(st, i);
    OrphanWork(st, i, k);
    WorkBound(st, k, s);
    var st', x := FutNext(st, i), Touched(Some(i), Some(k), Some(s));
    InPlaceTouch(st, st', x, s);
    TouchKeeps(st, st', x);
  }
}
