/**
 Every step of a worker keeps the invariant.
 */
module BlockingWorkers {
  import opened Prelude
  import opened BlockingPool
  import opened BlockingInvariant
  import opened BlockingFrame

  ghost predicate Working(st: State, k: nat) {
    Inv(st) && WorkReady(st, k) && !WorkFaults(st, k)
  }

  lemma WorkSafe(st: State, k: nat)
    requires Inv(st) && WorkReady(st, k)
    ensures !WorkFaults(st, k)
  {
    hide FutOk;
    assert WorkOk(st, k);
    var pc := st.workers[k];
    if pc.Idle? { assert st.queue[0] in st.queue; }
    if WorkSlot(pc).Some? {
      var s := WorkSlot(pc).value;
      assert SlotOk(st, s);
      if st.phase[s].PWork? && st.At(st.phase[s].f).DropOrphan? {
        assert FutOk(st, st.phase[s].f);
        FutLocks(st, st.phase[s].f);
      }
    }
  }

  // ---------------------------------------------------------------- steps on the slot alone

  lemma ReadingOwn(st: State, k: nat, v: int, keep: bool)
    requires Working(st, k) && (st.workers[k].ReadRunner? || st.workers[k].Load1?)
    ensures WorkOk(WorkNext(st, k, v, keep), k) && SlotOk(WorkNext(st, k, v, keep), st.workers[k].s)
  {
    hide FutOk, GlobalOk, WorkFaults;
    assert WorkOk(st, k) && SlotOk(st, st.workers[k].s);
  }

  lemma ReadingKeeps(st: State, k: nat, v: int, keep: bool)
    requires Working(st, k) && (st.workers[k].ReadRunner? || st.workers[k].Load1?)
    ensures Inv(WorkNext(st, k, v, keep))
  {
    hide FutOk, WorkFaults, Touch, GlobalOk;
    var s := st.workers[k].s;
    ReadingOwn(st, k, v, keep);
    assert WorkOk(st, k) && SlotOk(st, s);
    var st', x := WorkNext(st, k, v, keep), Touched(None, Some(k), Some(s));
    InPlaceTouch(st, st', x, s);
    TouchKeeps(st, st', x);
  }

  lemma LockingOwn(st: State, k: nat, v: int, keep: bool)
    requires Working(st, k) && (st.workers[k].Lock1? || st.workers[k].Lock2?)
    ensures WorkOk(WorkNext(st, k, v, keep), k) && SlotOk(WorkNext(st, k, v, keep), st.workers[k].s)
  {
    hide FutOk, GlobalOk, WorkFaults;
    assert WorkOk(st, k) && SlotOk(st, st.workers[k].s);
  }

  lemma LockingKeeps(st: State, k: nat, v: int, keep: bool)
    requires Working(st, k) && (st.workers[k].Lock1? || st.workers[k].Lock2?)
    ensures Inv(WorkNext(st, k, v, keep))
  {
    hide FutOk, WorkFaults, Touch, GlobalOk;
    var s := st.workers[k].s;
    LockingOwn(st, k, v, keep);
    assert WorkOk(st, k) && SlotOk(st, s);
    var st', x := WorkNext(st, k, v, keep), Touched(None, Some(k), Some(s));
    InPlaceTouch(st, st', x, s);
    TouchKeeps(st, st', x);
  }

  lemma Unlock1Own(st: State, k: nat, v: int, keep: bool)
    requires Working(st, k) && st.workers[k].Unlock1?
    ensures WorkOk(WorkNext(st, k, v, keep), k) && SlotOk(WorkNext(st, k, v, keep), st.workers[k].s)
  {
    hide FutOk, GlobalOk, WorkFaults;
    assert WorkOk(st, k) && SlotOk(st, st.workers[k].s);
  }

  lemma Unlock1Keeps(st: State, k: nat, v: int, keep: bool)
    requires Working(st, k) && st.workers[k].Unlock1?
    ensures Inv(WorkNext(st, k, v, keep))
  {
    hide FutOk, WorkFaults, Touch, GlobalOk;
    var s := st.workers[k].s;
    Unlock1Own(st, k, v, keep);
    assert WorkOk(st, k) && SlotOk(st, s);
    var st', x := WorkNext(st, k, v, keep), Touched(None, Some(k), Some(s));
    InPlaceTouch(st, st', x, s);
    TouchKeeps(st, st', x);
  }

  lemma CheckingOwn(st: State, k: nat, v: int, keep: bool)
    requires Working(st, k) && (st.workers[k].Load2? || st.workers[k].FreeSlot?)
    ensures WorkOk(WorkNext(st, k, v, keep), k) && SlotOk(WorkNext(st, k, v, keep), st.workers[k].s)
  {
    hide FutOk, GlobalOk, WorkFaults;
    assert WorkOk(st, k) && SlotOk(st, st.workers[k].s);
  }

  lemma CheckingKeeps(st: State, k: nat, v: int, keep: bool)
    requires Working(st, k) && (st.workers[k].Load2? || st.workers[k].FreeSlot?)
    ensures Inv(WorkNext(st, k, v, keep))
  {
    hide FutOk, WorkFaults, Touch, GlobalOk;
    var s := st.workers[k].s;
    CheckingOwn(st, k, v, keep);
    assert WorkOk(st, k) && SlotOk(st, s);
    var st', x := WorkNext(st, k, v, keep), Touched(None, Some(k), Some(s));
    InPlaceTouch(st, st', x, s);
    TouchKeeps(st, st', x);
  }

  lemma Unlock2Own(st: State, k: nat, v: int, keep: bool)
    requires Working(st, k) && st.workers[k].Unlock2?
    ensures WorkOk(WorkNext(st, k, v, keep), k) && SlotOk(WorkNext(st, k, v, keep), st.workers[k].s)
  {
    hide FutOk, GlobalOk, WorkFaults;
    assert WorkOk(st, k) && SlotOk(st, st.workers[k].s);
  }

  lemma Unlock2Keeps(st: State, k: nat, v: int, keep: bool)
    requires Working(st, k) && st.workers[k].Unlock2?
    ensures Inv(WorkNext(st, k, v, keep))
  {
    hide FutOk, WorkFaults, Touch, GlobalOk;
    var s := st.workers[k].s;
    Unlock2Own(st, k, v, keep);
    assert WorkOk(st, k) && SlotOk(st, s);
    var st', x := WorkNext(st, k, v, keep), Touched(None, Some(k), Some(s));
    InPlaceTouch(st, st', x, s);
    TouchKeeps(st, st', x);
  }

  // ---------------------------------------------------------------- steps on the submitting future

  // The worker that took a closure is the only one that could run it.
  lemma SameTaker(st: State, k: nat, m: nat, s: nat, t: nat, r: nat)
    requires Shape(st) && k < |st.workers| && m < |st.workers| && s < |st.slots| && t < |st.slots|
    requires WorkOk(st, k) && WorkOk(st, m) && Taken(st.workers[k]) && UsesLife(st.workers[m])
    requires HandledBy(st.workers[k]) == Some(s) && HandledBy(st.workers[m]) == Some(t)
    requires Submitter(st.phase[s]) == Some(r) && Submitter(st.phase[t]) == Some(r)
    ensures k == m
  {
  }

  // Two workers never hold the same closure.
  lemma HolderSole(st: State, k: nat)
    requires Inv(st) && k < |st.workers| && UsesLife(st.workers[k])
    ensures HandledBy(st.workers[k]).value < |st.slots|
    ensures var p := st.phase[HandledBy(st.workers[k]).value];
            Submitter(p).Some? && (p.PWork? || Taken(st.workers[k]) ==> SoleUser(st, Some(k), Submitter(p).value))
  {
    hide FutOk, SlotOk, WorkOk;
    assert WorkOk(st, k);
    WorkOwns(st, k);
    var s := HandledBy(st.workers[k]).value;
    assert SlotOk(st, s);
    SlotNames(st, s);
    var i := Submitter(st.phase[s]).value;
    if st.phase[s].PWork? || Taken(st.workers[k]) {
      forall m | (
        0 <= m < |st.workers| && m != k && UsesLife(st.workers[m]) && HandledBy(st.workers[m]).value < |st.slots|)
        ensures Submitter(st.phase[HandledBy(st.workers[m]).value]) != Some(i)
      {
        var t := HandledBy(st.workers[m]).value;
        assert WorkOk(st, m) && SlotOk(st, t);
        WorkOwns(st, m);
        SlotNames(st, t);
        if Taken(st.workers[k]) && Submitter(st.phase[t]) == Some(i) { SameTaker(st, k, m, s, t, i); }
      }
    }
  }

  // The slot, the worker and the submitting future refer to each other and to nothing else.
  lemma ServedBy(st: State, k: nat)
    requires Inv(st) && k < |st.workers|
    requires st.workers[k].TakeOp? || Taken(st.workers[k]) || st.workers[k].WriteResult? || st.workers[k].StoreDone?
    ensures var pc := st.workers[k];
            && pc.s < |st.slots| && pc.r < |st.futs| && HandledBy(pc) == Some(pc.s)
            && Submitter(st.phase[pc.s]) == Some(pc.r)
            && (PhaseFut(st.phase[pc.s]).Some? ==> PhaseFut(st.phase[pc.s]) == Some(pc.r))
            && PhaseWork(st.phase[pc.s]) == Some(k)
            && (RefOf(st.futs[pc.r]).Some? ==> RefOf(st.futs[pc.r]) == Some(pc.s))
            && LockOnly(FutLock(st.At(pc.r)), Touched(None, None, Some(pc.s)))
            && (st.At(pc.r).Gone? || RefOf(st.futs[pc.r]).Some?)
            && (pc.Call? ==> pc.c == pc.r) && (pc.Running? ==> pc.c == pc.r)
            && (pc.TakeOp? || pc.WriteResult? ==> st.slots[pc.s].shared == Some(pc.r))
            && (pc.TakeOp? || pc.WriteResult? || pc.StoreDone? ==> st.phase[pc.s].PWork?)
            && SoleUser(st, Some(k), pc.r)
  {
    hide FutOk;
    var pc := st.workers[k];
    assert WorkOk(st, k);
    HolderSole(st, k);
    hide SoleUser;
    assert SlotOk(st, pc.s);
    SlotNames(st, pc.s);
    if pc.TakeOp? || pc.WriteResult? {
      assert FutOk(st, pc.r);
      FutLocks(st, pc.r);
    }
  }

  // The worker has taken the closure and not handed its result over yet.
  predicate Taken(pc: WorkPc) {
    pc.Call? || pc.Running? || pc.Lock2? || pc.Load2?
  }

  lemma TakeOpOwn(st: State, k: nat, v: int, keep: bool, r: nat)
    requires Working(st, k) && st.workers[k].TakeOp? && r == st.workers[k].r
    ensures WorkOk(WorkNext(st, k, v, keep), k) && SlotOk(WorkNext(st, k, v, keep), st.workers[k].s)
  {
    hide FutOk, GlobalOk;
    assert WorkOk(st, k) && SlotOk(st, st.workers[k].s);
  }

  lemma TakeOpFut(st: State, k: nat, v: int, keep: bool, r: nat)
    requires Working(st, k) && st.workers[k].TakeOp? && r == st.workers[k].r
    ensures r < |st.futs| && FutOk(WorkNext(st, k, v, keep), r)
  {
    hide GlobalOk, WorkFaults;
    assert WorkOk(st, k) && SlotOk(st, st.workers[k].s);
    assert FutOk(st, r);
  }

  lemma TakeOpKeeps(st: State, k: nat, v: int, keep: bool, r: nat)
    requires Working(st, k) && st.workers[k].TakeOp? && r == st.workers[k].r
    ensures Inv(WorkNext(st, k, v, keep))
  {
    hide FutOk, WorkOk, SlotOk, WorkFaults, Touch, GlobalOk;
    ServedBy(st, k);
    TakeOpOwn(st, k, v, keep, r);
    TakeOpFut(st, k, v, keep, r);
    var s := st.workers[k].s;
    var st', x := WorkNext(st, k, v, keep), Touched(Some(r), Some(k), Some(s));
    InPlaceTouch(st, st', x, s);
    TouchKeeps(st, st', x);
  }

  lemma CallOwn(st: State, k: nat, v: int, keep: bool, r: nat)
    requires Working(st, k) && st.workers[k].Call? && r == st.workers[k].c
    ensures WorkOk(WorkNext(st, k, v, keep), k) && SlotOk(WorkNext(st, k, v, keep), st.workers[k].s)
  {
    hide FutOk, GlobalOk, WorkFaults;
    assert WorkOk(st, k) && SlotOk(st, st.workers[k].s);
  }

  lemma CallFut(st: State, k: nat, v: int, keep: bool, r: nat)
    requires Working(st, k) && st.workers[k].Call? && r == st.workers[k].c
    ensures r < |st.futs| && FutOk(WorkNext(st, k, v, keep), r)
  {
    hide GlobalOk, WorkFaults;
    assert WorkOk(st, k) && SlotOk(st, st.workers[k].s);
    assert FutOk(st, r);
  }

  lemma CallKeeps(st: State, k: nat, v: int, keep: bool, r: nat)
    requires Working(st, k) && st.workers[k].Call? && r == st.workers[k].c
    ensures Inv(WorkNext(st, k, v, keep))
  {
    hide FutOk, WorkOk, SlotOk, WorkFaults, Touch, GlobalOk;
    ServedBy(st, k);
    CallOwn(st, k, v, keep, r);
    CallFut(st, k, v, keep, r);
    var s := st.workers[k].s;
    var st', x := WorkNext(st, k, v, keep), Touched(Some(r), Some(k), Some(s));
    InPlaceTouch(st, st', x, s);
    TouchKeeps(st, st', x);
  }

  lemma RunningOwn(st: State, k: nat, v: int, keep: bool, r: nat)
    requires Working(st, k) && st.workers[k].Running? && r == st.workers[k].c
    ensures WorkOk(WorkNext(st, k, v, keep), k) && SlotOk(WorkNext(st, k, v, keep), st.workers[k].s)
  {
    hide FutOk, GlobalOk, WorkFaults;
    assert WorkOk(st, k) && SlotOk(st, st.workers[k].s);
  }

  lemma RunningFut(st: State, k: nat, v: int, keep: bool, r: nat)
    requires Working(st, k) && st.workers[k].Running? && r == st.workers[k].c
    ensures r < |st.futs| && FutOk(WorkNext(st, k, v, keep), r)
  {
    hide GlobalOk, WorkFaults;
    assert WorkOk(st, k) && SlotOk(st, st.workers[k].s);
    assert FutOk(st, r);
  }

  lemma RunningKeeps(st: State, k: nat, v: int, keep: bool, r: nat)
    requires Working(st, k) && st.workers[k].Running? && r == st.workers[k].c
    ensures Inv(WorkNext(st, k, v, keep))
  {
    hide FutOk, WorkOk, SlotOk, WorkFaults, Touch, GlobalOk;
    ServedBy(st, k);
    RunningOwn(st, k, v, keep, r);
    RunningFut(st, k, v, keep, r);
    var s := st.workers[k].s;
    var st', x := WorkNext(st, k, v, keep), Touched(Some(r), Some(k), Some(s));
    InPlaceTouch(st, st', x, s);
    TouchKeeps(st, st', x);
  }

  lemma WriteResultOwn(st: State, k: nat, v: int, keep: bool, r: nat)
    requires Working(st, k) && st.workers[k].WriteResult? && r == st.workers[k].r
    ensures WorkOk(WorkNext(st, k, v, keep), k) && SlotOk(WorkNext(st, k, v, keep), st.workers[k].s)
  {
    hide FutOk, GlobalOk;
    assert WorkOk(st, k) && SlotOk(st, st.workers[k].s);
  }

  lemma WriteResultFut(st: State, k: nat, v: int, keep: bool, r: nat)
    requires Working(st, k) && st.workers[k].WriteResult? && r == st.workers[k].r
    ensures r < |st.futs| && FutOk(WorkNext(st, k, v, keep), r)
  {
    hide GlobalOk, WorkFaults;
    assert WorkOk(st, k) && SlotOk(st, st.workers[k].s);
    assert FutOk(st, r);
  }

  lemma WriteResultKeeps(st: State, k: nat, v: int, keep: bool, r: nat)
    requires Working(st, k) && st.workers[k].WriteResult? && r == st.workers[k].r
    ensures Inv(WorkNext(st, k, v, keep))
  {
    hide FutOk, WorkOk, SlotOk, WorkFaults, Touch, GlobalOk;
    ServedBy(st, k);
    WriteResultOwn(st, k, v, keep, r);
    WriteResultFut(st, k, v, keep, r);
    var s := st.workers[k].s;
    var st', x := WorkNext(st, k, v, keep), Touched(Some(r), Some(k), Some(s));
    InPlaceTouch(st, st', x, s);
    TouchKeeps(st, st', x);
  }

  lemma StoreDoneOwn(st: State, k: nat, v: int, keep: bool, r: nat)
    requires Working(st, k) && st.workers[k].StoreDone? && r == st.workers[k].r
    ensures WorkOk(WorkNext(st, k, v, keep), k) && SlotOk(WorkNext(st, k, v, keep), st.workers[k].s)
  {
    hide FutOk, GlobalOk, WorkFaults;
    assert WorkOk(st, k) && SlotOk(st, st.workers[k].s);
    assert FutOk(st, r);
    FutLocks(st, r);
  }

  lemma StoreDoneFut(st: State, k: nat, v: int, keep: bool, r: nat)
    requires Working(st, k) && st.workers[k].StoreDone? && r == st.workers[k].r
    ensures r < |st.futs| && FutOk(WorkNext(st, k, v, keep), r)
  {
    hide GlobalOk, WorkFaults;
    assert WorkOk(st, k) && SlotOk(st, st.workers[k].s);
    assert FutOk(st, r);
  }

  lemma StoreDoneKeeps(st: State, k: nat, v: int, keep: bool, r: nat)
    requires Working(st, k) && st.workers[k].StoreDone? && r == st.workers[k].r
    ensures Inv(WorkNext(st, k, v, keep))
  {
    hide FutOk, WorkOk, SlotOk, WorkFaults, Touch, GlobalOk;
    ServedBy(st, k);
    StoreDoneOwn(st, k, v, keep, r);
    StoreDoneFut(st, k, v, keep, r);
    var s := st.workers[k].s;
    var st', x := WorkNext(st, k, v, keep), Touched(Some(r), Some(k), Some(s));
    InPlaceTouch(st, st', x, s);
    TouchKeeps(st, st', x);
  }

  // ---------------------------------------------------------------- the queue, the wakers, the waiters list

  lemma ReceiveOwn(st: State, k: nat, v: int, keep: bool, s: nat, f: nat)
    requires Working(st, k) && st.workers[k].Idle? && s == st.queue[0] && s < |st.slots| && st.phase[s] == PQueued(f)
    ensures WorkOk(WorkNext(st, k, v, keep), k) && SlotOk(WorkNext(st, k, v, keep), s)
  {
    hide FutOk, WorkFaults;
    assert WorkOk(st, k) && SlotOk(st, s);
    assert s !in st.queue[1..];
  }

  lemma ReceiveFut(st: State, k: nat, v: int, keep: bool, s: nat, f: nat)
    requires Working(st, k) && st.workers[k].Idle? && s == st.queue[0] && s < |st.slots| && st.phase[s] == PQueued(f)
    ensures f < |st.futs| && FutOk(WorkNext(st, k, v, keep), f)
  {
    hide WorkOk, WorkFaults, GlobalOk;
    assert SlotOk(st, s) && FutOk(st, f);
  }

  lemma ReceiveTouch(st: State, k: nat, s: nat, f: nat)
    requires Shape(st) && GlobalOk(st)
    requires k < |st.workers| && st.workers[k].Idle? && st.queue != [] && s == st.queue[0]
    requires s < |st.slots| && st.phase[s] == PQueued(f) && SlotOk(st, s)
    requires f < |st.futs| && FutOk(st, f)
    ensures Touch(st, Receive(st, k), Touched(Some(f), Some(k), Some(s))) && GlobalOk(Receive(st, k))
  {
    SlotNames(st, s);
    FutLocks(st, f);
    hide SlotOk, FutOk;
    var st' := Receive(st, k);
    assert st.queue == [s] + st.queue[1..];
    assert forall t :: t in st.queue[1..] ==> t in st.queue;
    assert InWaiters(st', Fut(f)) == InWaiters(st, Fut(f));
  }

  lemma ReceiveKeeps(st: State, k: nat, v: int, keep: bool)
    requires Working(st, k) && st.workers[k].Idle?
    ensures Inv(WorkNext(st, k, v, keep))
  {
    hide FutOk, WorkOk, WorkFaults, Touch;
    var s := st.queue[0];
    assert s in st.queue;
    assert SlotOk(st, s);
    var f := st.phase[s].f;
    hide SlotOk, GlobalOk;
    ReceiveOwn(st, k, v, keep, s, f);
    ReceiveFut(st, k, v, keep, s, f);
    ReceiveTouch(st, k, s, f);
    TouchKeeps(st, Receive(st, k), Touched(Some(f), Some(k), Some(s)));
  }

  lemma WakeOwn(st: State, k: nat, s: nat, keep: bool)
    requires Inv(st) && k < |st.workers| && st.workers[k] == Wake(s) && s < |st.slots|
    ensures WorkOk(WakeSlot(st, k, s, keep), k) && SlotOk(WakeSlot(st, k, s, keep), s)
  {
    hide FutOk, GlobalOk;
    assert WorkOk(st, k) && SlotOk(st, s);
  }

  lemma WakeFut(st: State, k: nat, s: nat, keep: bool, f: nat)
    requires Inv(st) && k < |st.workers| && st.workers[k] == Wake(s) && s < |st.slots| && f < |st.futs|
    ensures FutOk(WakeSlot(st, k, s, keep), f)
  {
    hide FutOk, WorkOk, SlotOk, GlobalOk;
    assert FutOk(st, f);
    FutLocks(st, f);
    if RefOf(st.futs[f]).Some? { FutOwns(st, f); }
    FutFrame(st, WakeSlot(st, k, s, keep), f);
  }

  lemma WakeOwner(st: State, k: nat, s: nat, keep: bool, f: nat)
    requires Inv(st) && k < |st.workers| && st.workers[k] == Wake(s) && s < |st.slots|
    requires PhaseFut(st.phase[s]) == Some(f)
    ensures f < |st.futs|
    ensures TouchFut(st, WakeSlot(st, k, s, keep), Touched(Some(f), Some(k), Some(s)), f)
  {
    hide FutOk, WorkOk, SlotOk, GlobalOk, SoleUser;
    assert SlotOk(st, s);
    SlotNames(st, s);
    assert FutOk(st, f);
    FutLocks(st, f);
  }

  lemma WakeTarget(st: State, k: nat, s: nat, keep: bool)
    requires Inv(st) && k < |st.workers| && st.workers[k] == Wake(s) && s < |st.slots|
    ensures var st', x := WakeSlot(st, k, s, keep), Touched(PhaseFut(st.phase[s]), Some(k), Some(s));
            TouchWork(st, st', x, k) && TouchSlot(st, st', x, s)
  {
    hide FutOk, WorkOk, SlotOk, GlobalOk;
    assert SlotOk(st, s);
    SlotNames(st, s);
  }

  lemma WakeTouch(st: State, k: nat, s: nat, keep: bool)
    requires Inv(st) && k < |st.workers| && st.workers[k] == Wake(s) && s < |st.slots|
    ensures Touch(st, WakeSlot(st, k, s, keep), Touched(PhaseFut(st.phase[s]), Some(k), Some(s)))
    ensures GlobalOk(WakeSlot(st, k, s, keep))
  {
    hide FutOk, WorkOk, SlotOk, TouchFut, TouchWork, TouchSlot;
    WakeTarget(st, k, s, keep);
    if PhaseFut(st.phase[s]).Some? { WakeOwner(st, k, s, keep, PhaseFut(st.phase[s]).value); }
    if st.waitersLock.Some? { SameWaiters(st, WakeSlot(st, k, s, keep), st.waitersLock.value); }
  }

  lemma SameWaiters(st: State, st': State, a: Actor)
    requires SameSize(st, st')
    requires forall j :: 0 <= j < |st.futs| ==> st'.futs[j].pc == st.futs[j].pc
    requires forall k :: 0 <= k < |st.workers| ==>
               st'.workers[k] == st.workers[k] || (st.workers[k].Wake? && st'.workers[k].Idle?)
    ensures InWaiters(st', a) == InWaiters(st, a)
  {
  }

  // A late wake may land on a slot that has another owner by now: it wakes that owner's task.
  lemma WakeKeeps(st: State, k: nat, v: int, keep: bool)
    requires Working(st, k) && st.workers[k].Wake?
    ensures Inv(WorkNext(st, k, v, keep))
  {
    hide FutOk, SlotOk, WorkFaults, Touch, GlobalOk;
    var s := st.workers[k].s;
    assert WorkOk(st, k);
    hide WorkOk;
    assert SlotOk(st, s);
    SlotNames(st, s);
    var owner := PhaseFut(st.phase[s]);
    WakeOwn(st, k, s, keep);
    if owner.Some? { WakeFut(st, k, s, keep, owner.value); }
    WakeTouch(st, k, s, keep);
    TouchKeeps(st, WakeSlot(st, k, s, keep), Touched(owner, Some(k), Some(s)));
  }

  lemma WaitersLockKeeps(st: State, k: nat, v: int, keep: bool)
    requires Working(st, k) && st.workers[k].WaitersLock?
    ensures Inv(WorkNext(st, k, v, keep))
  {
    hide FutOk, SlotOk, WorkFaults;
    assert WorkOk(st, k);
    TouchKeeps(st, WorkNext(st, k, v, keep), Touched(None, Some(k), None));
  }

  lemma WaitersUnlockKeeps(st: State, k: nat, v: int, keep: bool)
    requires Working(st, k) && st.workers[k].WaitersUnlock?
    ensures Inv(WorkNext(st, k, v, keep))
  {
    hide FutOk, SlotOk, WorkFaults;
    assert WorkOk(st, k);
    TouchKeeps(st, WorkNext(st, k, v, keep), Touched(None, Some(k), None));
  }

  lemma WaitersWakeKeeps(st: State, k: nat, v: int, keep: bool)
    requires Working(st, k) && st.workers[k].WaitersWake?
    ensures Inv(WorkNext(st, k, v, keep))
  {
    hide FutOk, SlotOk, WorkFaults;
    assert WorkOk(st, k);
    TouchKeeps(st, WorkNext(st, k, v, keep), Touched(None, Some(k), None));
  }
}
