/**
 What one future, one worker or one slot needs from the rest of the pool.  A step changes little; these
 lemmas carry the invariant over for every actor and slot the step does not concern.
 */
module BlockingFrame {
  import opened Prelude
  import opened BlockingPool
  import opened BlockingInvariant

  // The future and the worker a phase names.
  function PhaseFut(p: Phase): Option<nat> {
    match p
    case PFree(_) => None
    case PClaimed(f) => Some(f)
    case PQueued(f) => Some(f)
    case PWork(_, f) => Some(f)
    case PDetached(_, _) => None
    case PDone(f, _) => Some(f)
    case PReleasing(f) => Some(f)
  }

  function PhaseWork(p: Phase): Option<nat> {
    match p
    case PWork(k, _) => Some(k)
    case PDetached(k, _) => Some(k)
    case _ => None
  }

  // The slot a future refers to, whichever way.
  function RefOf(f: Future): Option<nat> {
    match f.pc
    case Parked => f.slot
    case ClaimUnlock(found) => found
    case pc => FutSlot(pc)
  }

  // The slot a worker answers for.
  function HandledBy(pc: WorkPc): Option<nat> {
    match pc
    case Wake(_) => None
    case Unlock2(s, orphaned) => if orphaned then Some(s) else None
    case pc => WorkSlot(pc)
  }

  // Future `j` is untouched, except that it may have been woken.
  ghost predicate SameFut(st: State, st': State, j: nat)
    requires SameSize(st, st') && j < |st.futs|
  {
    && st'.futs[j].(woken := true) == st.futs[j].(woken := true)
    && (st.futs[j].woken ==> st'.futs[j].woken)
    && st'.lives[j] == st.lives[j]
  }

  ghost predicate SameCells(st: State, st': State, t: nat)
    requires SameSize(st, st') && t < |st.slots|
  {
    && st'.slots[t].shared == st.slots[t].shared
    && st'.slots[t].runner == st.slots[t].runner
  }

  lemma FutOwns(st: State, j: nat)
    requires Shape(st) && j < |st.futs| && FutOk(st, j)
    requires RefOf(st.futs[j]).Some?
    ensures RefOf(st.futs[j]).value < |st.slots|
    ensures !(st.At(j).DropUnlock? && st.At(j).orphaned) ==>
              PhaseFut(st.phase[RefOf(st.futs[j]).value]) == Some(j)
  {
  }

  lemma WorkOwns(st: State, k: nat)
    requires Shape(st) && k < |st.workers| && WorkOk(st, k)
    requires HandledBy(st.workers[k]).Some?
    ensures HandledBy(st.workers[k]).value < |st.slots|
    ensures PhaseWork(st.phase[HandledBy(st.workers[k]).value]) == Some(k)
  {
  }

  lemma FutFrame(st: State, st': State, j: nat)
    requires SameSize(st, st') && j < |st.futs| && FutOk(st, j) && SameFut(st, st', j)
    requires InWaiters(st, Fut(j)) ==> st'.waitersLock == st.waitersLock
    requires st.futs[j].task in st.waiters ==> st'.futs[j].woken || st.futs[j].task in st'.waiters
    requires st.started ==> st'.started
    requires FutLock(st.At(j)).Some? ==>
               var t := FutLock(st.At(j)).value;
               t < |st.slots| && st'.slots[t].lock == st.slots[t].lock
    requires RefOf(st.futs[j]).Some? && !(st.At(j).DropUnlock? && st.At(j).orphaned) ==>
               var t := RefOf(st.futs[j]).value;
               && t < |st.slots| && SameCells(st, st', t) && st'.phase[t] == st.phase[t]
               && (st.slots[t].waker == Some(st.futs[j].task) && !st'.futs[j].woken ==>
                     && st'.slots[t].waker == st.slots[t].waker
                     && (st.phase[t].PDone? && AboutToWake(st, st.phase[t].k, t) ==>
                           AboutToWake(st', st.phase[t].k, t)))
    ensures FutOk(st', j)
  {
  }

  // The worker has still to run, or to hand over, the closure of the slot it handles.
  predicate UsesLife(pc: WorkPc) {
    HandledBy(pc).Some? && !pc.Unlock2? && !pc.FreeSlot?
  }

  // The cells and the life of future `j` are untouched.
  ghost predicate SameLife(st: State, st': State, j: nat)
    requires SameSize(st, st') && j < |st.futs|
  {
    && st'.futs[j].op == st.futs[j].op
    && st'.futs[j].result == st.futs[j].result
    && st'.lives[j] == st.lives[j]
  }

  lemma WorkFrame(st: State, st': State, k: nat)
    requires SameSize(st, st') && k < |st.workers| && WorkOk(st, k)
    requires st'.workers[k] == st.workers[k]
    requires InWaiters(st, Wrk(k)) ==> st'.waitersLock == st.waitersLock
    requires WorkLock(st.workers[k]).Some? ==>
               var t := WorkLock(st.workers[k]).value;
               t < |st.slots| && st'.slots[t].lock == st.slots[t].lock
    requires HandledBy(st.workers[k]).Some? ==>
               var t := HandledBy(st.workers[k]).value;
               && t < |st.slots| && st'.slots[t].runner == st.slots[t].runner && st'.phase[t] == st.phase[t]
               && (UsesLife(st.workers[k]) && Submitter(st.phase[t]).Some? ==>
                     Submitter(st.phase[t]).value < |st.futs| && SameLife(st, st', Submitter(st.phase[t]).value))
    ensures WorkOk(st', k)
  {
  }

  lemma SlotFrame(st: State, st': State, t: nat)
    requires SameSize(st, st') && t < |st.slots| && SlotOk(st, t)
    requires st'.slots[t] == st.slots[t] && st'.phase[t] == st.phase[t]
    requires t in st'.queue <==> t in st.queue
    requires st.slots[t].lock.Some? ==> LockOf(st', st.slots[t].lock.value) == LockOf(st, st.slots[t].lock.value)
    requires PhaseFut(st.phase[t]).Some? ==>
               var f := PhaseFut(st.phase[t]).value;
               f < |st.futs| && SameLife(st, st', f) && st'.At(f) == st.At(f) && st'.futs[f].slot == st.futs[f].slot
    requires st.phase[t].PDetached? && st.phase[t].f < |st.futs| ==> st'.At(st.phase[t].f) == st.At(st.phase[t].f)
    requires PhaseWork(st.phase[t]).Some? ==>
               var k := PhaseWork(st.phase[t]).value;
               k < |st.workers| && st'.workers[k] == st.workers[k]
    ensures SlotOk(st', t)
  {
  }

  // The actors a phase names refer to the slot in turn.
  lemma SlotNames(st: State, t: nat)
    requires Shape(st) && t < |st.slots| && SlotOk(st, t)
    ensures PhaseFut(st.phase[t]).Some? ==>
              && PhaseFut(st.phase[t]).value < |st.futs|
              && RefOf(st.futs[PhaseFut(st.phase[t]).value]) == Some(t)
    ensures PhaseWork(st.phase[t]).Some? ==>
              && PhaseWork(st.phase[t]).value < |st.workers|
              && HandledBy(st.workers[PhaseWork(st.phase[t]).value]) == Some(t)
    ensures st.slots[t].lock.Some? ==> LockOf(st, st.slots[t].lock.value) == Some(t)
    ensures t in st.queue <==> st.phase[t].PQueued?
    ensures st.phase[t].PDetached? ==>
              && st.phase[t].f < |st.futs|
              && (st.At(st.phase[t].f).Gone? || RefOf(st.futs[st.phase[t].f]) == Some(t))
  {
  }

  lemma FutLocks(st: State, j: nat)
    requires Shape(st) && j < |st.futs| && FutOk(st, j)
    ensures InWaiters(st, Fut(j)) ==> st.waitersLock == Some(Fut(j))
    ensures FutLock(st.At(j)).Some? ==>
              && FutLock(st.At(j)).value < |st.slots|
              && st.slots[FutLock(st.At(j)).value].lock == Some(Fut(j))
  {
  }

  lemma WorkLocks(st: State, k: nat)
    requires Shape(st) && k < |st.workers| && WorkOk(st, k)
    ensures InWaiters(st, Wrk(k)) ==> st.waitersLock == Some(Wrk(k))
    ensures WorkLock(st.workers[k]).Some? ==>
              && WorkLock(st.workers[k]).value < |st.slots|
              && st.slots[WorkLock(st.workers[k]).value].lock == Some(Wrk(k))
  {
  }

  // ---------------------------------------------------------------- steps

  // What a step may touch: future `i`, worker `k` and slot `s`, each of them optional.
  datatype Touched = Touched(i: Option<nat>, k: Option<nat>, s: Option<nat>)

  ghost predicate ByOther(a: Option<Actor>, x: Touched) {
    && a.Some?
    && (a.value.Fut? ==> x.i != Some(a.value.i))
    && (a.value.Wrk? ==> x.k != Some(a.value.k))
  }

  // Nothing else changes, except that futures may be woken; what others hold stays theirs.
  ghost predicate Touch(st: State, st': State, x: Touched) {
    && SameSize(st, st')
    && (forall j :: 0 <= j < |st.futs| && x.i != Some(j) ==> SameFut(st, st', j))
    && (forall m :: 0 <= m < |st.workers| && x.k != Some(m) ==> st'.workers[m] == st.workers[m])
    && (forall t :: 0 <= t < |st.slots| && x.s != Some(t) ==>
         st'.slots[t] == st.slots[t] && st'.phase[t] == st.phase[t] && (t in st'.queue <==> t in st.queue))
    && (ByOther(st.waitersLock, x) ==> st'.waitersLock == st.waitersLock)
    && (st.started ==> st'.started)
    && (forall j :: 0 <= j < |st.futs| && x.i != Some(j) && st.futs[j].task in st.waiters ==>
         st'.futs[j].woken || st.futs[j].task in st'.waiters)
    && (x.i.Some? ==> TouchFut(st, st', x, x.i.value))
    && (x.k.Some? ==> TouchWork(st, st', x, x.k.value))
    && (x.s.Some? ==> TouchSlot(st, st', x, x.s.value))
  }

  // The future touched refers to no slot but the one touched, and no other worker holds its closure.
  ghost predicate TouchFut(st: State, st': State, x: Touched, i: nat)
    requires SameSize(st, st')
  {
    && i < |st.futs|
    && (RefOf(st.futs[i]).Some? ==> RefOf(st.futs[i]) == x.s)
    && (st.At(i).Gone? ==> st'.At(i).Gone?)
    && LockOnly(LockOf(st, Fut(i)), x) && LockOnly(LockOf(st', Fut(i)), x)
    && (SameLife(st, st', i) || SoleUser(st, x.k, i))
  }

  ghost predicate LockOnly(l: Option<nat>, x: Touched) {
    l.Some? ==> l == x.s
  }

  ghost predicate SoleUser(st: State, k: Option<nat>, i: nat)
    requires Shape(st)
  {
    forall m :: 0 <= m < |st.workers| && k != Some(m) && UsesLife(st.workers[m]) ==>
      var t := HandledBy(st.workers[m]).value;
      t < |st.slots| ==> Submitter(st.phase[t]) != Some(i)
  }

  ghost predicate TouchWork(st: State, st': State, x: Touched, k: nat)
    requires SameSize(st, st')
  {
    && k < |st.workers|
    && (HandledBy(st.workers[k]).Some? ==> HandledBy(st.workers[k]) == x.s)
    && LockOnly(LockOf(st, Wrk(k)), x) && LockOnly(LockOf(st', Wrk(k)), x)
    && (forall t :: 0 <= t < |st.slots| && AboutToWake(st, k, t) ==>
         || AboutToWake(st', k, t)
         || (x.s == Some(t) && (PhaseFut(st.phase[t]).Some? ==> PhaseFut(st.phase[t]) == x.i)))
  }

  // An owner or worker of the slot that is not touched finds what it relies on unchanged.
  ghost predicate TouchSlot(st: State, st': State, x: Touched, s: nat)
    requires SameSize(st, st')
  {
    && s < |st.slots|
    && (ByOther(st.slots[s].lock, x) ==> st'.slots[s].lock == st.slots[s].lock)
    && (PhaseFut(st.phase[s]).Some? && PhaseFut(st.phase[s]) != x.i ==>
         && st'.phase[s] == st.phase[s] && SameCells(st, st', s) && st'.slots[s].waker == st.slots[s].waker)
    && (PhaseWork(st.phase[s]).Some? && PhaseWork(st.phase[s]) != x.k ==>
         st'.phase[s] == st.phase[s] && st'.slots[s].runner == st.slots[s].runner)
  }

  lemma TouchKeepsFut(st: State, st': State, x: Touched, j: nat)
    requires Inv(st) && Touch(st, st', x) && j < |st.futs| && x.i != Some(j)
    ensures FutOk(st', j)
  {
    hide SlotOk, WorkOk, FutOk;
    assert FutOk(st, j);
    FutLocks(st, j);
    if RefOf(st.futs[j]).Some? { FutOwns(st, j); }
    FutFrame(st, st', j);
  }

  lemma TouchKeepsWork(st: State, st': State, x: Touched, k: nat)
    requires Inv(st) && Touch(st, st', x) && k < |st.workers| && x.k != Some(k)
    ensures WorkOk(st', k)
  {
    hide SlotOk, WorkOk, FutOk;
    assert WorkOk(st, k);
    WorkLocks(st, k);
    if HandledBy(st.workers[k]).Some? {
      WorkOwns(st, k);
      var t := HandledBy(st.workers[k]).value;
      assert SlotOk(st, t);
      SlotNames(st, t);
    }
    WorkFrame(st, st', k);
  }

  lemma SameLock(st: State, st': State, x: Touched, a: Actor, t: nat)
    requires Inv(st) && Touch(st, st', x) && t < |st.slots| && x.s != Some(t)
    requires LockOf(st, a) == Some(t)
    ensures LockOf(st', a) == LockOf(st, a)
  {
    hide SlotOk, WorkOk, FutOk;
    match a
    case Fut(j) => assert x.i != Some(j); assert SameFut(st, st', j);
    case Wrk(m) => assert x.k != Some(m);
  }

  lemma TouchKeepsSlot(st: State, st': State, x: Touched, t: nat)
    requires Inv(st) && Touch(st, st', x) && t < |st.slots| && x.s != Some(t)
    ensures SlotOk(st', t)
  {
    hide SlotOk, WorkOk, FutOk;
    assert SlotOk(st, t);
    SlotNames(st, t);
    if st.phase[t].PDetached? {
      var f := st.phase[t].f;
      assert x.i == Some(f) ==> st.At(f).Gone?;
      assert st'.At(f) == st.At(f);
    }
    if st.slots[t].lock.Some? { SameLock(st, st', x, st.slots[t].lock.value, t); }
    SlotFrame(st, st', t);
  }

  // A step keeps the invariant once it keeps it for what it touches.
  lemma TouchKeeps(st: State, st': State, x: Touched)
    requires Inv(st) && Touch(st, st', x) && GlobalOk(st')
    requires x.i.Some? ==> FutOk(st', x.i.value)
    requires x.k.Some? ==> WorkOk(st', x.k.value)
    requires x.s.Some? ==> SlotOk(st', x.s.value)
    ensures Inv(st')
  {
    hide SlotOk, WorkOk, FutOk;
    forall j | 0 <= j < |st'.futs| && x.i != Some(j) ensures FutOk(st', j) { TouchKeepsFut(st, st', x, j); }
    forall k | 0 <= k < |st'.workers| && x.k != Some(k) ensures WorkOk(st', k) { TouchKeepsWork(st, st', x, k); }
    forall t | 0 <= t < |st'.slots| && x.s != Some(t) ensures SlotOk(st', t) { TouchKeepsSlot(st, st', x, t); }
  }

  // A step of future `i` on the slot `s` it refers to, other than one that moves the queue.
  lemma OwnTouch(st: State, st': State, i: nat, s: nat)
    requires Inv(st) && i < |st.futs| && s < |st.slots| && SameSize(st, st')
    requires st' == st.(futs := st.futs[i := st'.futs[i]], slots := st.slots[s := st'.slots[s]],
                        phase := st.phase[s := st'.phase[s]], waitersLock := st'.waitersLock,
                        started := st'.started, starter := st'.starter)
    requires st.started ==> st'.started
    requires RefOf(st.futs[i]) == Some(s)
    requires FutLock(st.At(i)).Some? ==> FutLock(st.At(i)) == Some(s)
    requires FutLock(st'.At(i)).Some? ==> FutLock(st'.At(i)) == Some(s)
    requires SameLife(st, st', i) || SoleUser(st, None, i)
    requires TouchSlot(st, st', Touched(Some(i), None, Some(s)), s)
    requires st'.waitersLock == st.waitersLock || st.waitersLock == Some(Fut(i))
    requires s in st.queue <==> st'.phase[s].PQueued?
    ensures Touch(st, st', Touched(Some(i), None, Some(s)))
    ensures InWaiters(st', Fut(i)) == InWaiters(st, Fut(i)) && st'.waitersLock == st.waitersLock ==> GlobalOk(st')
    ensures st'.waitersLock.None? ==> GlobalOk(st')
  {
    hide SlotOk, WorkOk, FutOk, TouchSlot;
  }

  // The step leaves the queue and the waiters list alone and changes records in place.
  ghost predicate InPlace(st: State, st': State, x: Touched, s: nat)
    requires SameSize(st, st')
  {
    && s < |st.slots| && x.s == Some(s)
    && (x.i.Some? ==> x.i.value < |st.futs|) && (x.k.Some? ==> x.k.value < |st.workers|)
    && st' == st.(
         slots := st.slots[s := st'.slots[s]],
         phase := st.phase[s := st'.phase[s]],
         futs := if x.i.Some? then st.futs[x.i.value := st'.futs[x.i.value]] else st.futs,
         lives := if x.i.Some? then st.lives[x.i.value := st'.lives[x.i.value]] else st.lives,
         workers := if x.k.Some? then st.workers[x.k.value := st'.workers[x.k.value]] else st.workers)
  }

  lemma InPlaceTouch(st: State, st': State, x: Touched, s: nat)
    requires Inv(st) && SameSize(st, st') && InPlace(st, st', x, s)
    requires x.i.Some? ==>
               TouchFut(st, st', x, x.i.value) && InWaiters(st', Fut(x.i.value)) == InWaiters(st, Fut(x.i.value))
    requires x.k.Some? ==>
               TouchWork(st, st', x, x.k.value) && InWaiters(st', Wrk(x.k.value)) == InWaiters(st, Wrk(x.k.value))
    requires TouchSlot(st, st', x, s)
    ensures Touch(st, st', x) && GlobalOk(st')
  {
    hide SlotOk, WorkOk, FutOk, TouchSlot, TouchFut, TouchWork;
  }
}
