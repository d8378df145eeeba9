/**
 The inductive invariant of the worker pool.

 Every slot is in exactly one phase, and the phase and the program counters of the actors it names
 agree in both directions.  `FutOk`, `WorkOk` and `SlotOk` state that agreement from the side of one
 future, one worker and one slot; `GlobalOk` covers the waiters list, the queue and the worker start.
 */
module BlockingInvariant {
  import opened Prelude
  import opened BlockingPool

  // The slot whose spinlock an actor holds at a program counter.
  function FutLock(pc: FutPc): Option<nat> {
    match pc
    case DropLoad(s) => Some(s)
    case DropNull(s) => Some(s)
    case DropOrphan(s) => Some(s)
    case DropUnlock(s, _) => Some(s)
    case _ => None
  }

  function WorkLock(pc: WorkPc): Option<nat> {
    match pc
    case Load1(s, _) => Some(s)
    case TakeOp(s, _) => Some(s)
    case Unlock1(s, _, _) => Some(s)
    case Load2(s, _, _) => Some(s)
    case WriteResult(s, _, _) => Some(s)
    case StoreDone(s, _) => Some(s)
    case Unlock2(s, _) => Some(s)
    case _ => None
  }

  function LockOf(st: State, a: Actor): Option<nat> {
    match a
    case Fut(i) => if i < |st.futs| then FutLock(st.At(i)) else None
    case Wrk(k) => if k < |st.workers| then WorkLock(st.workers[k]) else None
  }

  // The actor is inside the critical section of the waiters list.
  ghost predicate InWaiters(st: State, a: Actor) {
    match a
    case Fut(i) =>
      i < |st.futs| && (st.At(i).ClaimScan? || st.At(i).ClaimUnlock? || st.At(i).RelWake? || st.At(i).RelUnlock?)
    case Wrk(k) =>
      k < |st.workers| && (st.workers[k].WaitersWake? || st.workers[k].WaitersUnlock?)
  }

  // The actor has stored Free and has yet to wake the waiters list.
  ghost predicate StillToWake(st: State, a: Actor) {
    match a
    case Fut(i) => i < |st.futs| && (st.At(i).RelLock? || st.At(i).RelWake?)
    case Wrk(k) => k < |st.workers| && (st.workers[k].WaitersLock? || st.workers[k].WaitersWake?)
  }

  ghost predicate FreedByWaker(st: State, s: nat)
    requires s < |st.phase|
  {
    st.phase[s].PFree? ==> st.phase[s].last.Some? && StillToWake(st, st.phase[s].last.value)
  }

  // Worker `k` has stored Done for slot `s` and has yet to wake the slot's waker.
  ghost predicate AboutToWake(st: State, k: nat, s: nat) {
    k < |st.workers| && (st.workers[k] == Unlock2(s, false) || st.workers[k] == Wake(s))
  }

  // Closure `i` is still in its future and has never run.
  ghost predicate Untaken(st: State, i: nat) {
    && i < |st.futs| && i < |st.lives|
    && st.futs[i].op == Some(i)
    && st.futs[i].result.None?
    && st.lives[i] == Life(None, 0, None)
  }

  // Closure `c` was taken by worker `k`, which holds it in state `l`.
  ghost predicate Held(st: State, c: nat, k: nat, runs: nat, ran: Option<Outcome>) {
    && c < |st.futs| && c < |st.lives|
    && st.futs[c].op.None? && st.futs[c].result.None?
    && st.lives[c] == Life(Some(k), runs, ran)
  }

  // Closure `i` ran exactly once and returned `o`.
  ghost predicate RanOnce(st: State, i: nat, o: Outcome) {
    && i < |st.futs| && i < |st.lives|
    && o.closure == i
    && st.futs[i].op.None?
    && st.lives[i].runs == 1 && st.lives[i].ran == Some(o)
  }

  // Who owns a slot that is not free.
  ghost predicate OwnedBy(p: Phase, i: nat) {
    match p
    case PQueued(f) => f == i
    case PWork(_, f) => f == i
    case PDone(f, _) => f == i
    case _ => false
  }

  // A parked owner will be polled again: it is woken, or its waker is registered and the slot is not
  // Done, or the worker that stored Done has still to wake that waker.
  ghost predicate Notified(st: State, i: nat, s: nat)
    requires i < |st.futs| && s < |st.slots| && s < |st.phase|
  {
    || st.futs[i].woken
    || (&& st.slots[s].waker == Some(st.futs[i].task)
        && (st.phase[s].PDone? ==> AboutToWake(st, st.phase[s].k, s)))
  }

  // ---------------------------------------------------------------- one future

  ghost predicate FutOk(st: State, i: nat)
    requires Shape(st) && i < |st.futs|
  {
    var f := st.futs[i];
    && (FutSlot(f.pc).Some? ==> FutSlot(f.pc).value < |st.slots|)
    && (FutLock(f.pc).Some? ==> st.slots[FutLock(f.pc).value].lock == Some(Fut(i)))
    && (InWaiters(st, Fut(i)) ==> st.waitersLock == Some(Fut(i)))
    && match f.pc
       case Parked =>
         if f.slot.Some? then
           && f.slot.value < |st.slots|
           && OwnedBy(st.phase[f.slot.value], i)
           && Notified(st, i, f.slot.value)
         else
           Untaken(st, i) && (f.woken || f.task in st.waiters)
       case ClaimLock => f.slot.None? && Untaken(st, i)
       case ClaimScan(j) => f.slot.None? && Untaken(st, i) && j <= |st.slots|
       case ClaimUnlock(found) =>
         && f.slot.None? && Untaken(st, i)
         && (if found.Some? then found.value < |st.slots| && st.phase[found.value] == PClaimed(i)
             else f.woken || f.task in st.waiters)
       case SetWaker(s) => Preparing(st, i, s)
       case WriteShared(s) => Preparing(st, i, s) && Registered(st, i, s)
       case WriteRunner(s) => Preparing(st, i, s) && Registered(st, i, s) && st.slots[s].shared == Some(i)
       case StartCas(s) => Prepared(st, i, s)
       case Spawn(s, w) => Prepared(st, i, s) && st.started && w <= |st.workers|
       case StoreQueued(s) => Prepared(st, i, s) && st.started
       case Send(s) => Prepared(st, i, s) && st.started
       case ResetWaker(s) => f.slot == Some(s) && OwnedBy(st.phase[s], i)
       case LoadState(s) => f.slot == Some(s) && OwnedBy(st.phase[s], i) && Registered(st, i, s)
       case TakeResult(s) => f.slot == Some(s) && st.phase[s].PDone? && st.phase[s].f == i
       case RelFree(s, next) => st.phase[s] == PReleasing(i) && Returned(st, i, next)
       case RelLock(next) => Returned(st, i, next)
       case RelWake(next) => Returned(st, i, next)
       case RelUnlock(next) => Returned(st, i, next)
       case Finished(o) => RanOnce(st, i, o) && f.slot.None?
       case DropRemove(s) => OwnedBy(st.phase[s], i)
       case DropLock(s) => OwnedBy(st.phase[s], i) && !st.phase[s].PQueued?
       case DropLoad(s) => OwnedBy(st.phase[s], i) && !st.phase[s].PQueued?
       case DropNull(s) => st.phase[s].PWork? && st.phase[s].f == i
       case DropOrphan(s) => st.phase[s].PWork? && st.phase[s].f == i
       case DropUnlock(s, orphaned) => !orphaned ==> st.phase[s] == PReleasing(i)
       case Gone => true
  }

  ghost predicate Preparing(st: State, i: nat, s: nat)
    requires Shape(st) && i < |st.futs|
  {
    s < |st.slots| && st.futs[i].slot == Some(s) && st.phase[s] == PClaimed(i) && Untaken(st, i)
  }

  ghost predicate Registered(st: State, i: nat, s: nat)
    requires i < |st.futs| && s < |st.slots|
  {
    st.futs[i].woken || st.slots[s].waker == Some(st.futs[i].task)
  }

  ghost predicate Prepared(st: State, i: nat, s: nat)
    requires Shape(st) && i < |st.futs|
  {
    && Preparing(st, i, s) && Registered(st, i, s)
    && st.slots[s].shared == Some(i) && st.slots[s].runner == Some(i)
  }

  ghost predicate Returned(st: State, i: nat, next: Option<Outcome>)
    requires i < |st.futs|
  {
    next.Some? ==> RanOnce(st, i, next.value) && st.futs[i].slot.None?
  }

  // ---------------------------------------------------------------- one worker

  // The future whose operation a dequeued slot carries.
  function Submitter(p: Phase): Option<nat> {
    match p
    case PWork(_, f) => Some(f)
    case PDetached(_, f) => Some(f)
    case _ => None
  }

  // Worker `k` answers for slot `s`, which carries the operation of future `r`.
  ghost predicate Serving(st: State, k: nat, s: nat, r: nat)
    requires Shape(st)
  {
    s < |st.slots| && r < |st.futs| && (st.phase[s] == PWork(k, r) || st.phase[s] == PDetached(k, r))
  }

  ghost predicate WorkOk(st: State, k: nat)
    requires Shape(st) && k < |st.workers|
  {
    var pc := st.workers[k];
    && (WorkSlot(pc).Some? ==> WorkSlot(pc).value < |st.slots|)
    && (WorkLock(pc).Some? ==> st.slots[WorkLock(pc).value].lock == Some(Wrk(k)))
    && (InWaiters(st, Wrk(k)) ==> st.waitersLock == Some(Wrk(k)))
    && match pc
       case ReadRunner(s) =>
         && Submitter(st.phase[s]).Some?
         && var r := Submitter(st.phase[s]).value;
            Serving(st, k, s, r) && Untaken(st, r) && st.slots[s].runner == Some(r)
       case Lock1(s, r) => Serving(st, k, s, r) && Untaken(st, r)
       case Load1(s, r) => Serving(st, k, s, r) && Untaken(st, r)
       case TakeOp(s, r) => Serving(st, k, s, r) && Untaken(st, r) && st.phase[s].PWork?
       case Unlock1(s, r, op) =>
         if op.Some? then op.value == r && Serving(st, k, s, r) && Held(st, r, k, 0, None)
         else Serving(st, k, s, r) && Untaken(st, r) && st.phase[s].PDetached?
       case Call(s, r, c) => c == r && Serving(st, k, s, r) && Held(st, r, k, 0, None)
       case Running(s, r, c) => c == r && Serving(st, k, s, r) && Held(st, r, k, 1, None)
       case Lock2(s, r, o) => Serving(st, k, s, r) && o.closure == r && Held(st, r, k, 1, Some(o))
       case Load2(s, r, o) => Serving(st, k, s, r) && o.closure == r && Held(st, r, k, 1, Some(o))
       case WriteResult(s, r, o) =>
         Serving(st, k, s, r) && o.closure == r && Held(st, r, k, 1, Some(o)) && st.phase[s].PWork?
       case StoreDone(s, r) =>
         && Serving(st, k, s, r) && st.phase[s].PWork?
         && st.futs[r].result.Some? && RanOnce(st, r, st.futs[r].result.value)
       case Unlock2(s, orphaned) => orphaned ==> st.phase[s].PDetached? && st.phase[s].k == k
       case FreeSlot(s) => st.phase[s].PDetached? && st.phase[s].k == k
       case _ => true
  }

  // ---------------------------------------------------------------- one slot

  // Future `i` is between two operations that concern slot `s`, which it owns.
  ghost predicate Attached(st: State, i: nat, s: nat) {
    && i < |st.futs|
    && match st.At(i)
       case Parked => st.futs[i].slot == Some(s)
       case ResetWaker(s') => s' == s
       case LoadState(s') => s' == s
       case DropRemove(s') => s' == s
       case _ => false
  }

  ghost predicate Dropping(st: State, i: nat, s: nat) {
    i < |st.futs| && (st.At(i) == DropLock(s) || st.At(i) == DropLoad(s))
  }

  ghost predicate Claiming(st: State, i: nat, s: nat) {
    && i < |st.futs|
    && match st.At(i)
       case ClaimUnlock(found) => found == Some(s)
       case SetWaker(s') => s' == s
       case WriteShared(s') => s' == s
       case WriteRunner(s') => s' == s
       case StartCas(s') => s' == s
       case Spawn(s', _) => s' == s
       case StoreQueued(s') => s' == s
       case Send(s') => s' == s
       case _ => false
  }

  // The worker's program counter belongs to the part of `run_op` that owns slot `s`.
  ghost predicate Handling(pc: WorkPc, s: nat) {
    WorkSlot(pc) == Some(s) && !pc.Wake? && !(pc.Unlock2? && !pc.orphaned)
  }

  ghost predicate SlotOk(st: State, s: nat)
    requires Shape(st) && s < |st.slots|
  {
    var v := st.slots[s];
    && (v.lock.Some? ==> LockOf(st, v.lock.value) == Some(s))
    && (s in st.queue <==> st.phase[s].PQueued?)
    && match st.phase[s]
       case PFree(_) => v.state == Free
       case PClaimed(f) =>
         Claiming(st, f, s) && v.state == (if st.At(f).Send? then Queued else Claimed)
       case PQueued(f) =>
         && v.state == Queued && Attached(st, f, s) && Untaken(st, f)
         && v.shared == Some(f) && v.runner == Some(f)
       case PWork(k, f) =>
         && v.state == Queued && v.runner == Some(f)
         && k < |st.workers| && Handling(st.workers[k], s)
         && f < |st.futs|
         && (|| (v.shared == Some(f)
                 && (Attached(st, f, s) || Dropping(st, f, s) || st.At(f) == DropNull(s)))
             || (v.shared.None? && st.At(f) == DropOrphan(s)))
       case PDetached(k, f) =>
         && v.state == Orphaned && k < |st.workers| && Handling(st.workers[k], s)
         && f < |st.futs| && (st.At(f).Gone? || st.At(f) == DropUnlock(s, true))
       case PDone(f, k) =>
         && v.state == Done && f < |st.futs|
         && (Attached(st, f, s) || Dropping(st, f, s) || st.At(f) == TakeResult(s))
         && st.futs[f].result.Some? && RanOnce(st, f, st.futs[f].result.value)
       case PReleasing(f) =>
         && v.state != Free && f < |st.futs|
         && ((st.At(f).RelFree? && st.At(f).s == s) || st.At(f) == DropUnlock(s, false))
  }

  // ---------------------------------------------------------------- the pool

  ghost predicate GlobalOk(st: State)
    requires Shape(st)
  {
    && 1 <= |st.slots| && 1 <= |st.workers| && 1 <= st.cap
    && |st.waiters| <= st.cap
    && (st.waitersLock.Some? ==> InWaiters(st, st.waitersLock.value))
    && NoDup(st.queue) && (forall s :: s in st.queue ==> s < |st.slots|)
  }

  // No lost slot waiter: while a task waits, whoever freed a slot that is still free has yet to wake it.
  ghost predicate WaitersOk(st: State)
    requires Shape(st)
  {
    && (st.waiters != {} ==> forall s :: 0 <= s < |st.slots| ==> FreedByWaker(st, s))
    && (forall i :: 0 <= i < |st.futs| && st.At(i).ClaimScan? ==> ScannedOk(st, st.At(i).j))
  }

  // The slots a scan has passed and that are free now were freed by somebody who has yet to wake.
  ghost predicate ScannedOk(st: State, j: nat)
    requires Shape(st)
  {
    forall s :: 0 <= s < |st.slots| && s < j ==> FreedByWaker(st, s)
  }

  // How many worker threads have been started: none, those the starter has come to, or all.
  function Up(st: State): nat {
    if !st.started then 0
    else if st.starter < |st.futs| && st.At(st.starter).Spawn? then st.At(st.starter).w
    else |st.workers|
  }

  ghost predicate StartOk(st: State) {
    && (st.queue != [] ==> st.started)
    && (forall i :: 0 <= i < |st.futs| && st.futs[i].pc.Spawn? ==> st.started && st.starter == i)
    && (forall k :: 0 <= k < |st.workers| ==> (st.workers[k].Off? <==> k >= Up(st)))
  }

  ghost predicate Inv(st: State) {
    && Shape(st)
    && GlobalOk(st)
    && (forall i :: 0 <= i < |st.futs| ==> FutOk(st, i))
    && (forall k :: 0 <= k < |st.workers| ==> WorkOk(st, k))
    && (forall s :: 0 <= s < |st.slots| ==> SlotOk(st, s))
  }
}
