/**
 The blocking worker pool of zephyr/src/blocking.rs as a step relation.

 A state holds any number of futures, slots and workers.  Every future and every worker carries a
 program counter, and one step executes exactly one atomic operation, lock operation, queue operation
 or access to an `UnsafeCell`.  Atomics are sequentially consistent.  Steps of different actors
 interleave freely, so a lock-free read of a slot's state may run between any two steps of a worker
 that is still inside the slot lock.
 */
module BlockingPool {
  import opened Prelude

  datatype SlotState = Free | Claimed | Queued | Done | Orphaned

  // A waker; two wakers are equal when they wake the same task.
  type Task = nat

  // What one execution of a closure returned.  Closure `i` is the one future `i` was created with.
  datatype Outcome = Outcome(closure: nat, value: int)

  // The threads of control: future `i` while it is polled or dropped, and worker thread `k`.
  datatype Actor = Fut(i: nat) | Wrk(k: nat)

  // `shared` and `runner` name the future they were written for.
  datatype Slot = Slot(
    state: SlotState,
    lock: Option<Actor>,
    shared: Option<nat>,
    runner: Option<nat>,
    waker: Option<Task>)

  // The next operation of a future.  `s` is a slot, `next` is what follows a release: the result that
  // `poll` returns, or nothing when `drop` is running.
  datatype FutPc =
    | Parked
    | ClaimLock
    | ClaimScan(j: nat)
    | ClaimUnlock(found: Option<nat>)
    | SetWaker(s: nat)
    | WriteShared(s: nat)
    | WriteRunner(s: nat)
    | StartCas(s: nat)
    | Spawn(s: nat, w: nat)
    | StoreQueued(s: nat)
    | Send(s: nat)
    | ResetWaker(s: nat)
    | LoadState(s: nat)
    | TakeResult(s: nat)
    | RelFree(s: nat, next: Option<Outcome>)
    | RelLock(next: Option<Outcome>)
    | RelWake(next: Option<Outcome>)
    | RelUnlock(next: Option<Outcome>)
    | Finished(out: Outcome)
    | DropRemove(s: nat)
    | DropLock(s: nat)
    | DropLoad(s: nat)
    | DropNull(s: nat)
    | DropOrphan(s: nat)
    | DropUnlock(s: nat, orphaned: bool)
    | Gone

  // The next operation of a worker; `r` is the runner it read, `c` the closure it took.
  datatype WorkPc =
    | Off
    | Idle
    | ReadRunner(s: nat)
    | Lock1(s: nat, r: nat)
    | Load1(s: nat, r: nat)
    | TakeOp(s: nat, r: nat)
    | Unlock1(s: nat, r: nat, op: Option<nat>)
    | Call(s: nat, r: nat, c: nat)
    | Running(s: nat, r: nat, c: nat)
    | Lock2(s: nat, r: nat, o: Outcome)
    | Load2(s: nat, r: nat, o: Outcome)
    | WriteResult(s: nat, r: nat, o: Outcome)
    | StoreDone(s: nat, r: nat)
    | Unlock2(s: nat, orphaned: bool)
    | Wake(s: nat)
    | FreeSlot(s: nat)
    | WaitersLock
    | WaitersWake
    | WaitersUnlock

  // `op` and `result` are the cells of `Shared`.  `task` is the waker of the latest poll, and `woken`
  // says that this task has been woken since that poll began (or that it was never polled).
  datatype Future = Future(
    pc: FutPc,
    slot: Option<nat>,
    op: Option<nat>,
    result: Option<Outcome>,
    task: Task,
    woken: bool)

  // Bookkeeping for the proofs: who answers for a slot.  No guard and no other field depends on it.
  datatype Phase =
    | PFree(last: Option<Actor>) // free; `last` stored Free most recently
    | PClaimed(f: nat)           // being set up by future f
    | PQueued(f: nat)            // in the queue, owned by f
    | PWork(k: nat, f: nat)      // dequeued by worker k, owned by f
    | PDetached(k: nat, f: nat)  // orphaned by f, worker k has to release it
    | PDone(f: nat, k: nat)      // worker k stored Done, f has to release it
    | PReleasing(f: nat)         // f alone holds it and is about to release it

  // Bookkeeping for the proofs: the life of one closure.
  datatype Life = Life(taker: Option<nat>, runs: nat, ran: Option<Outcome>)

  datatype State = State(
    slots: seq<Slot>,
    waiters: set<Task>,
    waitersLock: Option<Actor>,
    queue: seq<nat>,
    started: bool,
    futs: seq<Future>,
    workers: seq<WorkPc>,
    cap: nat,
    // bookkeeping
    phase: seq<Phase>,
    lives: seq<Life>,
    starter: nat,
    sent: seq<nat>,
    got: seq<nat>,
    removed: set<nat>)
  {
    function At(i: nat): FutPc requires i < |futs| { futs[i].pc }

    function SetFut(i: nat, f: Future): State requires i < |futs| { this.(futs := futs[i := f]) }

    function GoFut(i: nat, pc: FutPc): State requires i < |futs| {
      this.(futs := futs[i := futs[i].(pc := pc)])
    }

    function GoWork(k: nat, pc: WorkPc): State requires k < |workers| {
      this.(workers := workers[k := pc])
    }

    function SetSlot(s: nat, v: Slot): State requires s < |slots| { this.(slots := slots[s := v]) }

    function SetPhase(s: nat, p: Phase): State requires s < |phase| { this.(phase := phase[s := p]) }

    function SetLife(c: nat, l: Life): State requires c < |lives| { this.(lives := lives[c := l]) }

    // Every future whose latest poll used one of the tasks `ts` is woken.
    function WakeAll(ts: set<Task>): State {
      this.(futs := seq(|futs|, i requires 0 <= i < |futs| =>
        if futs[i].task in ts then futs[i].(woken := true) else futs[i]))
    }
  }

  // The bookkeeping covers every slot and every future.
  predicate Shape(st: State) {
    && |st.phase| == |st.slots|
    && |st.lives| == |st.futs|
  }

  // No step creates or destroys a slot, a future or a worker.
  predicate SameSize(st: State, st': State) {
    && Shape(st) && Shape(st')
    && |st'.slots| == |st.slots| && |st'.futs| == |st.futs| && |st'.workers| == |st.workers|
  }

  function FutSlot(pc: FutPc): Option<nat> {
    match pc
    case SetWaker(s) => Some(s)
    case WriteShared(s) => Some(s)
    case WriteRunner(s) => Some(s)
    case StartCas(s) => Some(s)
    case Spawn(s, _) => Some(s)
    case StoreQueued(s) => Some(s)
    case Send(s) => Some(s)
    case ResetWaker(s) => Some(s)
    case LoadState(s) => Some(s)
    case TakeResult(s) => Some(s)
    case RelFree(s, _) => Some(s)
    case DropRemove(s) => Some(s)
    case DropLock(s) => Some(s)
    case DropLoad(s) => Some(s)
    case DropNull(s) => Some(s)
    case DropOrphan(s) => Some(s)
    case DropUnlock(s, _) => Some(s)
    case _ => None
  }

  function WorkSlot(pc: WorkPc): Option<nat> {
    match pc
    case ReadRunner(s) => Some(s)
    case Lock1(s, _) => Some(s)
    case Load1(s, _) => Some(s)
    case TakeOp(s, _) => Some(s)
    case Unlock1(s, _, _) => Some(s)
    case Call(s, _, _) => Some(s)
    case Running(s, _, _) => Some(s)
    case Lock2(s, _, _) => Some(s)
    case Load2(s, _, _) => Some(s)
    case WriteResult(s, _, _) => Some(s)
    case StoreDone(s, _) => Some(s)
    case Unlock2(s, _) => Some(s)
    case Wake(s) => Some(s)
    case FreeSlot(s) => Some(s)
    case _ => None
  }

  // ---------------------------------------------------------------- futures: poll

  // `poll` begins with waker `t`: a future without a slot goes to `claim`, one with a slot re-registers.
  function PollStart(st: State, i: nat, t: Task): State
    requires i < |st.futs|
  {
    var f := st.futs[i];
    st.SetFut(i, f.(task := t, woken := false,
                    pc := if f.slot.Some? then ResetWaker(f.slot.value) else ClaimLock))
  }

  // One compare-exchange of the scan, or the registration once every slot was tried.
  function ClaimNext(st: State, i: nat, j: nat): (r: State)
    requires Shape(st) && i < |st.futs|
    ensures SameSize(st, r)
  {
    if j < |st.slots| then
      if st.slots[j].state == Free then
        st.SetSlot(j, st.slots[j].(state := Claimed))
          .SetPhase(j, PClaimed(i))
          .GoFut(i, ClaimUnlock(Some(j)))
      else
        st.GoFut(i, ClaimScan(j + 1))
    else
      Register(st, st.futs[i].task).GoFut(i, ClaimUnlock(None))
  }

  // `MultiWakerRegistration::register`: a known task is kept, a full list is woken and emptied first.
  function Register(st: State, t: Task): (r: State)
    ensures |r.futs| == |st.futs|
  {
    if t in st.waiters then st
    else if |st.waiters| < st.cap then st.(waiters := st.waiters + {t})
    else st.WakeAll(st.waiters).(waiters := {t})
  }

  function ReleaseFree(st: State, s: nat, a: Actor): (r: State)
    requires Shape(st) && s < |st.slots|
    ensures SameSize(st, r)
  {
    st.SetSlot(s, st.slots[s].(state := Free)).SetPhase(s, PFree(Some(a)))
  }

  function SendSlot(st: State, i: nat, s: nat): (r: State)
    requires Shape(st) && i < |st.futs| && s < |st.slots|
    ensures SameSize(st, r)
  {
    st.(queue := st.queue + [s], sent := st.sent + [i]).SetPhase(s, PQueued(i)).GoFut(i, Parked)
  }

  function TakeDone(st: State, i: nat, s: nat): (r: State)
    requires Shape(st) && i < |st.futs| && s < |st.slots|
    requires st.futs[i].result.Some?
    ensures SameSize(st, r)
  {
    var f := st.futs[i];
    st.SetFut(i, f.(result := None, slot := None, pc := RelFree(s, f.result)))
      .SetPhase(s, PReleasing(i))
  }

  function Without(q: seq<nat>, s: nat): (r: seq<nat>) {
    if q == [] then [] else if q[0] == s then q[1..] else [q[0]] + Without(q[1..], s)
  }

  // `QUEUE.remove`: unlinks the slot if it is still queued.
  function RemoveNext(st: State, i: nat, s: nat): (r: State)
    requires Shape(st) && i < |st.futs| && s < |st.slots|
    ensures SameSize(st, r)
  {
    if s in st.queue then
      st.(queue := Without(st.queue, s), removed := st.removed + {i})
        .SetPhase(s, PReleasing(i)).GoFut(i, RelFree(s, None))
    else
      st.GoFut(i, DropLock(s))
  }

  // Whether the future's next operation exists and does not have to wait for a lock.
  predicate FutReady(st: State, i: nat) {
    i < |st.futs| &&
    match st.At(i)
    case Parked => false
    case Finished(_) => false
    case Gone => false
    case ClaimLock => st.waitersLock.None?
    case RelLock(_) => st.waitersLock.None?
    case DropLock(s) => s < |st.slots| && st.slots[s].lock.None?
    case _ => true
  }

  // Panics and undefined behaviour the next operation of future `i` could meet.
  predicate FutFaults(st: State, i: nat)
    requires i < |st.futs|
  {
    var pc := st.At(i);
    || (FutSlot(pc).Some? && FutSlot(pc).value >= |st.slots|)
    || (pc.TakeResult? && st.futs[i].result.None?)                      // "reported Done without a result"
    || (pc.RelFree? && st.slots[pc.s].state == Free)                    // a slot released twice
    || (pc.WriteShared? && st.slots[pc.s].state != Claimed)             // cell not exclusively owned
    || (pc.WriteRunner? && st.slots[pc.s].state != Claimed)
    || (pc.Send? && pc.s in st.queue)                                   // linked twice
    || (pc.ClaimUnlock? && pc.found.Some? && pc.found.value >= |st.slots|)
    || (pc.ClaimUnlock? && st.waitersLock != Some(Fut(i)))              // unlock by a non-holder
    || (pc.RelUnlock? && st.waitersLock != Some(Fut(i)))
    || (pc.DropUnlock? && st.slots[pc.s].lock != Some(Fut(i)))
  }

  // The next operation of future `i`, other than the start of a poll or a drop.
  function FutNext(st: State, i: nat): (r: State)
    requires Shape(st) && FutReady(st, i) && !FutFaults(st, i)
    ensures SameSize(st, r)
  {
    var f := st.futs[i];
    match f.pc
    case ClaimLock => st.(waitersLock := Some(Fut(i))).GoFut(i, ClaimScan(0))
    case ClaimScan(j) => ClaimNext(st, i, j)
    case ClaimUnlock(found) =>
      if found.Some? then
        st.(waitersLock := None).SetFut(i, f.(slot := found, pc := SetWaker(found.value)))
      else
        st.(waitersLock := None).GoFut(i, Parked)
    case SetWaker(s) => st.SetSlot(s, st.slots[s].(waker := Some(f.task))).GoFut(i, WriteShared(s))
    case WriteShared(s) => st.SetSlot(s, st.slots[s].(shared := Some(i))).GoFut(i, WriteRunner(s))
    case WriteRunner(s) => st.SetSlot(s, st.slots[s].(runner := Some(i))).GoFut(i, StartCas(s))
    case StartCas(s) =>
      if st.started then st.GoFut(i, StoreQueued(s))
      else st.(started := true, starter := i).GoFut(i, Spawn(s, 0))
    case Spawn(s, w) =>
      if w < |st.workers| then st.GoWork(w, Idle).GoFut(i, Spawn(s, w + 1))
      else st.GoFut(i, StoreQueued(s))
    case StoreQueued(s) => st.SetSlot(s, st.slots[s].(state := Queued)).GoFut(i, Send(s))
    case Send(s) => SendSlot(st, i, s)
    case ResetWaker(s) => st.SetSlot(s, st.slots[s].(waker := Some(f.task))).GoFut(i, LoadState(s))
    case LoadState(s) => st.GoFut(i, if st.slots[s].state == Done then TakeResult(s) else Parked)
    case TakeResult(s) => TakeDone(st, i, s)
    case RelFree(s, next) => ReleaseFree(st, s, Fut(i)).GoFut(i, RelLock(next))
    case RelLock(next) => st.(waitersLock := Some(Fut(i))).GoFut(i, RelWake(next))
    case RelWake(next) => st.WakeAll(st.waiters).(waiters := {}).GoFut(i, RelUnlock(next))
    case RelUnlock(next) =>
      st.(waitersLock := None).GoFut(i, if next.Some? then Finished(next.value) else Gone)
    case DropRemove(s) => RemoveNext(st, i, s)
    case DropLock(s) => st.SetSlot(s, st.slots[s].(lock := Some(Fut(i)))).GoFut(i, DropLoad(s))
    case DropLoad(s) =>
      if st.slots[s].state == Done then st.SetPhase(s, PReleasing(i)).GoFut(i, DropUnlock(s, false))
      else st.GoFut(i, DropNull(s))
    case DropNull(s) => st.SetSlot(s, st.slots[s].(shared := None)).GoFut(i, DropOrphan(s))
    case DropOrphan(s) =>
      var st1 := st.SetSlot(s, st.slots[s].(state := Orphaned)).GoFut(i, DropUnlock(s, true));
      if st.phase[s].PWork? then st1.SetPhase(s, PDetached(st.phase[s].k, i)) else st1
    case DropUnlock(s, orphaned) =>
      st.SetSlot(s, st.slots[s].(lock := None)).GoFut(i, if orphaned then Gone else RelFree(s, None))
  }

  // `drop` begins: without a slot nothing is left to do.
  function DropStart(st: State, i: nat): State
    requires i < |st.futs|
  {
    var f := st.futs[i];
    st.GoFut(i, if f.slot.Some? then DropRemove(f.slot.value) else Gone)
  }

  // ---------------------------------------------------------------- workers

  predicate WorkReady(st: State, k: nat) {
    k < |st.workers| &&
    match st.workers[k]
    case Off => false
    case Idle => st.queue != []
    case Lock1(s, _) => s < |st.slots| && st.slots[s].lock.None?
    case Lock2(s, _, _) => s < |st.slots| && st.slots[s].lock.None?
    case WaitersLock => st.waitersLock.None?
    case _ => true
  }

  // `shared` of slot `s` cannot be followed: null, dangling, or written for another closure type.
  predicate BadShared(st: State, s: nat, r: nat)
    requires s < |st.slots|
  {
    var p := st.slots[s].shared;
    p.None? || p.value >= |st.futs| || st.At(p.value).Gone? || p.value != r
  }

  predicate WorkFaults(st: State, k: nat)
    requires k < |st.workers|
  {
    var pc := st.workers[k];
    || (WorkSlot(pc).Some? && WorkSlot(pc).value >= |st.slots|)
    || (pc.Idle? && st.queue != [] && st.queue[0] >= |st.slots|)
    || (pc.ReadRunner? && st.slots[pc.s].runner.None?)                  // "slot with no runner"
    || (pc.TakeOp? && BadShared(st, pc.s, pc.r))
    || (pc.WriteResult? && BadShared(st, pc.s, pc.r))
    || (pc.Call? && pc.c >= |st.lives|)
    || (pc.FreeSlot? && st.slots[pc.s].state == Free)                   // a slot released twice
    || (pc.Unlock1? && st.slots[pc.s].lock != Some(Wrk(k)))             // unlock by a non-holder
    || (pc.Unlock2? && st.slots[pc.s].lock != Some(Wrk(k)))
    || (pc.WaitersUnlock? && st.waitersLock != Some(Wrk(k)))
    || (pc.Running? && pc.c >= |st.lives|)
  }

  // `op.take()`; the worker now holds whatever the cell held.
  function TakeClosure(st: State, k: nat, s: nat, r: nat): State
    requires Shape(st) && k < |st.workers| && s < |st.slots| && !BadShared(st, s, r)
  {
    var p := st.slots[s].shared.value;
    var f := st.futs[p];
    st.SetFut(p, f.(op := None)).SetLife(p, st.lives[p].(taker := Some(k)))
      .GoWork(k, Unlock1(s, r, f.op))
  }

  function PublishDone(st: State, k: nat, s: nat): State
    requires Shape(st) && k < |st.workers| && s < |st.slots|
  {
    var st1 := st.SetSlot(s, st.slots[s].(state := Done)).GoWork(k, Unlock2(s, false));
    if st.phase[s].PWork? then st1.SetPhase(s, PDone(st.phase[s].f, k)) else st1
  }

  // `AtomicWaker::wake`; `keep` says whether the waker stays registered afterwards.
  function WakeSlot(st: State, k: nat, s: nat, keep: bool): State
    requires k < |st.workers| && s < |st.slots|
  {
    var w := st.slots[s].waker;
    var st1 := if w.Some? then st.WakeAll({w.value}) else st;
    st1.SetSlot(s, st1.slots[s].(waker := if keep then w else None)).GoWork(k, Idle)
  }

  // Dequeueing hands the slot to the worker.
  function Receive(st: State, k: nat): State
    requires Shape(st) && k < |st.workers| && st.queue != [] && st.queue[0] < |st.slots|
  {
    var s := st.queue[0];
    var st1 := st.(queue := st.queue[1..]).GoWork(k, ReadRunner(s));
    if st.phase[s].PQueued? then
      st1.(got := st.got + [st.phase[s].f]).SetPhase(s, PWork(k, st.phase[s].f))
    else st1
  }

  // The next operation of worker `k`; `v` is what a returning closure computed.
  function WorkNext(st: State, k: nat, v: int, keep: bool): (r: State)
    requires Shape(st) && WorkReady(st, k) && !WorkFaults(st, k)
    ensures SameSize(st, r)
  {
    match st.workers[k]
    case Idle => Receive(st, k)
    case ReadRunner(s) => st.GoWork(k, Lock1(s, st.slots[s].runner.value))
    case Lock1(s, r) => st.SetSlot(s, st.slots[s].(lock := Some(Wrk(k)))).GoWork(k, Load1(s, r))
    case Load1(s, r) =>
      st.GoWork(k, if st.slots[s].state == Orphaned then Unlock1(s, r, None) else TakeOp(s, r))
    case TakeOp(s, r) => TakeClosure(st, k, s, r)
    case Unlock1(s, r, op) =>
      st.SetSlot(s, st.slots[s].(lock := None))
        .GoWork(k, if op.Some? then Call(s, r, op.value) else FreeSlot(s))
    case Call(s, r, c) =>
      st.SetLife(c, st.lives[c].(runs := st.lives[c].runs + 1)).GoWork(k, Running(s, r, c))
    case Running(s, r, c) =>
      st.SetLife(c, st.lives[c].(ran := Some(Outcome(c, v)))).GoWork(k, Lock2(s, r, Outcome(c, v)))
    case Lock2(s, r, o) => st.SetSlot(s, st.slots[s].(lock := Some(Wrk(k)))).GoWork(k, Load2(s, r, o))
    case Load2(s, r, o) =>
      st.GoWork(k, if st.slots[s].state == Orphaned then Unlock2(s, true) else WriteResult(s, r, o))
    case WriteResult(s, r, o) =>
      var p := st.slots[s].shared.value;
      st.SetFut(p, st.futs[p].(result := Some(o))).GoWork(k, StoreDone(s, r))
    case StoreDone(s, r) => PublishDone(st, k, s)
    case Unlock2(s, orphaned) =>
      st.SetSlot(s, st.slots[s].(lock := None)).GoWork(k, if orphaned then FreeSlot(s) else Wake(s))
    case Wake(s) => WakeSlot(st, k, s, keep)
    case FreeSlot(s) => ReleaseFree(st, s, Wrk(k)).GoWork(k, WaitersLock)
    case WaitersLock => st.(waitersLock := Some(Wrk(k))).GoWork(k, WaitersWake)
    case WaitersWake => st.WakeAll(st.waiters).(waiters := {}).GoWork(k, WaitersUnlock)
    case WaitersUnlock => st.(waitersLock := None).GoWork(k, Idle)
  }

  // ---------------------------------------------------------------- steps and runs

  // A poll or drop may begin at any moment the future is not already being polled or dropped.
  datatype Action =
    | Poll(i: nat, t: Task)
    | Drop(i: nat)
    | FutStep(i: nat)
    | WorkStep(k: nat, v: int, keep: bool)

  predicate Enabled(st: State, a: Action) {
    match a
    case Poll(i, _) => i < |st.futs| && st.At(i).Parked?
    case Drop(i) => i < |st.futs| && (st.At(i).Parked? || st.At(i).Finished?)
    case FutStep(i) => FutReady(st, i)
    case WorkStep(k, _, _) => WorkReady(st, k)
  }

  predicate Faults(st: State, a: Action)
    requires Enabled(st, a)
  {
    match a
    case FutStep(i) => FutFaults(st, i)
    case WorkStep(k, _, _) => WorkFaults(st, k)
    case _ => false
  }

  function Next(st: State, a: Action): (r: State)
    requires Shape(st) && Enabled(st, a) && !Faults(st, a)
    ensures SameSize(st, r)
  {
    match a
    case Poll(i, t) => PollStart(st, i, t)
    case Drop(i) => DropStart(st, i)
    case FutStep(i) => FutNext(st, i)
    case WorkStep(k, v, keep) => WorkNext(st, k, v, keep)
  }

  // The pool before first use: all slots free, no worker spawned, every future still to be polled.
  predicate Init(st: State) {
    && Shape(st)
    && 1 <= |st.slots| && 1 <= |st.workers| && 1 <= st.cap
    && st.waiters == {} && st.waitersLock.None? && st.queue == [] && !st.started
    && (forall s :: 0 <= s < |st.slots| ==> st.slots[s] == Slot(Free, None, None, None, None))
    && (forall i :: 0 <= i < |st.futs| ==>
         st.futs[i] == Future(Parked, None, Some(i), None, st.futs[i].task, true))
    && (forall k :: 0 <= k < |st.workers| ==> st.workers[k] == Off)
    && (forall s :: 0 <= s < |st.slots| ==> st.phase[s] == PFree(None))
    && (forall i :: 0 <= i < |st.futs| ==> st.lives[i] == Life(None, 0, None))
    && st.sent == [] && st.got == [] && st.removed == {}
  }

  // A finite run: each state follows from the previous one by the action between them.
  datatype Run = Run(states: seq<State>, actions: seq<Action>)

  ghost predicate Step(st: State, a: Action, st': State) {
    Shape(st) && Enabled(st, a) && !Faults(st, a) && st' == Next(st, a)
  }

  ghost predicate ValidRun(r: Run) {
    && |r.states| == |r.actions| + 1
    && forall n :: 0 <= n < |r.actions| ==> Step(r.states[n], r.actions[n], r.states[n + 1])
  }

  ghost predicate Execution(r: Run) {
    ValidRun(r) && Init(r.states[0])
  }

  ghost predicate Reachable(st: State) {
    exists r: Run :: Execution(r) && r.states[|r.actions|] == st
  }
}
