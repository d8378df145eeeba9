/**
 The mutex and condition variable of zephyr/src/sync/mutex.rs on top of a kernel mutex that its owner may
 lock again.  Any number of threads run; a step is one kernel call or one access to the `locked` flag.
 */
module MutexGuards {
  import opened Prelude

  // What a thread is about to do.  `guard` in `Thread` says whether it has a MutexGuard.
  datatype Pc =
    | Ready
    | Locking(try_: bool)   // kernel lock, for lock() or try_lock()
    | Swapping(try_: bool)  // locked.swap(true)
    | Undoing(try_: bool)   // kernel unlock after a swap that found it set
    | Panicked
    | Clearing              // drop: locked.store(false)
    | Unlocking             // drop: kernel unlock
    | WaitClearing          // wait: locked.store(false)
    | Entering              // wait: the kernel unlocks the mutex and parks the thread
    | Parked
    | Relocking             // woken: kernel lock
    | Setting               // wait: locked.store(true)

  datatype Thread = Thread(pc: Pc, guard: bool)

  datatype State = State(threads: seq<Thread>, owner: Option<nat>, count: nat, locked: bool)
  {
    function Go(t: nat, pc: Pc, guard: bool): State
      requires t < |threads|
    {
      this.(threads := threads[t := Thread(pc, guard)])
    }
  }

  datatype Action =
    | Call(t: nat, pc: Pc) // a ready thread starts lock, try_lock, drop or wait
    | Go(t: nat)           // the next operation of a call
    | Notify(t: nat)       // a parked thread is woken, by a notification or spuriously

  // The kernel mutex.
  predicate CanLock(st: State, t: nat) { st.owner.None? || st.owner == Some(t) }

  function KLock(st: State, t: nat): State { st.(owner := Some(t), count := st.count + 1) }

  function KUnlock(st: State): State
    requires st.count > 0
  {
    if st.count == 1 then st.(owner := None, count := 0) else st.(count := st.count - 1)
  }

  predicate Enabled(st: State, a: Action) {
    && a.t < |st.threads|
    && var x := st.threads[a.t];
       match a
       case Call(_, pc) =>
         && x.pc.Ready?
         && (pc.Locking? || (x.guard && (pc.Clearing? || pc.WaitClearing?)))
       case Notify(_) => x.pc.Parked?
       case Go(t) =>
         match x.pc
         case Ready => false
         case Panicked => false
         case Parked => false
         case Locking(try_) => try_ || CanLock(st, t)
         case Relocking => CanLock(st, t)
         case _ => true
  }

  // The kernel refuses an unlock by anyone but the owner, which the code turns into a panic.
  predicate Faults(st: State, a: Action)
    requires Enabled(st, a)
  {
    && a.Go?
    && (st.threads[a.t].pc.Undoing? || st.threads[a.t].pc.Unlocking? || st.threads[a.t].pc.Entering?)
    && (st.owner != Some(a.t) || st.count == 0)
  }

  function Next(st: State, a: Action): (st': State)
    requires Enabled(st, a) && !Faults(st, a)
    ensures |st'.threads| == |st.threads|
  {
    var t, g := a.t, st.threads[a.t].guard;
    match a
    case Call(_, pc) => st.Go(t, pc, g && pc.Locking?)
    case Notify(_) => st.Go(t, Relocking, false)
    case Go(_) =>
      match st.threads[t].pc
      case Locking(try_) =>
        if CanLock(st, t) then KLock(st, t).Go(t, Swapping(try_), g) else st.Go(t, Ready, g)
      case Swapping(try_) =>
        if st.locked then st.Go(t, Undoing(try_), g) else st.(locked := true).Go(t, Ready, true)
      case Undoing(try_) => KUnlock(st).Go(t, if try_ then Ready else Panicked, g)
      case Clearing => st.(locked := false).Go(t, Unlocking, false)
      case Unlocking => KUnlock(st).Go(t, Ready, false)
      case WaitClearing => st.(locked := false).Go(t, Entering, false)
      case Entering => KUnlock(st).Go(t, Parked, false)
      case Relocking => KLock(st, t).Go(t, Setting, false)
      case Setting => st.(locked := true).Go(t, Ready, true)
  }

  ghost predicate Init(st: State) {
    && (forall t :: 0 <= t < |st.threads| ==> st.threads[t] == Thread(Ready, false))
    && st.owner.None? && st.count == 0 && !st.locked
  }

  datatype Run = Run(states: seq<State>, actions: seq<Action>)

  ghost predicate Step(st: State, a: Action, st': State) {
    Enabled(st, a) && !Faults(st, a) && st' == Next(st, a)
  }

  ghost predicate Execution(r: Run) {
    && |r.states| == |r.actions| + 1
    && Init(r.states[0])
    && forall n :: 0 <= n < |r.actions| ==> Step(r.states[n], r.actions[n], r.states[n + 1])
  }

  ghost predicate Reachable(st: State) {
    exists r: Run :: Execution(r) && r.states[|r.actions|] == st
  }

  // ---------------------------------------------------------------- the invariant

  // How many times a thread has the kernel mutex locked.
  function Held(x: Thread): nat {
    match x.pc
    case Ready => if x.guard then 1 else 0
    case Locking(_) => if x.guard then 1 else 0
    case Panicked => if x.guard then 1 else 0
    case Swapping(_) => if x.guard then 2 else 1
    case Undoing(_) => if x.guard then 2 else 1
    case Parked => 0
    case Relocking => 0
    case _ => 1
  }

  // A thread that has set the flag and not cleared it.
  predicate Flagged(x: Thread) { x.guard || x.pc.Clearing? || x.pc.WaitClearing? }

  ghost predicate ThreadOk(st: State, t: nat)
    requires t < |st.threads|
  {
    var x := st.threads[t];
    && (if st.owner == Some(t) then st.count == Held(x) > 0 else Held(x) == 0)
    && (x.guard ==> x.pc.Ready? || x.pc.Locking? || x.pc.Swapping? || x.pc.Undoing? || x.pc.Panicked?)
    && (x.pc.Undoing? || x.pc.Panicked? ==> x.guard)
    && (st.owner == Some(t) ==> st.locked == Flagged(x))
  }

  ghost predicate Inv(st: State) {
    && (forall t :: 0 <= t < |st.threads| ==> ThreadOk(st, t))
    && (st.owner.Some? ==> st.owner.value < |st.threads|)
    && (st.owner.None? ==> st.count == 0 && !st.locked)
  }

  lemma Keeps(st: State, a: Action)
    requires Inv(st) && Enabled(st, a)
    ensures !Faults(st, a) && Inv(Next(st, a))
  {
    assert ThreadOk(st, a.t);
    var st' := Next(st, a);
    forall u | 0 <= u < |st'.threads| ensures ThreadOk(st', u) {
      assert ThreadOk(st, u);
    }
  }

  lemma {:induction false} RunKeeps(r: Run, n: nat)
    requires Execution(r) && n <= |r.actions|
    ensures Inv(r.states[n])
  {
    if n > 0 {
      RunKeeps(r, n - 1);
      assert Step(r.states[n - 1], r.actions[n - 1], r.states[n]);
      Keeps(r.states[n - 1], r.actions[n - 1]);
    }
  }

  lemma ReachableOk(st: State)
    requires Reachable(st)
    ensures Inv(st)
  {
    var r: Run :| Execution(r) && r.states[|r.actions|] == st;
    RunKeeps(r, |r.actions|);
  }

  // ---------------------------------------------------------------- main results

  // At most one thread has a guard it could use, and then that thread has the kernel mutex.
  lemma OneGuard(st: State, t: nat, u: nat)
    requires Reachable(st) && t < |st.threads| && u < |st.threads|
    requires st.threads[t].guard
    ensures st.owner == Some(t) && st.locked
    ensures st.threads[u].guard ==> u == t
  {
    ReachableOk(st);
    assert ThreadOk(st, t) && ThreadOk(st, u);
  }

  // No kernel unlock is ever refused.
  lemma UnlocksSucceed(st: State, a: Action)
    requires Reachable(st) && Enabled(st, a)
    ensures !Faults(st, a)
  {
    ReachableOk(st);
    Keeps(st, a);
  }

  // A swap finds the flag set exactly when the thread already has a guard.
  lemma RecursionDetected(st: State, t: nat)
    requires Reachable(st) && t < |st.threads| && st.threads[t].pc.Swapping?
    ensures st.locked <==> st.threads[t].guard
  {
    ReachableOk(st);
    assert ThreadOk(st, t);
  }

  // A refused attempt leaves the mutex as it was before its kernel lock: locked once, by the same guard.
  lemma RefusalRestores(st: State, a: Action)
    requires Reachable(st) && Enabled(st, a) && a.Go? && st.threads[a.t].pc.Undoing?
    ensures !Faults(st, a)
    ensures var st' := Next(st, a);
      && st'.owner == Some(a.t) && st'.count == 1 && st'.locked && st'.threads[a.t].guard
      && st'.threads[a.t].pc == if st.threads[a.t].pc.try_ then Ready else Panicked
  {
    ReachableOk(st);
    assert ThreadOk(st, a.t);
  }

  // A waiter that is parked or waking up has given the mutex up entirely.
  lemma WaiterReleases(st: State, t: nat)
    requires Reachable(st) && t < |st.threads| && (st.threads[t].pc.Parked? || st.threads[t].pc.Relocking?)
    ensures st.owner != Some(t) && !st.threads[t].guard
  {
    ReachableOk(st);
    assert ThreadOk(st, t);
  }

  // When nobody is inside a call and nobody has a guard, the mutex is free.
  lemma Quiescent(st: State)
    requires Reachable(st)
    requires forall t :: 0 <= t < |st.threads| ==> st.threads[t] == Thread(Ready, false)
    ensures st.owner.None? && st.count == 0 && !st.locked
  {
    ReachableOk(st);
    assert st.owner.Some? ==> ThreadOk(st, st.owner.value);
  }

  // ---------------------------------------------------------------- undisturbed calls

  // At most `k` operations of thread `t`, as long as it can go on.
  function Onwards(st: State, t: nat, k: nat): State
    decreases k
  {
    if k > 0 && Enabled(st, Go(t)) && !Faults(st, Go(t)) then Onwards(Next(st, Go(t)), t, k - 1) else st
  }

  lemma Unrolled(st: State, t: nat)
    ensures Onwards(st, t, 1) == if Enabled(st, Go(t)) && !Faults(st, Go(t)) then Next(st, Go(t)) else st
    ensures Onwards(st, t, 2) == if Enabled(st, Go(t)) && !Faults(st, Go(t)) then Onwards(Next(st, Go(t)), t, 1) else st
    ensures Onwards(st, t, 3) == if Enabled(st, Go(t)) && !Faults(st, Go(t)) then Onwards(Next(st, Go(t)), t, 2) else st
  {
    hide Next, Enabled, Faults;
  }

  // `lock` and `try_lock` that nobody disturbs: a free mutex gives the guard; one the thread itself has locked leaves
  // everything as it was, after a panic for `lock`; one that another thread has locked refuses `try_lock`, which
  // leaves everything as it was, and holds up `lock`.
  lemma UndisturbedLock(st: State, t: nat, try_: bool)
    requires Reachable(st) && t < |st.threads| && st.threads[t].pc.Ready?
    ensures Enabled(st, Call(t, Locking(try_)))
    ensures var st1, guard := Next(st, Call(t, Locking(try_))), st.threads[t].guard;
      if st.owner == None then
        Onwards(st1, t, 2) == State(st.threads[t := Thread(Ready, true)], Some(t), 1, true)
      else if guard then
        Onwards(st1, t, 3) == st.(threads := st.threads[t := Thread(if try_ then Ready else Panicked, true)])
      else if try_ then Onwards(st1, t, 1) == st
      else !Enabled(st1, Go(t))
  {
    ReachableOk(st);
    assert ThreadOk(st, t);
    var a := Go(t);
    var st1 := Next(st, Call(t, Locking(try_)));
    assert st1.threads[t] == Thread(Locking(try_), st.threads[t].guard);
    Unrolled(st1, t);
    if CanLock(st, t) {
      var st2 := Next(st1, a);
      Unrolled(st2, t);
      Unrolled(Next(st2, a), t);
      assert st.owner.Some? ==> st.locked && st.threads[t].guard;
      assert st.threads[t].guard ==> st.threads == st.threads[t := Thread(Ready, true)];
    } else if try_ {
      assert Next(st1, a).threads == st.threads;
    }
  }

  // Dropping the guard frees the mutex; so does waiting, which parks the thread, and a woken waiter that finds the
  // mutex free has its guard again.
  lemma UndisturbedRelease(st: State, t: nat, pc: Pc)
    requires Reachable(st) && t < |st.threads| && st.threads[t] == Thread(Ready, true)
    requires pc.Clearing? || pc.WaitClearing?
    ensures Enabled(st, Call(t, pc))
    ensures Onwards(Next(st, Call(t, pc)), t, 2) ==
      State(st.threads[t := Thread(if pc.Clearing? then Ready else Parked, false)], None, 0, false)
  {
    ReachableOk(st);
    assert ThreadOk(st, t);
    var st1 := Next(st, Call(t, pc));
    Unrolled(st1, t);
    Unrolled(Next(st1, Go(t)), t);
  }

  lemma UndisturbedWake(st: State, t: nat)
    requires Reachable(st) && t < |st.threads| && st.threads[t].pc.Parked? && st.owner == None
    ensures Enabled(st, Notify(t))
    ensures Onwards(Next(st, Notify(t)), t, 2) == State(st.threads[t := Thread(Ready, true)], Some(t), 1, true)
  {
    ReachableOk(st);
    var st1 := Next(st, Notify(t));
    Unrolled(st1, t);
    Unrolled(Next(st1, Go(t)), t);
  }

  // ---------------------------------------------------------------- the methods

  datatype LockResult = Guarded | WouldBlock | Recursive

  // The mutex as one thread's uninterrupted calls see it.
  class Mutex<T(0)> {
    var owner: Option<nat>
    var count: nat
    var locked: bool
    var data: T

    // Between calls: the holder of the guard, if any, has locked the kernel mutex once.
    ghost predicate Valid()
      reads this
    {
      locked == owner.Some? && count == if locked then 1 else 0
    }

    constructor (t: T)
      ensures Valid() && !locked && data == t
    {
      owner, count, locked, data := None, 0, false, t;
    }

    method KernelLock(t: nat) returns (ok: bool)
      modifies this`owner, this`count
      ensures ok == (old(owner).None? || old(owner) == Some(t))
      ensures ok ==> owner == Some(t) && count == old(count) + 1
      ensures !ok ==> owner == old(owner) && count == old(count)
    {
      ok := owner.None? || owner == Some(t);
      if ok {
        owner, count := Some(t), count + 1;
      }
    }

    method KernelUnlock(t: nat) returns (ok: bool)
      modifies this`owner, this`count
      ensures ok == (old(owner) == Some(t) && old(count) > 0)
      ensures ok ==> count == old(count) - 1 && owner == if count == 0 then None else old(owner)
      ensures !ok ==> owner == old(owner) && count == old(count)
    {
      ok := owner == Some(t) && count > 0;
      if ok {
        count := count - 1;
        if count == 0 { owner := None; }
      }
    }

    // `lock`, for a caller the kernel does not have to hold up.
    method Lock(t: nat) returns (r: LockResult)
      requires Valid() && (owner.None? || owner == Some(t))
      modifies this`owner, this`count, this`locked
      ensures Valid() && owner == Some(t)
      ensures r == if old(locked) then Recursive else Guarded
    {
      var ok := KernelLock(t);
      var was := locked;
      locked := true;
      if was {
        var undone := KernelUnlock(t);
        r := Recursive;
      } else {
        r := Guarded;
      }
    }

    method TryLock(t: nat) returns (r: LockResult)
      requires Valid()
      modifies this`owner, this`count, this`locked
      ensures Valid()
      ensures r.Guarded? <==> !old(locked)
      ensures r.Guarded? ==> owner == Some(t)
      ensures !r.Guarded? ==> r == WouldBlock && owner == old(owner) && locked
    {
      var ok := KernelLock(t);
      if !ok {
        return WouldBlock;
      }
      var was := locked;
      locked := true;
      if was {
        var undone := KernelUnlock(t);
        r := WouldBlock;
      } else {
        r := Guarded;
      }
    }

    // Dropping the guard; the kernel unlock does not fail.
    method DropGuard(t: nat) returns (ok: bool)
      requires Valid() && owner == Some(t)
      modifies this`owner, this`count, this`locked
      ensures Valid() && owner.None? && ok
    {
      locked := false;
      ok := KernelUnlock(t);
    }
  }
}
