/**
 The methods of zephyr/src/blocking.rs with their own control flow, run statement by statement on the shared
 pool while all other futures and workers go on in between.

 `schedule` says what the others do at each point where they may run; every contract holds for every
 schedule.  A method that waits for a lock nobody will release any more (the schedule has run out) gives up.
 */
module BlockingCode {
  import opened Prelude
  import opened BlockingPool
  import opened BlockingInvariant
  import opened BlockingRuns
  import opened BlockingHistory
  import F = BlockingFrame
  import B = BlockingPolls
  import L = BlockingLives
  import W = BlockingWorkers

  // ---------------------------------------------------------------- the pool in use

  ghost predicate Good(st: State) { Sound(st) && L.LivesOk(st) && OrphansOk(st) }

  // Other actors leave this one where it was, take back nothing, and stay off the waiters list while it holds
  // the list's lock.
  ghost predicate Mine(st: State, st': State, me: Actor) {
    && Grows(st, st')
    && (match me
        case Fut(i) =>
          i < |st.futs| ==>
            st'.At(i) == st.At(i) && st'.futs[i].slot == st.futs[i].slot && st'.futs[i].task == st.futs[i].task
        case Wrk(k) => k < |st.workers| && !st.workers[k].Off? ==> st'.workers[k] == st.workers[k])
    && (InWaiters(st, me) && st.waiters == {} ==> st'.waiters == {})
  }

  lemma OthersMine(st: State, a: Action, me: Actor)
    requires Good(st) && Enabled(st, a) && Doer(a) != me
    ensures !Faults(st, a) && Good(Next(st, a)) && Mine(st, Next(st, a), me)
  {
    hide FutFaults, WorkFaults, FutNext, WorkNext, FutOk, SlotOk, WorkOk, GlobalOk, WaitersOk, InWaiters, OrphansOk;
    OwnGood(st, a);
    Frames(st, a);
    if a.FutStep? && st.At(a.i).Spawn? { assert Up(st) == st.At(a.i).w; }
    if InWaiters(st, me) && FutAt(st, a).ClaimScan? {
      assert InWaiters(st, Fut(a.i)) by { ScanHoldsList(st, a.i); }
      HoldsList(st, me);
      HoldsList(st, Fut(a.i));
    }
  }

  lemma ScanHoldsList(st: State, i: nat)
    requires i < |st.futs| && st.At(i).ClaimScan?
    ensures InWaiters(st, Fut(i))
  {
  }

  lemma HoldsList(st: State, me: Actor)
    requires Inv(st) && InWaiters(st, me)
    ensures st.waitersLock == Some(me)
  {
    hide SlotOk, GlobalOk;
    match me
    case Fut(j) => assert FutOk(st, j);
    case Wrk(k) => assert WorkOk(st, k);
  }

  lemma MineOn(a: State, b: State, c: State, me: Actor)
    requires Mine(a, b, me) && Mine(b, c, me)
    ensures Mine(a, c, me)
  {
    hide Delivered;
  }

  lemma MineSize(a: State, b: State, me: Actor)
    requires Mine(a, b, me)
    ensures SameSize(a, b)
  {
  }

  // A call of future `i` takes back nothing and goes on with the waker it was given.
  ghost predicate Keeps(st: State, st': State, i: nat) {
    Grows(st, st') && (i < |st.futs| ==> st'.futs[i].task == st.futs[i].task)
  }

  lemma InitGood(st: State)
    requires Init(st)
    ensures Good(st)
  {
    var r := Run([st], []);
    assert Execution(r) && r.states[|r.actions|] == st;
    L.ReachableLives(st);
    RunOrphans(r, 0);
  }

  lemma SelfMine(st: State, me: Actor)
    requires Good(st)
    ensures Mine(st, st, me)
  {
  }

  lemma OwnGood(st: State, a: Action)
    requires Good(st) && Enabled(st, a)
    ensures !Faults(st, a) && Good(Next(st, a)) && Grows(st, Next(st, a))
  {
    hide FutFaults, WorkFaults, FutNext, WorkNext, FutOk, SlotOk, WorkOk, GlobalOk, WaitersOk, OrphansOk, Grows;
    ActionKeeps(st, a);
    L.LivesKeeps(st, a);
    OrphansKeep(st, a);
    ActionGrows(st, a);
  }

  // What a parked future can count on: its task is awake, or `waker` is where it will be woken.
  ghost predicate WillBePolled(st: State, i: nat, waker: Task)
    requires Shape(st) && i < |st.futs|
  {
    var f := st.futs[i];
    || f.woken
    || (f.slot.None? && waker in st.waiters)
    || (&& f.slot.Some? && f.slot.value < |st.slots| && st.slots[f.slot.value].waker == Some(waker)
        && (st.phase[f.slot.value].PDone? ==> AboutToWake(st, st.phase[f.slot.value].k, f.slot.value)))
  }

  lemma ParkedWillBePolled(st: State, i: nat)
    requires Good(st) && i < |st.futs| && st.At(i).Parked?
    ensures WillBePolled(st, i, st.futs[i].task)
  {
    assert FutOk(st, i);
  }

  lemma FinishedRanOnce(st: State, i: nat)
    requires Good(st) && i < |st.futs| && st.At(i).Finished?
    ensures st.At(i).out.closure == i && st.lives[i].runs == 1 && st.lives[i].ran == Some(st.At(i).out)
  {
    assert FutOk(st, i);
  }

  // The worker has run every closure it took, once, and holds no slot lock.
  ghost predicate AllRun(st: State, k: nat)
    requires Shape(st)
  {
    && (forall c :: 0 <= c < |st.futs| && st.lives[c].taker == Some(k) ==>
          st.lives[c].runs == 1 && st.lives[c].ran.Some?)
    && (forall s :: 0 <= s < |st.slots| ==> st.slots[s].lock != Some(Wrk(k)))
  }

  lemma IdleAllRun(st: State, k: nat)
    requires Good(st) && k < |st.workers| && st.workers[k].Idle?
    ensures AllRun(st, k)
  {
    forall c | 0 <= c < |st.futs| && st.lives[c].taker == Some(k)
      ensures st.lives[c].runs == 1 && st.lives[c].ran.Some?
    {
      assert L.LifeOk(st, c);
    }
    forall s | 0 <= s < |st.slots| ensures st.slots[s].lock != Some(Wrk(k)) {
      assert SlotOk(st, s);
      F.SlotNames(st, s);
    }
  }

  lemma NotOff(st: State, k: nat, v: int, keep: bool)
    requires Shape(st) && WorkReady(st, k) && !WorkFaults(st, k)
    ensures !WorkNext(st, k, v, keep).workers[k].Off?
  {
  }

  lemma StatementTask(st: State, i: nat)
    requires Good(st) && FutReady(st, i) && !FutFaults(st, i)
    ensures FutNext(st, i).futs[i].task == st.futs[i].task
  {
    B.StepTask(st, FutStep(i), i);
  }

  lemma ScanBound(st: State, i: nat)
    requires Good(st) && i < |st.futs| && st.At(i).ClaimScan?
    ensures st.At(i).j <= |st.slots|
  {
    assert FutOk(st, i);
  }

  lemma SpawnBound(st: State, i: nat)
    requires Good(st) && i < |st.futs| && st.At(i).Spawn?
    ensures st.At(i).w <= |st.workers|
  {
    assert FutOk(st, i);
  }

  lemma DoneHasResult(st: State, i: nat)
    requires Good(st) && i < |st.futs| && st.At(i).TakeResult?
    ensures st.futs[i].result.Some?
  {
    assert FutOk(st, i) && SlotOk(st, st.At(i).s);
  }

  // ---------------------------------------------------------------- what the pieces of the methods achieve

  // The scan has ended under the list's lock: with a slot claimed, or with the task on the list or awake.
  ghost predicate ScanDone(st: State, i: nat)
    requires Shape(st) && i < |st.futs|
  {
    && st.At(i).ClaimUnlock? && st.waitersLock == Some(Fut(i))
    && (match st.At(i).found
        case Some(s) => s < |st.slots| && st.slots[s].state == Claimed && st.phase[s] == PClaimed(i)
        case None => st.futs[i].woken || st.futs[i].task in st.waiters)
  }

  lemma ScanEnds(st: State, i: nat)
    requires Good(st) && i < |st.futs| && st.At(i).ClaimUnlock?
    ensures ScanDone(st, i)
  {
    assert FutOk(st, i);
    if st.At(i).found.Some? { assert SlotOk(st, st.At(i).found.value); }
  }

  // The workers have been started; all of them run unless another future is still starting them.
  ghost predicate StartedBy(st: State, i: nat) {
    st.started && (st.starter == i ==> forall k :: 0 <= k < |st.workers| ==> !st.workers[k].Off?)
  }

  lemma AllStarted(st: State, i: nat)
    requires Good(st) && i < |st.futs| && st.At(i).StoreQueued?
    ensures StartedBy(st, i)
  {
    assert FutOk(st, i);
  }

  // The operation was sent with the slot the future holds: it is queued once with its closure, or a worker has
  // it, or its one result is there.
  ghost predicate Submitted(st: State, i: nat)
    requires Shape(st) && i < |st.futs|
  {
    && i in st.sent && st.futs[i].slot.Some?
    && var s := st.futs[i].slot.value;
       && s < |st.slots|
       && (|| (&& s in st.queue && st.slots[s].state == Queued
               && st.slots[s].shared == Some(i) && st.slots[s].runner == Some(i) && st.futs[i].op == Some(i))
           || (&& s !in st.queue && st.slots[s].state == Queued && st.slots[s].runner == Some(i)
               && exists k: nat :: k < |st.workers| && Handling(st.workers[k], s))
           || (&& s !in st.queue && st.slots[s].state == Done
               && st.futs[i].result.Some? && RanOnce(st, i, st.futs[i].result.value)))
  }

  lemma SentIsSubmitted(st: State, i: nat)
    requires Good(st) && i < |st.futs| && st.At(i).Parked? && st.futs[i].slot.Some? && i in st.sent
    ensures Submitted(st, i)
  {
    assert FutOk(st, i);
    assert SlotOk(st, st.futs[i].slot.value);
  }

  // No slot is claimed by, queued for, worked on for or published for the future, and it holds no slot's lock.
  ghost predicate HoldsNoSlot(st: State, i: nat)
    requires Shape(st)
  {
    forall s :: 0 <= s < |st.slots| ==> F.PhaseFut(st.phase[s]) != Some(i) && st.slots[s].lock != Some(Fut(i))
  }

  lemma LetGo(st: State, i: nat)
    requires Good(st) && i < |st.futs|
    requires st.At(i).Gone? || st.At(i).Finished? || st.At(i).RelLock?
    ensures HoldsNoSlot(st, i)
  {
    forall s | 0 <= s < |st.slots|
      ensures F.PhaseFut(st.phase[s]) != Some(i) && st.slots[s].lock != Some(Fut(i))
    {
      assert SlotOk(st, s);
      F.SlotNames(st, s);
    }
  }

  lemma HasItsSlot(st: State, i: nat)
    requires Good(st) && i < |st.futs| && st.At(i).SetWaker?
    ensures st.futs[i].slot == Some(st.At(i).s)
  {
    assert FutOk(st, i);
  }

  lemma NoSlotYet(st: State, i: nat)
    requires Good(st) && i < |st.futs| && st.At(i).ClaimUnlock?
    ensures st.futs[i].slot.None?
  {
    assert FutOk(st, i);
  }

  lemma SlotThere(st: State, i: nat)
    requires Good(st) && i < |st.futs| && st.At(i).DropLoad?
    ensures st.At(i).s < |st.slots|
  {
    assert FutOk(st, i);
  }

  // The list is empty under the actor's lock, so every future that waits for a slot is awake.
  ghost predicate AllAwake(st: State) {
    && st.waiters == {}
    && forall i :: 0 <= i < |st.futs| && st.At(i).Parked? && st.futs[i].slot.None? ==> st.futs[i].woken
  }

  lemma DrainedAwake(st: State)
    requires Good(st) && st.waiters == {}
    ensures AllAwake(st)
  {
    forall i | 0 <= i < |st.futs| && st.At(i).Parked? && st.futs[i].slot.None? ensures st.futs[i].woken {
      assert FutOk(st, i);
    }
  }

  // What `cancel` finds under the slot's lock: the slot is orphaned and left to its worker, or the closure has
  // run and the future has to release the slot.
  ghost predicate Decided(st: State, i: nat, s: nat, orphaned: bool)
    requires Shape(st) && i < |st.futs|
  {
    && st.At(i) == DropUnlock(s, orphaned) && s < |st.slots| && st.slots[s].lock == Some(Fut(i))
    && (if orphaned then st.slots[s].state == Orphaned && Leaves(st, i, s)
        else st.phase[s] == PReleasing(i) && st.lives[i].ran.Some?)
  }

  lemma DropDecided(st: State, i: nat)
    requires Good(st) && i < |st.futs| && st.At(i).DropUnlock?
    requires st.At(i).orphaned || st.lives[i].ran.Some?
    ensures Decided(st, i, st.At(i).s, st.At(i).orphaned)
  {
    assert FutOk(st, i);
    assert SlotOk(st, st.At(i).s);
  }

  lemma DoneHasRun(st: State, i: nat)
    requires Good(st) && i < |st.futs| && st.At(i).DropLoad? && st.At(i).s < |st.slots|
    requires st.slots[st.At(i).s].state == Done
    ensures st.lives[i].ran.Some?
  {
    assert FutOk(st, i);
    assert SlotOk(st, st.At(i).s);
  }

  // The worker has the closure of the future that submitted slot `s`, and nobody else has it.
  ghost predicate HasClosure(st: State, k: nat, s: nat, r: nat)
    requires Shape(st) && k < |st.workers|
  {
    && st.workers[k] == Call(s, r, r) && r < |st.futs| && s < |st.slots|
    && st.futs[r].op.None? && st.lives[r] == Life(Some(k), 0, None)
    && (st.phase[s] == PWork(k, r) || st.phase[s] == PDetached(k, r))
  }

  // The worker has to give back slot `s`, whose future is gone or about to be.
  ghost predicate HasOrphan(st: State, k: nat, s: nat)
    requires Shape(st) && k < |st.workers|
  {
    && st.workers[k] == FreeSlot(s) && s < |st.slots| && st.slots[s].state == Orphaned
    && st.phase[s].PDetached? && st.phase[s].k == k && st.phase[s].f < |st.futs| && st.At(st.phase[s].f).Gone?
  }

  lemma NotLeaving(st: State, f: nat, s: nat)
    requires OrphansOk(st) && f < |st.futs| && s < |st.phase| && st.phase[s].PDetached?
    requires st.phase[s].k < |st.workers| && st.workers[st.phase[s].k] == FreeSlot(s)
    ensures st.At(f) != DropUnlock(s, true)
  {
  }

  lemma TakenOrOrphaned(st: State, k: nat)
    requires Good(st) && k < |st.workers|
    ensures st.workers[k].Call? ==> HasClosure(st, k, st.workers[k].s, st.workers[k].r)
    ensures st.workers[k].FreeSlot? ==> HasOrphan(st, k, st.workers[k].s)
  {
    assert WorkOk(st, k);
    if st.workers[k].FreeSlot? {
      var s := st.workers[k].s;
      assert SlotOk(st, s);
      var f := st.phase[s].f;
      NotLeaving(st, f, s);
    }
  }

  lemma WrittenIsDelivered(st: State, k: nat, v: int, keep: bool)
    requires Good(st) && WorkReady(st, k) && !WorkFaults(st, k) && st.workers[k].WriteResult?
    ensures Delivered(WorkNext(st, k, v, keep), st.workers[k].r, st.workers[k].o)
  {
    assert WorkOk(st, k);
  }

  lemma CallsItsOwn(st: State, k: nat)
    requires Good(st) && k < |st.workers| && st.workers[k].Call?
    ensures st.workers[k].c == st.workers[k].r
  {
    assert WorkOk(st, k);
  }

  lemma InHandRan(st: State, k: nat)
    requires Good(st) && k < |st.workers|
    requires st.workers[k].Lock2? || st.workers[k].Load2? || st.workers[k].WriteResult?
    ensures st.workers[k].r < |st.lives| && st.lives[st.workers[k].r] == Life(Some(k), 1, Some(st.workers[k].o))
  {
    assert WorkOk(st, k);
  }

  // What a call of `poll` comes to.
  datatype PollResult = Ready(out: Outcome) | Pending | HeldUp

  class Pool {
    var st: State
    var schedule: seq<seq<Action>>

    // The pool before first use.
    constructor (start: State, schedule: seq<seq<Action>>)
      requires Init(start)
      ensures st == start && this.schedule == schedule && Good(st)
    {
      st, this.schedule := start, schedule;
      new;
      InitGood(st);
    }

    // The others run for a while.
    method Others(me: Actor)
      requires Good(st)
      modifies this
      ensures Good(st) && Mine(old(st), st, me)
      ensures |schedule| == if old(schedule) == [] then 0 else |old(schedule)| - 1
    {
      var batch: seq<Action> := [];
      if schedule != [] { batch, schedule := schedule[0], schedule[1..]; }
      var n := 0;
      SelfMine(st, me);
      while n < |batch|
        invariant n <= |batch| && Good(st) && Mine(old(st), st, me)
        invariant |schedule| == if old(schedule) == [] then 0 else |old(schedule)| - 1
      {
        if Doer(batch[n]) != me && Enabled(st, batch[n]) {
          OthersMine(st, batch[n], me);
          hide Good, Enabled, Faults, Next, Shape;
          MineOn(old(st), st, Next(st, batch[n]), me);
          hide Mine;
          st := Next(st, batch[n]);
        }
        n := n + 1;
      }
    }

    // One statement of future `i`, and then the others.
    method FutStatement(i: nat)
      requires Good(st) && FutReady(st, i)
      modifies this
      ensures Good(st) && Keeps(old(st), st, i) && old(Shape(st) && !FutFaults(st, i))
      ensures Mine(old(FutNext(st, i)), st, Fut(i))
    {
      OwnGood(st, FutStep(i));
      StatementTask(st, i);
      hide Good, FutFaults, FutNext, Grows;
      ghost var next := FutNext(st, i);
      st := FutNext(st, i);
      Others(Fut(i));
      GrowsOn(old(st), next, st);
    }

    // Waits for the lock the next statement takes.
    method AwaitFut(i: nat) returns (ready: bool)
      requires Good(st) && i < |st.futs|
      modifies this
      ensures Good(st) && Mine(old(st), st, Fut(i)) && ready == FutReady(st, i)
      ensures !ready ==> schedule == []
    {
      SelfMine(st, Fut(i));
      hide Good, FutReady, Mine;
      while !FutReady(st, i) && schedule != []
        invariant Good(st) && i < |st.futs| && Mine(old(st), st, Fut(i))
        decreases |schedule|
      {
        ghost var before := st;
        Others(Fut(i));
        MineOn(old(st), before, st, Fut(i));
        MineSize(before, st, Fut(i));
      }
      ready := FutReady(st, i);
    }

    // `SLOT_POOL.claim`: the lock, the scan and the end of it.
    method ClaimSlot(i: nat) returns (held: bool)
      requires Good(st) && i < |st.futs| && st.At(i).ClaimLock?
      modifies this
      ensures Good(st) && Keeps(old(st), st, i)
      ensures if held then schedule == [] && st.At(i).ClaimLock? else ScanDone(st, i)
    {
      hide Good, Delivered, ScanDone, FutFaults;
      var ready := AwaitFut(i);
      if !ready {
        return true;
      }
      FutStatement(i);
      ScanSlots(i);
      held := false;
    }

    // The scan, one compare-exchange after the other.
    method ScanSlots(i: nat)
      requires Good(st) && i < |st.futs| && st.At(i).ClaimScan?
      modifies this
      ensures Good(st) && Keeps(old(st), st, i) && ScanDone(st, i)
    {
      hide Delivered, ScanDone;
      ScanBound(st, i);
      hide Good;
      while st.At(i).ClaimScan?
        invariant Good(st) && Keeps(old(st), st, i) && i < |st.futs|
        invariant st.At(i).ClaimUnlock? || (st.At(i).ClaimScan? && st.At(i).j <= |st.slots|)
        decreases if st.At(i).ClaimScan? then |st.slots| + 1 - st.At(i).j else 0
      {
        FutStatement(i);
        if st.At(i).ClaimScan? { ScanBound(st, i); }
      }
      ScanEnds(st, i);
    }

    // `start_workers_once`: whoever finds them not started starts all of them.
    method StartWorkers(i: nat)
      requires Good(st) && i < |st.futs| && st.At(i).StartCas?
      modifies this
      ensures Good(st) && Keeps(old(st), st, i) && st.At(i).StoreQueued? && st.At(i).s == old(st.At(i).s)
      ensures st.futs[i].slot == old(st.futs[i].slot)
      ensures StartedBy(st, i) && (!old(st.started) ==> st.starter == i)
    {
      hide Good, Delivered, StartedBy;
      FutStatement(i);
      while st.At(i).Spawn?
        invariant Good(st) && Keeps(old(st), st, i) && i < |st.futs|
        invariant st.At(i).Spawn? || st.At(i).StoreQueued?
        invariant st.At(i).s == old(st.At(i).s) && st.futs[i].slot == old(st.futs[i].slot)
        invariant st.started && (!old(st.started) ==> st.starter == i)
        decreases if st.At(i).Spawn? && st.At(i).w <= |st.workers| then |st.workers| + 1 - st.At(i).w else 0
      {
        SpawnBound(st, i);
        FutStatement(i);
        if st.At(i).Spawn? { SpawnBound(st, i); }
      }
      AllStarted(st, i);
    }

    // `slot.waker.register` and the two stores after it.
    method SetUp(i: nat)
      requires Good(st) && i < |st.futs| && st.At(i).SetWaker?
      modifies this
      ensures Good(st) && Keeps(old(st), st, i) && st.At(i) == StartCas(old(st.At(i).s))
      ensures st.futs[i].slot == old(st.futs[i].slot)
    {
      hide Good, Delivered;
      FutStatement(i);
      FutStatement(i);
      FutStatement(i);
    }

    // `state.store(Queued)` and `QUEUE.send`.
    method SendSlot(i: nat)
      requires Good(st) && i < |st.futs| && st.At(i).StoreQueued?
      modifies this
      ensures Good(st) && Keeps(old(st), st, i) && st.At(i).Parked? && st.futs[i].slot == old(st.futs[i].slot)
      ensures i in st.sent
    {
      hide Good, Delivered;
      FutStatement(i);
      ghost var sent := st.sent + [i];
      FutStatement(i);
      assert sent <= st.sent && sent[|sent| - 1] == i;
    }

    // The statements from `slot.waker.register` to `QUEUE.send`.
    method Submit(i: nat)
      requires Good(st) && i < |st.futs| && st.At(i).SetWaker?
      modifies this
      ensures Good(st) && Keeps(old(st), st, i) && st.At(i).Parked?
      ensures Submitted(st, i) && st.futs[i].slot == Some(old(st.At(i).s))
    {
      HasItsSlot(st, i);
      hide Good, Delivered, Submitted;
      SetUp(i);
      StartWorkers(i);
      SendSlot(i);
      SentIsSubmitted(st, i);
    }

    // The list is drained under its lock: everybody who waits for a slot is awake.
    method WakeWaiters(i: nat)
      requires Good(st) && FutReady(st, i) && st.At(i).RelLock?
      modifies this
      ensures Good(st) && Keeps(old(st), st, i) && st.At(i) == RelUnlock(old(st.At(i).next)) && AllAwake(st)
    {
      hide Good, Delivered, AllAwake;
      FutStatement(i);
      FutStatement(i);
      DrainedAwake(st);
    }

    // `SLOT_POOL.release`, up to the return of its caller.
    method ReleaseSlot(i: nat) returns (held: bool)
      requires Good(st) && i < |st.futs| && st.At(i).RelFree?
      modifies this
      ensures Good(st) && Keeps(old(st), st, i) && HoldsNoSlot(st, i)
      ensures held ==> schedule == [] && st.At(i).RelLock?
      ensures !held ==> st.At(i) == if old(st.At(i).next).Some? then Finished(old(st.At(i).next).value) else Gone
    {
      hide Good, Delivered, HoldsNoSlot, AllAwake, FutFaults;
      FutStatement(i);
      var ready := AwaitFut(i);
      if !ready {
        LetGo(st, i);
        return true;
      }
      WakeWaiters(i);
      FutStatement(i);
      LetGo(st, i);
      held := false;
    }

    // The part of `poll` for a future without a slot.
    method FirstPoll(i: nat) returns (held: bool)
      requires Good(st) && i < |st.futs| && st.At(i).ClaimLock?
      modifies this
      ensures Good(st) && Keeps(old(st), st, i)
      ensures if held then schedule == [] else st.At(i).Parked?
      ensures !held && st.futs[i].slot.Some? ==> Submitted(st, i)
    {
      hide Good, Delivered, Submitted, FutFaults;
      held := ClaimSlot(i);
      if !held {
        NoSlotYet(st, i);
        var found := st.At(i).found;
        FutStatement(i);
        if found.Some? {
          Submit(i);
        }
      }
    }

    // `BlockingFuture::poll`.
    method PollFuture(i: nat, waker: Task) returns (r: PollResult)
      requires Good(st) && i < |st.futs| && st.At(i).Parked?
      modifies this
      ensures Good(st) && Grows(old(st), st)
      // Pending: the task is awake already, or this poll's waker is where it will be woken
      ensures r.Pending? ==> st.At(i).Parked? && WillBePolled(st, i, waker)
      ensures r.Pending? && old(st.futs[i].slot.None?) && st.futs[i].slot.Some? ==> Submitted(st, i)
      // Ready: what the future's own closure returned, which ran once
      ensures r.Ready? ==>
        && st.At(i) == Finished(r.out) && r.out.closure == i
        && st.lives[i].runs == 1 && st.lives[i].ran == Some(r.out) && HoldsNoSlot(st, i)
      ensures r.HeldUp? ==> schedule == []
    {
      OwnGood(st, Poll(i, waker));
      hide Good, Delivered, WillBePolled, Submitted, HoldsNoSlot, FutFaults;
      st := PollStart(st, i, waker);
      assert st.futs[i].task == waker;
      Others(Fut(i));
      if st.At(i).ClaimLock? {
        var held := FirstPoll(i);
        if held {
          return HeldUp;
        }
        ParkedWillBePolled(st, i);
        return Pending;
      }
      r := LaterPoll(i);
    }

    // The part of `poll` for a future with a slot.
    method LaterPoll(i: nat) returns (r: PollResult)
      requires Good(st) && i < |st.futs| && st.At(i).ResetWaker?
      modifies this
      ensures Good(st) && Keeps(old(st), st, i)
      ensures r.Pending? ==> st.At(i).Parked? && WillBePolled(st, i, old(st.futs[i].task))
      ensures r.Ready? ==>
        && st.At(i) == Finished(r.out) && r.out.closure == i
        && st.lives[i].runs == 1 && st.lives[i].ran == Some(r.out) && HoldsNoSlot(st, i)
      ensures r.HeldUp? ==> schedule == []
    {
      hide Good, Delivered, WillBePolled, HoldsNoSlot, FutFaults;
      FutStatement(i);
      FutStatement(i);
      if st.At(i).Parked? {
        ParkedWillBePolled(st, i);
        return Pending;
      }
      DoneHasResult(st, i);
      FutStatement(i);
      var held := ReleaseSlot(i);
      if held {
        return HeldUp;
      }
      FinishedRanOnce(st, i);
      r := Ready(st.At(i).out);
    }

    // The pointer is taken back and the slot orphaned.
    method OrphanSlot(i: nat)
      requires Good(st) && i < |st.futs| && st.At(i).DropNull?
      modifies this
      ensures Good(st) && Keeps(old(st), st, i) && st.At(i) == DropUnlock(old(st.At(i).s), true)
    {
      hide Good, Delivered;
      FutStatement(i);
      FutStatement(i);
    }

    // The part of `cancel` under the slot lock: whether the slot is left to a worker.
    method Orphan(i: nat) returns (orphaned: bool)
      requires Good(st) && i < |st.futs| && st.At(i).DropLoad?
      modifies this
      ensures Good(st) && Keeps(old(st), st, i) && Decided(st, i, old(st.At(i).s), orphaned)
    {
      hide Delivered, Decided;
      SlotThere(st, i);
      if st.slots[st.At(i).s].state == Done { DoneHasRun(st, i); }
      hide Good;
      FutStatement(i);
      orphaned := st.At(i).DropNull?;
      if orphaned {
        OrphanSlot(i);
      }
      DropDecided(st, i);
    }

    // `cancel`, once the slot is known to have been dequeued: a future that has to release the slot itself
    // leaves a closure that has run.
    method Cancel(i: nat) returns (held: bool, orphaned: bool)
      requires Good(st) && i < |st.futs| && st.At(i).DropLock?
      modifies this
      ensures Good(st) && Keeps(old(st), st, i)
      ensures held ==> schedule == []
      ensures !held ==> st.At(i).Gone? && HoldsNoSlot(st, i) && (orphaned || st.lives[i].ran.Some?)
    {
      hide Good, Delivered, HoldsNoSlot, FutFaults;
      orphaned := true;
      held := true;
      var ready := AwaitFut(i);
      if !ready {
        return;
      }
      FutStatement(i);
      orphaned := Orphan(i);
      held := Settle(i);
    }

    // The lock is let go of and the slot, unless it was orphaned, released.
    method Settle(i: nat) returns (held: bool)
      requires Good(st) && i < |st.futs| && st.At(i).DropUnlock?
      modifies this
      ensures Good(st) && Keeps(old(st), st, i)
      ensures if held then schedule == [] else st.At(i).Gone? && HoldsNoSlot(st, i)
    {
      hide Good, Delivered, HoldsNoSlot, FutFaults;
      var orphaned := st.At(i).orphaned;
      FutStatement(i);
      held := false;
      if !orphaned {
        held := ReleaseSlot(i);
      } else {
        LetGo(st, i);
      }
    }

    // `BlockingFuture::drop`: in the end the future is gone and holds no slot.
    method DropFuture(i: nat) returns (held: bool)
      requires Good(st) && i < |st.futs| && (st.At(i).Parked? || st.At(i).Finished?)
      modifies this
      ensures Good(st) && Keeps(old(st), st, i)
      ensures !held ==> st.At(i).Gone? && HoldsNoSlot(st, i)
      ensures held ==> schedule == []
    {
      OwnGood(st, Drop(i));
      hide Good, Delivered, HoldsNoSlot;
      st := DropStart(st, i);
      Others(Fut(i));
      held := false;
      if st.At(i).DropRemove? {
        held := DropSlot(i);
      } else {
        LetGo(st, i);
      }
    }

    // The call of `cancel`.
    method DropSlot(i: nat) returns (held: bool)
      requires Good(st) && i < |st.futs| && st.At(i).DropRemove?
      modifies this
      ensures Good(st) && Keeps(old(st), st, i)
      ensures if held then schedule == [] else st.At(i).Gone? && HoldsNoSlot(st, i)
    {
      hide Good, Delivered, HoldsNoSlot;
      FutStatement(i);
      if st.At(i).DropLock? {
        var orphaned;
        held, orphaned := Cancel(i);
      } else {
        held := ReleaseSlot(i);
      }
    }

    // One statement of worker `k`, and then the others; `v` is what a closure that returns here computed.
    method WorkStatement(k: nat, v: int, keep: bool)
      requires Good(st) && WorkReady(st, k)
      modifies this
      ensures Good(st) && Grows(old(st), st) && old(Shape(st) && !WorkFaults(st, k))
      ensures Mine(old(WorkNext(st, k, v, keep)), st, Wrk(k))
      ensures st.workers[k] == old(WorkNext(st, k, v, keep).workers[k])
    {
      OwnGood(st, WorkStep(k, v, keep));
      NotOff(st, k, v, keep);
      hide Good, WorkFaults, WorkNext, Grows;
      ghost var next := WorkNext(st, k, v, keep);
      st := WorkNext(st, k, v, keep);
      Others(Wrk(k));
      MineSize(next, st, Wrk(k));
      GrowsOn(old(st), next, st);
    }

    method AwaitWork(k: nat) returns (ready: bool)
      requires Good(st) && k < |st.workers| && !st.workers[k].Off?
      modifies this
      ensures Good(st) && Mine(old(st), st, Wrk(k)) && ready == WorkReady(st, k)
      ensures !ready ==> schedule == []
    {
      SelfMine(st, Wrk(k));
      hide Good, WorkReady, Mine;
      while !WorkReady(st, k) && schedule != []
        invariant Good(st) && Mine(old(st), st, Wrk(k))
        decreases |schedule|
      {
        ghost var before := st;
        Others(Wrk(k));
        MineOn(old(st), before, st, Wrk(k));
      }
      ready := WorkReady(st, k);
    }

    // The list is drained under its lock: everybody who waits for a slot is awake.
    method WorkWakeWaiters(k: nat)
      requires Good(st) && WorkReady(st, k) && st.workers[k].WaitersLock?
      modifies this
      ensures Good(st) && Grows(old(st), st) && st.workers[k].WaitersUnlock? && AllAwake(st)
    {
      hide Good, Delivered, AllAwake, WorkFaults;
      WorkStatement(k, 0, false);
      WorkStatement(k, 0, false);
      DrainedAwake(st);
    }

    // `SLOT_POOL.release` by a worker.
    method WorkRelease(k: nat) returns (held: bool)
      requires Good(st) && k < |st.workers| && st.workers[k].FreeSlot?
      modifies this
      ensures Good(st) && Grows(old(st), st)
      ensures if held then schedule == [] else st.workers[k].Idle?
    {
      hide Good, Delivered, AllAwake, WorkFaults;
      WorkStatement(k, 0, false);
      var ready := AwaitWork(k);
      if !ready {
        return true;
      }
      WorkWakeWaiters(k);
      WorkStatement(k, 0, false);
      held := false;
    }

    // The state is read and the closure taken, unless the slot is orphaned.
    method ReadOp(k: nat)
      requires Good(st) && k < |st.workers| && st.workers[k].Load1?
      modifies this
      ensures Good(st) && Grows(old(st), st) && st.workers[k].Unlock1? && st.workers[k].s == old(st.workers[k].s)
    {
      hide Good, Delivered, WorkFaults;
      WorkStatement(k, 0, false);
      if st.workers[k].TakeOp? {
        WorkStatement(k, 0, false);
      }
    }

    // The first block of `run_op`, under the slot lock: the closure, if the future is still there.
    method TakeOp(k: nat) returns (held: bool, op: bool)
      requires Good(st) && k < |st.workers| && st.workers[k].Lock1?
      modifies this
      ensures Good(st) && Grows(old(st), st)
      ensures held ==> schedule == []
      ensures !held ==>
        if op then st.workers[k].Call? && HasClosure(st, k, old(st.workers[k].s), st.workers[k].r)
        else HasOrphan(st, k, old(st.workers[k].s))
    {
      hide Good, Delivered, HasClosure, HasOrphan, WorkFaults;
      held, op := true, false;
      var ready := AwaitWork(k);
      if !ready {
        return;
      }
      WorkStatement(k, 0, false);
      ReadOp(k);
      WorkStatement(k, 0, false);
      TakenOrOrphaned(st, k);
      held, op := false, st.workers[k].Call?;
    }

    // The result goes into the future's cell and Done into the slot.
    method StoreResult(k: nat)
      requires Good(st) && k < |st.workers| && st.workers[k].WriteResult?
      modifies this
      ensures Good(st) && Grows(old(st), st) && st.workers[k] == Unlock2(old(st.workers[k].s), false)
      ensures Delivered(st, old(st.workers[k].r), old(st.workers[k].o))
    {
      OwnGood(st, WorkStep(k, 0, false));
      WrittenIsDelivered(st, k, 0, false);
      hide Good, Delivered, WorkFaults;
      WorkStatement(k, 0, false);
      WorkStatement(k, 0, false);
    }

    // The state is read and the result stored, unless the slot is orphaned.
    method CheckAndStore(k: nat) returns (orphaned: bool)
      requires Good(st) && k < |st.workers| && st.workers[k].Load2?
      modifies this
      ensures Good(st) && Grows(old(st), st) && st.workers[k] == Unlock2(old(st.workers[k].s), orphaned)
      ensures !orphaned ==> Delivered(st, old(st.workers[k].r), old(st.workers[k].o))
    {
      hide Good, Delivered, WorkFaults;
      WorkStatement(k, 0, false);
      orphaned := st.workers[k].Unlock2?;
      if !orphaned {
        StoreResult(k);
      }
    }

    // The second block: the result is published, unless the future is gone.
    method Publish(k: nat) returns (held: bool, orphaned: bool)
      requires Good(st) && k < |st.workers| && st.workers[k].Lock2?
      modifies this
      ensures Good(st) && Grows(old(st), st)
      ensures held ==> schedule == []
      ensures !held ==>
        if orphaned then st.workers[k].FreeSlot? && HasOrphan(st, k, old(st.workers[k].s))
        else st.workers[k] == Wake(old(st.workers[k].s)) && Delivered(st, old(st.workers[k].r), old(st.workers[k].o))
    {
      hide Good, Delivered, HasOrphan, WorkFaults;
      held, orphaned := true, false;
      var ready := AwaitWork(k);
      if !ready {
        return;
      }
      WorkStatement(k, 0, false);
      orphaned := CheckAndStore(k);
      WorkStatement(k, 0, false);
      if orphaned { TakenOrOrphaned(st, k); }
      held := false;
    }

    // `op()`, with no lock held.
    method RunClosure(k: nat, value: int)
      requires Good(st) && k < |st.workers| && st.workers[k].Call?
      modifies this
      ensures Good(st) && Grows(old(st), st) && st.workers[k].Lock2?
      ensures old(st.workers[k].c) < |st.lives| && st.workers[k].o == Outcome(old(st.workers[k].c), value)
      ensures st.lives[old(st.workers[k].c)] == Life(Some(k), 1, Some(st.workers[k].o))
    {
      CallsItsOwn(st, k);
      hide Good, Delivered, WorkFaults;
      WorkStatement(k, value, false);
      WorkStatement(k, value, false);
      InHandRan(st, k);
    }

    // The closure runs and its result is handed over or dropped.
    method Execute(k: nat, value: int, keep: bool) returns (held: bool)
      requires Good(st) && k < |st.workers| && st.workers[k].Call?
      modifies this
      ensures Good(st) && Grows(old(st), st)
      ensures if held then schedule == [] else st.workers[k].Idle? || st.workers[k].FreeSlot?
      ensures !held ==> old(st.workers[k].c) < |st.lives| && st.lives[old(st.workers[k].c)].ran.Some?
    {
      hide Good, Delivered, HasOrphan, WorkFaults;
      RunClosure(k, value);
      var orphaned: bool;
      held, orphaned := Publish(k);
      if !held && !orphaned {
        WorkStatement(k, 0, keep);
      }
    }

    // One turn of the worker's loop: `QUEUE.recv` and the slot's runner, `run_op`.  `value` is what the
    // closure computes, if it is called; `keep` is how the waker's wake leaves it.  In the end the worker has
    // run every closure it ever took, once, and holds no lock.
    method RunOp(k: nat, value: int, keep: bool) returns (held: bool)
      requires Good(st) && k < |st.workers| && st.workers[k].Idle? && st.queue != []
      modifies this
      ensures Good(st) && Grows(old(st), st)
      ensures held ==> schedule == []
      ensures !held ==> st.workers[k].Idle? && AllRun(st, k)
    {
      hide Good, Delivered, WorkFaults, AllRun;
      WorkStatement(k, 0, false);
      WorkStatement(k, 0, false);
      var op: bool;
      held, op := TakeOp(k);
      if !held && op {
        held := Execute(k, value, keep);
      }
      if !held && st.workers[k].FreeSlot? {
        held := WorkRelease(k);
      }
      if !held { IdleAllRun(st, k); }
    }
  }
}
