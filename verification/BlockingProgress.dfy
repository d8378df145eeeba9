/**
 Liveness of the pool, for closures that return: as long as some future is unfinished some useful step is
 enabled, every useful step lowers a measure, and when no useful step is left every future has either
 returned its result or been dropped.
 */
module BlockingProgress {
  import opened Prelude
  import opened BlockingPool
  import opened BlockingInvariant
  import opened BlockingFrame
  import opened BlockingSafety
  import opened BlockingRuns
  import L = BlockingLives

  // Steps that get work done: whatever is under way, and the poll of a woken future.
  predicate Useful(st: State, a: Action) {
    match a
    case Poll(i, _) => i < |st.futs| && st.futs[i].woken
    case Drop(_) => false
    case FutStep(_) => true
    case WorkStep(_, _, _) => true
  }

  ghost predicate CanAct(st: State) {
    exists a :: Enabled(st, a) && Useful(st, a)
  }

  predicate Pending(st: State, i: nat) {
    i < |st.futs| && !st.At(i).Finished? && !st.At(i).Gone?
  }

  // ---------------------------------------------------------------- progress

  predicate UnderWay(st: State, a: Actor) {
    match a
    case Fut(i) => i < |st.futs| && !st.At(i).Parked? && !st.At(i).Finished? && !st.At(i).Gone?
    case Wrk(k) => k < |st.workers| && !st.workers[k].Off? && !st.workers[k].Idle?
  }

  predicate Ready(st: State, a: Actor) {
    match a
    case Fut(i) => FutReady(st, i)
    case Wrk(k) => WorkReady(st, k)
  }

  lemma ReadyActs(st: State, a: Actor)
    requires Ready(st, a)
    ensures CanAct(st)
  {
    match a
    case Fut(i) => assert Enabled(st, FutStep(i)) && Useful(st, FutStep(i));
    case Wrk(k) => assert Enabled(st, WorkStep(k, 0, false)) && Useful(st, WorkStep(k, 0, false));
  }

  // A holder of a slot lock or of the waiters lock never waits for another lock.
  lemma HolderReady(st: State, a: Actor)
    requires LockOf(st, a).Some? || InWaiters(st, a)
    ensures Ready(st, a)
  {
  }

  lemma ActorMoves(st: State, a: Actor)
    requires Inv(st) && UnderWay(st, a)
    ensures CanAct(st)
  {
    hide FutOk, WorkOk;
    if !Ready(st, a) {
      if WantsWaiters(st, a) {
        HolderReady(st, st.waitersLock.value);
        ReadyActs(st, st.waitersLock.value);
      } else {
        var s := WantsSlot(st, a);
        assert SlotOk(st, s);
        HolderReady(st, st.slots[s].lock.value);
        ReadyActs(st, st.slots[s].lock.value);
      }
    } else {
      ReadyActs(st, a);
    }
  }

  predicate WantsWaiters(st: State, a: Actor) {
    match a
    case Fut(i) => i < |st.futs| && (st.At(i).ClaimLock? || st.At(i).RelLock?)
    case Wrk(k) => k < |st.workers| && st.workers[k].WaitersLock?
  }

  // The slot whose lock an actor under way has to wait for.
  lemma WantsSlot(st: State, a: Actor) returns (s: nat)
    requires Inv(st) && UnderWay(st, a) && !Ready(st, a) && !WantsWaiters(st, a)
    ensures s < |st.slots| && st.slots[s].lock.Some?
  {
    match a
    case Fut(i) =>
      assert FutOk(st, i);
      s := st.At(i).s;
    case Wrk(k) =>
      assert WorkOk(st, k);
      s := st.workers[k].s;
  }

  // Queued work reaches a worker: one is idle, or busy, or still being started.
  lemma QueueMoves(st: State)
    requires Sound(st) && st.queue != []
    ensures CanAct(st)
  {
    hide FutOk, WorkOk, SlotOk;
    if st.starter < |st.futs| && st.At(st.starter).Spawn? {
      ActorMoves(st, Fut(st.starter));
    } else {
      assert !st.workers[0].Off?;
      if st.workers[0].Idle? { ReadyActs(st, Wrk(0)); } else { ActorMoves(st, Wrk(0)); }
    }
  }

  // The owner of a slot that waits for its answer, or the worker that serves it, can act.
  lemma SlotMoves(st: State, s: nat)
    requires Sound(st) && s < |st.slots| && st.slots[s].state != Free
    ensures CanAct(st)
  {
    hide WorkOk;
    assert SlotOk(st, s);
    match st.phase[s]
    case PClaimed(f) => ActorMoves(st, Fut(f));
    case PQueued(f) => QueueMoves(st);
    case PWork(k, f) => ActorMoves(st, Wrk(k));
    case PDetached(k, f) => ActorMoves(st, Wrk(k));
    case PReleasing(f) => ActorMoves(st, Fut(f));
    case PDone(f, k) =>
      if !st.At(f).Parked? { ActorMoves(st, Fut(f)); }
      else {
        assert FutOk(st, f);
        if st.futs[f].woken { assert Enabled(st, Poll(f, 0)) && Useful(st, Poll(f, 0)); }
        else { ActorMoves(st, Wrk(k)); }
      }
  }

  // In every reachable state with an unfinished future, a useful step is enabled.
  lemma Progress(st: State, i: nat)
    requires Reachable(st) && Pending(st, i)
    ensures CanAct(st)
  {
    hide WorkOk, SlotOk;
    ReachableSound(st);
    if !st.At(i).Parked? {
      ActorMoves(st, Fut(i));
    } else if st.futs[i].woken {
      assert Enabled(st, Poll(i, 0)) && Useful(st, Poll(i, 0));
    } else {
      assert FutOk(st, i);
      var s := if st.futs[i].slot.Some? then st.futs[i].slot.value else 0;
      assert SlotOk(st, s);
      if st.slots[s].state != Free {
        SlotMoves(st, s);
      } else {
        FreePhase(st, s);
        assert FreedByWaker(st, s);
        ActorMoves(st, st.phase[s].last.value);
      }
    }
  }

  lemma FreePhase(st: State, s: nat)
    requires Inv(st) && s < |st.slots| && st.slots[s].state == Free
    ensures st.phase[s].PFree?
  {
    assert SlotOk(st, s);
  }
}
