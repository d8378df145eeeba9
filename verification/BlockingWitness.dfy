/**
 One run of the pool, step by step: one future, one slot, one worker.  The future is dropped after the
 worker took its closure and before the worker called it.
 */
module BlockingWitness {
  import opened Prelude
  import opened BlockingPool

  lemma StepTo(st: State, a: Action, st': State)
    requires Reachable(st) && Step(st, a, st')
    ensures Reachable(st')
  {
    var r: Run :| Execution(r) && r.states[|r.actions|] == st;
    var r' := Run(r.states + [st'], r.actions + [a]);
    assert Execution(r') && r'.states[|r'.actions|] == st';
  }

  lemma FutTo(st: State, i: nat, st': State)
    requires Reachable(st) && Shape(st) && FutReady(st, i) && !FutFaults(st, i) && st' == FutNext(st, i)
    ensures Reachable(st')
  {
    assert Enabled(st, FutStep(i));
    StepTo(st, FutStep(i), st');
  }

  lemma PollTo(st: State, i: nat, t: Task, st': State)
    requires Reachable(st) && Shape(st) && i < |st.futs| && st.At(i).Parked? && st' == PollStart(st, i, t)
    ensures Reachable(st')
  {
    assert Enabled(st, Poll(i, t));
    StepTo(st, Poll(i, t), st');
  }

  lemma DropTo(st: State, i: nat, st': State)
    requires Reachable(st) && Shape(st) && i < |st.futs| && st.At(i).Parked? && st' == DropStart(st, i)
    ensures Reachable(st')
  {
    assert Enabled(st, Drop(i));
    StepTo(st, Drop(i), st');
  }

  lemma WorkTo(st: State, k: nat, st': State)
    requires Reachable(st) && Shape(st) && WorkReady(st, k) && !WorkFaults(st, k) && st' == WorkNext(st, k, 0, false)
    ensures Reachable(st')
  {
    assert Enabled(st, WorkStep(k, 0, false));
    StepTo(st, WorkStep(k, 0, false), st');
  }

  lemma Start(st: State)
    requires Init(st)
    ensures Reachable(st)
  {
    var r := Run([st], []);
    assert Execution(r) && r.states[|r.actions|] == st;
  }

  function Small(f: Future, v: Slot, lock: Option<Actor>, queue: seq<nat>, started: bool, w: WorkPc,
                 p: Phase, l: Life, sent: seq<nat>, got: seq<nat>): State {
    State([v], {}, lock, queue, started, [f], [w], 1, [p], [l], 0, sent, got, {})
  }

  const FRESH := Life(None, 0, None)

  // The future at `pc`, owning slot `s` or none yet; its closure still there, or taken.
  function F(pc: FutPc, s: Option<nat>): Future { Future(pc, s, Some(0), None, 0, false) }
  function T(pc: FutPc): Future { Future(pc, Some(0), None, None, 0, false) }

  // The states of the run.
  const S0 := Small(Future(Parked, None, Some(0), None, 0, true), Slot(Free, None, None, None, None),
    None, [], false, Off, PFree(None), FRESH, [], [])
  const S1 := Small(F(ClaimLock, None), Slot(Free, None, None, None, None),
    None, [], false, Off, PFree(None), FRESH, [], [])
  const S2 := Small(F(ClaimScan(0), None), Slot(Free, None, None, None, None),
    Some(Fut(0)), [], false, Off, PFree(None), FRESH, [], [])
  const S3 := Small(F(ClaimUnlock(Some(0)), None), Slot(Claimed, None, None, None, None),
    Some(Fut(0)), [], false, Off, PClaimed(0), FRESH, [], [])
  const S4 := Small(F(SetWaker(0), Some(0)), Slot(Claimed, None, None, None, None),
    None, [], false, Off, PClaimed(0), FRESH, [], [])
  const S5 := Small(F(WriteShared(0), Some(0)), Slot(Claimed, None, None, None, Some(0)),
    None, [], false, Off, PClaimed(0), FRESH, [], [])
  const S6 := Small(F(WriteRunner(0), Some(0)), Slot(Claimed, None, Some(0), None, Some(0)),
    None, [], false, Off, PClaimed(0), FRESH, [], [])
  const S7 := Small(F(StartCas(0), Some(0)), Slot(Claimed, None, Some(0), Some(0), Some(0)),
    None, [], false, Off, PClaimed(0), FRESH, [], [])
  const S8 := Small(F(Spawn(0, 0), Some(0)), Slot(Claimed, None, Some(0), Some(0), Some(0)),
    None, [], true, Off, PClaimed(0), FRESH, [], [])
  const S9 := Small(F(Spawn(0, 1), Some(0)), Slot(Claimed, None, Some(0), Some(0), Some(0)),
    None, [], true, Idle, PClaimed(0), FRESH, [], [])
  const S10 := Small(F(StoreQueued(0), Some(0)), Slot(Claimed, None, Some(0), Some(0), Some(0)),
    None, [], true, Idle, PClaimed(0), FRESH, [], [])
  const S11 := Small(F(Send(0), Some(0)), Slot(Queued, None, Some(0), Some(0), Some(0)),
    None, [], true, Idle, PClaimed(0), FRESH, [], [])
  const S12 := Small(F(Parked, Some(0)), Slot(Queued, None, Some(0), Some(0), Some(0)),
    None, [0], true, Idle, PQueued(0), FRESH, [0], [])
  const S13 := Small(F(Parked, Some(0)), Slot(Queued, None, Some(0), Some(0), Some(0)),
    None, [], true, ReadRunner(0), PWork(0, 0), FRESH, [0], [0])
  const S14 := Small(F(Parked, Some(0)), Slot(Queued, None, Some(0), Some(0), Some(0)),
    None, [], true, Lock1(0, 0), PWork(0, 0), FRESH, [0], [0])
  const S15 := Small(F(Parked, Some(0)), Slot(Queued, Some(Wrk(0)), Some(0), Some(0), Some(0)),
    None, [], true, Load1(0, 0), PWork(0, 0), FRESH, [0], [0])
  const S16 := Small(F(Parked, Some(0)), Slot(Queued, Some(Wrk(0)), Some(0), Some(0), Some(0)),
    None, [], true, TakeOp(0, 0), PWork(0, 0), FRESH, [0], [0])
  const S17 := Small(T(Parked), Slot(Queued, Some(Wrk(0)), Some(0), Some(0), Some(0)),
    None, [], true, Unlock1(0, 0, Some(0)), PWork(0, 0), Life(Some(0), 0, None), [0], [0])
  const S18 := Small(T(Parked), Slot(Queued, None, Some(0), Some(0), Some(0)),
    None, [], true, Call(0, 0, 0), PWork(0, 0), Life(Some(0), 0, None), [0], [0])
  const S19 := Small(T(DropRemove(0)), Slot(Queued, None, Some(0), Some(0), Some(0)),
    None, [], true, Call(0, 0, 0), PWork(0, 0), Life(Some(0), 0, None), [0], [0])
  const S20 := Small(T(DropLock(0)), Slot(Queued, None, Some(0), Some(0), Some(0)),
    None, [], true, Call(0, 0, 0), PWork(0, 0), Life(Some(0), 0, None), [0], [0])
  const S21 := Small(T(DropLoad(0)), Slot(Queued, Some(Fut(0)), Some(0), Some(0), Some(0)),
    None, [], true, Call(0, 0, 0), PWork(0, 0), Life(Some(0), 0, None), [0], [0])
  const S22 := Small(T(DropNull(0)), Slot(Queued, Some(Fut(0)), Some(0), Some(0), Some(0)),
    None, [], true, Call(0, 0, 0), PWork(0, 0), Life(Some(0), 0, None), [0], [0])
  const S23 := Small(T(DropOrphan(0)), Slot(Queued, Some(Fut(0)), None, Some(0), Some(0)),
    None, [], true, Call(0, 0, 0), PWork(0, 0), Life(Some(0), 0, None), [0], [0])
  const S24 := Small(T(DropUnlock(0, true)), Slot(Orphaned, Some(Fut(0)), None, Some(0), Some(0)),
    None, [], true, Call(0, 0, 0), PDetached(0, 0), Life(Some(0), 0, None), [0], [0])
  const S25 := Small(T(Gone), Slot(Orphaned, None, None, Some(0), Some(0)),
    None, [], true, Call(0, 0, 0), PDetached(0, 0), Life(Some(0), 0, None), [0], [0])

  // The future claims the slot,
  lemma ReachClaimed()
    ensures Reachable(S3)
  {
    Start(S0);
    hide Reachable;
    assert Reachable(S1) by { PollTo(S0, 0, 0, S1); }
    assert Reachable(S2) by { FutTo(S1, 0, S2); }
    assert Reachable(S3) by { FutTo(S2, 0, S3); }
  }

  // registers its waker and its data,
  lemma ReachRegistered()
    requires Reachable(S3)
    ensures Reachable(S6)
  {
    hide Reachable;
    assert Reachable(S4) by { FutTo(S3, 0, S4); }
    assert Reachable(S5) by { FutTo(S4, 0, S5); }
    assert Reachable(S6) by { FutTo(S5, 0, S6); }
  }

  // starts the worker
  lemma ReachStarted()
    requires Reachable(S6)
    ensures Reachable(S9)
  {
    hide Reachable;
    assert Reachable(S7) by { FutTo(S6, 0, S7); }
    assert Reachable(S8) by { FutTo(S7, 0, S8); }
    assert Reachable(S9) by { FutTo(S8, 0, S9); }
  }

  // and sends the slot to the queue.
  lemma ReachSubmitted()
    requires Reachable(S9)
    ensures Reachable(S12)
  {
    hide Reachable;
    assert Reachable(S10) by { FutTo(S9, 0, S10); }
    assert Reachable(S11) by { FutTo(S10, 0, S11); }
    assert Reachable(S12) by { FutTo(S11, 0, S12); }
  }

  // The worker dequeues the slot, locks it,
  lemma ReachLocked()
    requires Reachable(S12)
    ensures Reachable(S15)
  {
    hide Reachable;
    assert Reachable(S13) by { WorkTo(S12, 0, S13); }
    assert Reachable(S14) by { WorkTo(S13, 0, S14); }
    assert Reachable(S15) by { WorkTo(S14, 0, S15); }
  }

  // takes the closure and unlocks.
  lemma ReachTaken()
    requires Reachable(S15)
    ensures Reachable(S18)
  {
    hide Reachable;
    assert Reachable(S16) by { WorkTo(S15, 0, S16); }
    assert Reachable(S17) by { WorkTo(S16, 0, S17); }
    assert Reachable(S18) by { WorkTo(S17, 0, S18); }
  }

  // The future is dropped: it finds the slot dequeued,
  lemma ReachDropping()
    requires Reachable(S18)
    ensures Reachable(S20)
  {
    hide Reachable;
    assert Reachable(S19) by { DropTo(S18, 0, S19); }
    assert Reachable(S20) by { FutTo(S19, 0, S20); }
  }

  // locks it
  lemma ReachDropLock()
    requires Reachable(S20)
    ensures Reachable(S22)
  {
    hide Reachable;
    assert Reachable(S21) by { FutTo(S20, 0, S21); }
    assert Reachable(S22) by { FutTo(S21, 0, S22); }
  }

  // and orphans it.
  lemma ReachOrphaned()
    requires Reachable(S22)
    ensures Reachable(S25)
  {
    hide Reachable;
    assert Reachable(S23) by { FutTo(S22, 0, S23); }
    assert Reachable(S24) by { FutTo(S23, 0, S24); }
    assert Reachable(S25) by { FutTo(S24, 0, S25); }
  }

  // A dropped future's closure may still start after Orphaned was stored: the worker only has to have
  // taken it before.
  lemma StartsAfterOrphaned() returns (st: State)
    ensures Reachable(st) && |st.futs| == 1 && |st.slots| == 1 && |st.workers| == 1 && |st.lives| == 1
    ensures st.At(0).Gone? && st.slots[0].state == Orphaned && st.lives[0].runs == 0
    ensures !WorkFaults(st, 0) && WorkReady(st, 0) && Shape(st)
    ensures |WorkNext(st, 0, 0, false).lives| == 1 && WorkNext(st, 0, 0, false).lives[0].runs == 1
  {
    ReachClaimed();
    ReachRegistered();
    ReachStarted();
    ReachSubmitted();
    ReachLocked();
    ReachTaken();
    ReachDropping();
    ReachDropLock();
    ReachOrphaned();
    st := S25;
  }
}
