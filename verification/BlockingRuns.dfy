/**
 The invariant over whole runs: it holds at the start, every action keeps it, so it holds in every
 reachable state.
 */
module BlockingRuns {
  import opened Prelude
  import opened BlockingPool
  import opened BlockingInvariant
  import opened BlockingFrame
  import opened BlockingSafety
  import W = BlockingWorkers

  // ---------------------------------------------------------------- what an action leaves alone

  function Doer(a: Action): Actor {
    match a
    case Poll(i, _) => Fut(i)
    case Drop(i) => Fut(i)
    case FutStep(i) => Fut(i)
    case WorkStep(k, _, _) => Wrk(k)
  }

  // The actor's next operation drains the waiters list.
  predicate Draining(st: State, a: Actor) {
    match a
    case Fut(i) => i < |st.futs| && st.At(i).RelWake?
    case Wrk(k) => k < |st.workers| && st.workers[k].WaitersWake?
  }

  // The actor's next operation stores Free.
  predicate Freeing(st: State, a: Actor) {
    match a
    case Fut(i) => i < |st.futs| && st.At(i).RelFree?
    case Wrk(k) => k < |st.workers| && st.workers[k].FreeSlot?
  }

  // Program counters and worker threads change only by their own steps.
  ghost predicate PcFrame(st: State, st': State, a: Action)
  {
    && SameSize(st, st') && st'.cap == st.cap
    && (forall j :: 0 <= j < |st.futs| && Doer(a) != Fut(j) ==>
         && st'.futs[j].pc == st.futs[j].pc && st'.futs[j].slot == st.futs[j].slot
         && st'.futs[j].task == st.futs[j].task)
    && (forall k :: 0 <= k < |st.workers| && Doer(a) != Wrk(k) ==>
         || st'.workers[k] == st.workers[k]
         || (FutAt(st, a).Spawn? && FutAt(st, a).w == k && st'.workers[k] == Idle))
    && (FutAt(st, a).Spawn? || (forall k :: 0 <= k < |st.workers| ==> (st'.workers[k].Off? <==> st.workers[k].Off?)))
    && (!FutAt(st, a).StartCas? ==> st'.started == st.started && st'.starter == st.starter)
    && (st'.queue != [] ==> st.queue != [] || FutAt(st, a).Send?)
  }

  // The operation an action of a future executes; starting a poll or a drop counts as parked.
  function FutAt(st: State, a: Action): FutPc {
    match a
    case FutStep(i) => if i < |st.futs| then st.At(i) else Parked
    case _ => Parked
  }

  // A slot becomes free only when the doer stores Free, and then the doer has yet to wake the waiters.
  ghost predicate FreeFrame(st: State, st': State, a: Action)
    requires SameSize(st, st')
  {
    && (forall s :: 0 <= s < |st.slots| ==>
         || st'.phase[s] == st.phase[s]
         || !st'.phase[s].PFree?
         || (st'.phase[s].last == Some(Doer(a)) && StillToWake(st', Doer(a))))
    && (StillToWake(st, Doer(a)) ==> StillToWake(st', Doer(a)) || Draining(st, Doer(a)))
    && (Draining(st, Doer(a)) ==> st'.waiters == {})
    && (st'.waiters == {} || st'.waiters == st.waiters ||
        (FutAt(st, a).ClaimScan? && FutAt(st, a).j >= |st.slots|))
  }

  // The operations of a future up to its parking.
  predicate Arriving(pc: FutPc) {
    pc.ClaimLock? || pc.ClaimScan? || pc.ClaimUnlock? || pc.SetWaker? || pc.WriteShared? || pc.WriteRunner? ||
    pc.StartCas? || pc.Spawn? || pc.StoreQueued? || pc.Send? || pc.ResetWaker? || pc.LoadState?
  }

  lemma FutArrivingFrame(st: State, i: nat)
    requires Shape(st) && FutReady(st, i) && !FutFaults(st, i) && Arriving(st.At(i))
    ensures PcFrame(st, FutNext(st, i), FutStep(i)) && FreeFrame(st, FutNext(st, i), FutStep(i))
  {
  }

  lemma FutLeavingFrame(st: State, i: nat)
    requires Shape(st) && FutReady(st, i) && !FutFaults(st, i) && !Arriving(st.At(i))
    ensures PcFrame(st, FutNext(st, i), FutStep(i)) && FreeFrame(st, FutNext(st, i), FutStep(i))
  {
  }

  // The operations of a worker on the slot it serves, up to its result.
  predicate Early(pc: WorkPc) {
    pc.Idle? || pc.ReadRunner? || pc.Lock1? || pc.Load1? || pc.TakeOp? || pc.Unlock1? || pc.Call? || pc.Running?
  }

  lemma WorkEarlyFrame(st: State, k: nat, v: int, keep: bool)
    requires Shape(st) && WorkReady(st, k) && !WorkFaults(st, k) && Early(st.workers[k])
    ensures PcFrame(st, WorkNext(st, k, v, keep), WorkStep(k, v, keep))
    ensures FreeFrame(st, WorkNext(st, k, v, keep), WorkStep(k, v, keep))
  {
  }

  lemma WorkHandingFrame(st: State, k: nat, v: int, keep: bool)
    requires Shape(st) && WorkReady(st, k) && !WorkFaults(st, k) && !Early(st.workers[k])
    requires WorkSlot(st.workers[k]).Some? && !st.workers[k].Wake?
    ensures PcFrame(st, WorkNext(st, k, v, keep), WorkStep(k, v, keep))
    ensures FreeFrame(st, WorkNext(st, k, v, keep), WorkStep(k, v, keep))
  {
  }

  lemma WorkLateFrame(st: State, k: nat, v: int, keep: bool)
    requires Shape(st) && WorkReady(st, k) && !WorkFaults(st, k) && !Early(st.workers[k])
    requires WorkSlot(st.workers[k]).None? || st.workers[k].Wake?
    ensures PcFrame(st, WorkNext(st, k, v, keep), WorkStep(k, v, keep))
    ensures FreeFrame(st, WorkNext(st, k, v, keep), WorkStep(k, v, keep))
  {
  }

  lemma Frames(st: State, a: Action)
    requires Shape(st) && Enabled(st, a) && !Faults(st, a)
    ensures PcFrame(st, Next(st, a), a) && FreeFrame(st, Next(st, a), a)
  {
    hide FutFaults, WorkFaults, FutNext, WorkNext;
    match a
    case Poll(i, t) =>
    case Drop(i) =>
    case FutStep(i) =>
      if Arriving(st.At(i)) { FutArrivingFrame(st, i); } else { FutLeavingFrame(st, i); }
    case WorkStep(k, v, keep) => 
      if Early(st.workers[k]) { WorkEarlyFrame(st, k, v, keep); }
      else if WorkSlot(st.workers[k]).Some? && !st.workers[k].Wake? { WorkHandingFrame(st, k, v, keep); }
      else { WorkLateFrame(st, k, v, keep); }
  }

  // ---------------------------------------------------------------- the waiters list

  // A free slot whose releaser has yet to wake stays so, unless the waiters list is drained.
  lemma FreedStays(st: State, a: Action, s: nat)
    requires Shape(st) && StartOk(st) && Enabled(st, a) && !Faults(st, a)
    requires s < |st.slots| && FreedByWaker(st, s)
    requires Draining(st, Doer(a)) ==> st.phase[s].PFree? ==> st.phase[s].last != Some(Doer(a))
    ensures FreedByWaker(Next(st, a), s)
  {
    hide FutFaults, WorkFaults;
    var st' := Next(st, a);
    Frames(st, a);
    hide FutNext, WorkNext;
    if st'.phase[s].PFree? && st'.phase[s] == st.phase[s] {
      var b := st.phase[s].last.value;
      match b
      case Fut(j) =>
      case Wrk(k) => assert FutAt(st, a).Spawn? ==> Up(st) == FutAt(st, a).w;
    }
  }

  // Whoever scans holds the lock, so nobody drains the list meanwhile.
  lemma ScanExcludesDrain(st: State, i: nat, b: Actor)
    requires Inv(st) && i < |st.futs| && st.At(i).ClaimScan?
    ensures !Draining(st, b)
  {
    hide SlotOk;
    assert FutOk(st, i);
    match b
    case Fut(j) => assert j < |st.futs| ==> FutOk(st, j);
    case Wrk(k) => assert k < |st.workers| ==> WorkOk(st, k);
  }

  // The scan moves on past slots that are not free.
  lemma ScanSource(st: State, i: nat)
    requires Shape(st) && FutReady(st, i) && !FutFaults(st, i) && i < |FutNext(st, i).futs|
    requires FutNext(st, i).At(i).ClaimScan?
    ensures var j := FutNext(st, i).At(i).j;
            || j == 0
            || (st.At(i) == ClaimScan(j - 1) && j - 1 < |st.slots| && st.slots[j - 1].state != Free)
  {
  }

  lemma ScanStays(st: State, a: Action, i: nat)
    requires Inv(st) && StartOk(st) && WaitersOk(st) && Enabled(st, a) && !Faults(st, a)
    requires i < |Next(st, a).futs| && Next(st, a).At(i).ClaimScan?
    ensures Shape(Next(st, a)) && ScannedOk(Next(st, a), Next(st, a).At(i).j)
  {
    hide FutFaults, WorkFaults, FutOk, SlotOk, WorkOk, GlobalOk, FutNext, WorkNext;
    Frames(st, a);
    var st' := Next(st, a);
    var own := Doer(a) == Fut(i);
    if own && a.FutStep? { ScanSource(st, i); }
    forall s | 0 <= s < |st'.slots| && s < st'.At(i).j ensures FreedByWaker(st', s) {
      if own && s == st'.At(i).j - 1 {
        NotFreePhase(st, s);
      } else {
        assert st.At(i).ClaimScan? && ScannedOk(st, st.At(i).j);
      }
      ScanExcludesDrain(st, i, Doer(a));
      FreedStays(st, a, s);
    }
  }

  lemma NotFreePhase(st: State, s: nat)
    requires Inv(st) && s < |st.slots| && st.slots[s].state != Free
    ensures !st.phase[s].PFree?
  {
    assert SlotOk(st, s);
  }

  lemma WaitersKeeps(st: State, a: Action)
    requires Inv(st) && StartOk(st) && WaitersOk(st) && Enabled(st, a) && !Faults(st, a)
    ensures WaitersOk(Next(st, a))
  {
    hide FutFaults, WorkFaults, FutOk, SlotOk, WorkOk, GlobalOk, FutNext, WorkNext;
    Frames(st, a);
    var st' := Next(st, a);
    if st'.waiters != {} {
      forall s | 0 <= s < |st'.slots| ensures FreedByWaker(st', s) {
        if st'.waiters != st.waiters { assert ScannedOk(st, FutAt(st, a).j); }
        assert FreedByWaker(st, s);
        FreedStays(st, a, s);
      }
    }
    forall i | 0 <= i < |st'.futs| && st'.At(i).ClaimScan? ensures ScannedOk(st', st'.At(i).j) {
      ScanStays(st, a, i);
    }
  }

  // ---------------------------------------------------------------- the worker threads

  lemma SpawnSource(st: State, i: nat)
    requires Inv(st) && FutReady(st, i) && !FutFaults(st, i)
    ensures var pc, r := st.At(i), FutNext(st, i);
            && (pc.Spawn? ==>
                  if pc.w < |st.workers| then
                    r.At(i) == Spawn(pc.s, pc.w + 1) && r.workers == st.workers[pc.w := Idle]
                  else !r.At(i).Spawn? && r.workers == st.workers)
            && (r.At(i).Spawn? && !pc.Spawn? ==> pc.StartCas? && !st.started && r.At(i).w == 0)
            && (pc.StartCas? ==>
                  r.started && r.starter == (if st.started then st.starter else i) && r.workers == st.workers)
            && (pc.StartCas? && !st.started ==> r.At(i).Spawn?)
            && (pc.Spawn? ==> st.started && pc.w <= |st.workers|)
            && (pc.Send? ==> st.started)
  {
    hide SlotOk, WorkOk, GlobalOk;
    assert FutOk(st, i);
  }

  lemma StartKeeps(st: State, a: Action)
    requires Inv(st) && StartOk(st) && Enabled(st, a) && !Faults(st, a)
    ensures StartOk(Next(st, a))
  {
    hide FutFaults, WorkFaults, FutOk, SlotOk, WorkOk, GlobalOk, FutNext, WorkNext, FreeFrame;
    Frames(st, a);
    var st' := Next(st, a);
    match a
    case Poll(i, _) =>
    case Drop(i) =>
    case WorkStep(_, _, _) =>
    case FutStep(i) => SpawnSource(st, i);
  }

  // ---------------------------------------------------------------- every action, every run

  // All that is kept together.
  ghost predicate Sound(st: State) {
    Inv(st) && StartOk(st) && WaitersOk(st)
  }

  // No enabled action faults: no panic, no dangling or mistyped pointer, no double release or unlock.
  lemma NoFault(st: State, a: Action)
    requires Sound(st) && Enabled(st, a)
    ensures !Faults(st, a)
  {
    match a
    case Poll(_, _) =>
    case Drop(_) =>
    case FutStep(i) => FutSafe(st, i);
    case WorkStep(k, _, _) => W.WorkSafe(st, k);
  }

  lemma FutKeeps(st: State, i: nat)
    requires Stepping(st, i) && StartOk(st)
    ensures Inv(FutNext(st, i))
  {
    hide FutFaults, FutOk, SlotOk, WorkOk, GlobalOk, FutNext;
    match st.At(i)
    case ClaimLock => ListKeeps(st, i);
    case ClaimScan(_) => ScanKeeps(st, i);
    case ClaimUnlock(found) => if found.Some? { ClaimUnlockKeeps(st, i); } else { ListKeeps(st, i); }
    case SetWaker(_) => WritingKeeps(st, i);
    case WriteShared(_) => WritingKeeps(st, i);
    case WriteRunner(_) => WritingKeeps(st, i);
    case StartCas(_) => StartingKeeps(st, i);
    case Spawn(_, w) => if w < |st.workers| { SpawnKeeps(st, i); } else { SpawnEndKeeps(st, i); }
    case StoreQueued(_) => PollingKeeps(st, i);
    case Send(_) => SendKeeps(st, i);
    case ResetWaker(_) => PollingKeeps(st, i);
    case LoadState(_) => PollingKeeps(st, i);
    case TakeResult(_) => FinishingKeeps(st, i);
    case RelFree(_, _) => FinishingKeeps(st, i);
    case RelLock(_) => ListKeeps(st, i);
    case RelWake(_) => RelWakeKeeps(st, i);
    case RelUnlock(_) => ListKeeps(st, i);
    case DropRemove(s) => if s in st.queue { RemoveKeeps(st, i); } else { RemoveMissKeeps(st, i); }
    case DropLock(_) => DropLockKeeps(st, i);
    case DropLoad(_) => DropLoadKeeps(st, i);
    case DropNull(_) => DropNullKeeps(st, i);
    case DropOrphan(_) => OrphanKeeps(st, i);
    case DropUnlock(_, _) => DropUnlockKeeps(st, i);
  }

  lemma WorkKeeps(st: State, k: nat, v: int, keep: bool)
    requires W.Working(st, k)
    ensures Inv(WorkNext(st, k, v, keep))
  {
    hide WorkFaults, FutOk, SlotOk, WorkOk, GlobalOk, WorkNext;
    match st.workers[k]
    case Idle => W.ReceiveKeeps(st, k, v, keep);
    case ReadRunner(_) => W.ReadingKeeps(st, k, v, keep);
    case Lock1(_, _) => W.LockingKeeps(st, k, v, keep);
    case Load1(_, _) => W.ReadingKeeps(st, k, v, keep);
    case TakeOp(_, r) => W.TakeOpKeeps(st, k, v, keep, r);
    case Unlock1(_, _, _) => W.Unlock1Keeps(st, k, v, keep);
    case Call(_, _, c) => W.CallKeeps(st, k, v, keep, c);
    case Running(_, _, c) => W.RunningKeeps(st, k, v, keep, c);
    case Lock2(_, _, _) => W.LockingKeeps(st, k, v, keep);
    case Load2(_, _, _) => W.CheckingKeeps(st, k, v, keep);
    case WriteResult(_, r, _) => W.WriteResultKeeps(st, k, v, keep, r);
    case StoreDone(_, r) => W.StoreDoneKeeps(st, k, v, keep, r);
    case Unlock2(_, _) => W.Unlock2Keeps(st, k, v, keep);
    case Wake(_) => W.WakeKeeps(st, k, v, keep);
    case FreeSlot(_) => W.CheckingKeeps(st, k, v, keep);
    case WaitersLock => W.WaitersLockKeeps(st, k, v, keep);
    case WaitersWake => W.WaitersWakeKeeps(st, k, v, keep);
    case WaitersUnlock => W.WaitersUnlockKeeps(st, k, v, keep);
  }

  lemma ActionKeeps(st: State, a: Action)
    requires Sound(st) && Enabled(st, a)
    ensures !Faults(st, a) && Sound(Next(st, a))
  {
    hide FutFaults, WorkFaults, FutOk, SlotOk, WorkOk, GlobalOk, FutNext, WorkNext;
    NoFault(st, a);
    StartKeeps(st, a);
    WaitersKeeps(st, a);
    match a
    case Poll(i, t) => PollKeeps(st, i, t);
    case Drop(i) => DropKeeps(st, i);
    case FutStep(i) => FutKeeps(st, i);
    case WorkStep(k, v, keep) => WorkKeeps(st, k, v, keep);
  }

  lemma InitSound(st: State)
    requires Init(st)
    ensures Sound(st)
  {
  }

  lemma {:induction false} RunSound(r: Run, n: nat)
    requires ValidRun(r) && Sound(r.states[0]) && n <= |r.actions|
    ensures Sound(r.states[n])
  {
    if n > 0 {
      RunSound(r, n - 1);
      hide Sound;
      assert Step(r.states[n - 1], r.actions[n - 1], r.states[n]);
      ActionKeeps(r.states[n - 1], r.actions[n - 1]);
    }
  }

  lemma ReachableSound(st: State)
    requires Reachable(st)
    ensures Sound(st)
  {
    var r: Run :| Execution(r) && r.states[|r.actions|] == st;
    InitSound(r.states[0]);
    RunSound(r, |r.actions|);
  }
}
