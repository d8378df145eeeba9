/**
 Every useful step, and every drop, lowers a measure, unless a registration finds the waiters list full.  So a
 run of useful steps without such an overflow is bounded, and when none is left all futures are done.  With
 or without overflows the steps that are not part of a fruitless poll are bounded.
 */
module BlockingTermination {
  import opened Prelude
  import opened BlockingPool
  import opened BlockingInvariant
  import opened BlockingFrame
  import opened BlockingSafety
  import opened BlockingRuns
  import opened BlockingProgress
  import L = BlockingLives

  // ---------------------------------------------------------------- the measure

  // How far a future is from its end; `w` is the number of worker threads it may have to start.
  function Distance(f: Future, w: nat): nat {
    match f.pc
    case Parked => if f.slot.Some? then 40 else 200 + w
    case ClaimLock => 200 + w
    case ClaimScan(_) => 200 + w
    case ClaimUnlock(found) => if found.Some? then 199 + w else 200 + w
    case SetWaker(_) => 198 + w
    case WriteShared(_) => 197 + w
    case WriteRunner(_) => 196 + w
    case StartCas(_) => 195 + w
    case Spawn(_, j) => if j <= w then 100 + (w - j) else 100
    case StoreQueued(_) => 99
    case Send(_) => 98
    case ResetWaker(_) => 40
    case LoadState(_) => 40
    case TakeResult(_) => 39
    case DropRemove(_) => 30
    case DropLock(_) => 29
    case DropLoad(_) => 28
    case DropNull(_) => 27
    case DropOrphan(_) => 26
    case DropUnlock(_, orphaned) => if orphaned then 25 else 10
    case RelFree(_, _) => 9
    case RelLock(_) => 8
    case RelWake(_) => 7
    case RelUnlock(_) => 6
    case Finished(_) => 1
    case Gone => 0
  }

  // How far a worker is from being idle again.
  function Work(pc: WorkPc): nat {
    match pc
    case Off => 0
    case Idle => 0
    case ReadRunner(_) => 20
    case Lock1(_, _) => 19
    case Load1(_, _) => 18
    case TakeOp(_, _) => 17
    case Unlock1(_, _, _) => 16
    case Call(_, _, _) => 15
    case Running(_, _, _) => 14
    case Lock2(_, _, _) => 13
    case Load2(_, _, _) => 12
    case WriteResult(_, _, _) => 11
    case StoreDone(_, _) => 10
    case Unlock2(_, _) => 9
    case FreeSlot(_) => 8
    case WaitersLock => 7
    case WaitersWake => 6
    case WaitersUnlock => 5
    case Wake(_) => 3
  }

  // What is left of a poll that may end in Pending, and of the poll a wake-up has called for.
  function Polling(f: Future, slots: nat): nat {
    (if f.woken then slots + 6 else 0) +
    (match f.pc
     case ClaimLock => slots + 5
     case ClaimScan(j) => if j <= slots then slots + 4 - j else 0
     case ClaimUnlock(found) => if found.None? then 1 else 0
     case ResetWaker(_) => 2
     case LoadState(_) => 1
     case _ => 0)
  }

  function Distances(st: State): seq<nat> {
    seq(|st.futs|, i requires 0 <= i < |st.futs| => Distance(st.futs[i], |st.workers|))
  }

  function Works(st: State): seq<nat> {
    seq(|st.workers|, k requires 0 <= k < |st.workers| => Work(st.workers[k]))
  }

  function Polls(st: State): seq<nat> {
    seq(|st.futs|, i requires 0 <= i < |st.futs| => Polling(st.futs[i], |st.slots|))
  }

  // Work that never comes back once done.
  function Major(st: State): nat {
    Sum(Distances(st)) + 30 * |st.queue| + Sum(Works(st))
  }

  // Polls that change nothing else; every major step may call for new ones.
  function Minor(st: State): nat {
    Sum(Polls(st))
  }

  function MinorBound(st: State): nat {
    |st.futs| * (2 * |st.slots| + 11)
  }

  function Measure(st: State): nat {
    Major(st) * (MinorBound(st) + 1) + Minor(st)
  }

  // ---------------------------------------------------------------- sums

  lemma MinorBounded(st: State)
    ensures Minor(st) <= MinorBound(st)
  {
    SumBound(Polls(st), 2 * |st.slots| + 11);
  }

  // ---------------------------------------------------------------- one step

  // Every task in use is among the `ts` the waiters list has room for.
  ghost predicate TasksIn(st: State, ts: set<Task>) {
    && |ts| <= st.cap
    && st.waiters <= ts
    && (forall i :: 0 <= i < |st.futs| ==> st.futs[i].task in ts)
  }

  ghost predicate Admissible(a: Action, ts: set<Task>) {
    a.Poll? ==> a.t in ts
  }

  // The action registers a task on a waiters list that is full: everybody on it is woken and forgotten.
  predicate Overflows(st: State, a: Action) {
    && a.FutStep? && a.i < |st.futs| && st.At(a.i).ClaimScan? && st.At(a.i).j >= |st.slots|
    && st.futs[a.i].task !in st.waiters && |st.waiters| >= st.cap
  }

  // The operations of a poll that may come to nothing.
  predicate Idling(st: State, i: nat) {
    && i < |st.futs|
    && match st.At(i)
       case ClaimLock => true
       case ClaimScan(j) => !(j < |st.slots| && st.slots[j].state == Free)
       case ClaimUnlock(found) => found.None?
       case ResetWaker(_) => true
       case LoadState(s) => s < |st.slots| && st.slots[s].state != Done
       case _ => false
  }

  lemma ArrivingMajor(st: State, i: nat)
    requires Inv(st) && FutReady(st, i) && !FutFaults(st, i) && Arriving(st.At(i))
    ensures var r, w := FutNext(st, i), |st.workers|;
            Distance(r.futs[i], w) + 30 * |r.queue| + (if Idling(st, i) then 0 else 1)
              <= Distance(st.futs[i], w) + 30 * |st.queue|
  {
    hide WorkOk, SlotOk;
    assert FutOk(st, i);
    hide Inv;
  }

  lemma RemoveMajor(st: State, i: nat)
    requires Inv(st) && FutReady(st, i) && !FutFaults(st, i) && st.At(i).DropRemove?
    ensures var r, w := FutNext(st, i), |st.workers|;
            Distance(r.futs[i], w) + 30 * |r.queue| < Distance(st.futs[i], w) + 30 * |st.queue|
  {
    WithoutOne(st.queue, st.At(i).s);
    hide Inv;
  }

  lemma LeavingMajor(st: State, i: nat)
    requires Inv(st) && FutReady(st, i) && !FutFaults(st, i) && !Arriving(st.At(i))
    ensures var r, w := FutNext(st, i), |st.workers|;
            Distance(r.futs[i], w) + 30 * |r.queue| < Distance(st.futs[i], w) + 30 * |st.queue|
  {
    if st.At(i).DropRemove? { RemoveMajor(st, i); } else { ReleaseMajor(st, i); }
  }

  lemma ReleaseMajor(st: State, i: nat)
    requires Shape(st) && FutReady(st, i) && !FutFaults(st, i) && !Arriving(st.At(i)) && !st.At(i).DropRemove?
    ensures Distance(FutNext(st, i).futs[i], |st.workers|) < Distance(st.futs[i], |st.workers|)
    ensures FutNext(st, i).queue == st.queue
  {
  }

  // A worker's step shortens its own way and moves no future, but for handing over results.
  lemma WorkMajor(st: State, k: nat, v: int, keep: bool)
    requires Shape(st) && WorkReady(st, k) && !WorkFaults(st, k)
    ensures var r := WorkNext(st, k, v, keep);
            Work(r.workers[k]) + 30 * |r.queue| < Work(st.workers[k]) + 30 * |st.queue|
  {
  }

  lemma MajorOfFut(st: State, st': State, i: nat, d: nat)
    requires SameSize(st, st') && i < |st.futs|
    requires forall j :: 0 <= j < |st.futs| && j != i ==>
               st'.futs[j].pc == st.futs[j].pc && st'.futs[j].slot == st.futs[j].slot
    requires forall k :: 0 <= k < |st.workers| ==>
               st'.workers[k] == st.workers[k] || (st.workers[k].Off? && st'.workers[k].Idle?)
    requires Distance(st'.futs[i], |st.workers|) + 30 * |st'.queue| + d
               <= Distance(st.futs[i], |st.workers|) + 30 * |st.queue|
    ensures Major(st') + d <= Major(st)
  {
    SumChange(Distances(st), Distances(st'), i);
    assert Works(st) == Works(st');
  }

  lemma MajorOfWork(st: State, st': State, k: nat)
    requires SameSize(st, st') && k < |st.workers|
    requires forall j :: 0 <= j < |st.futs| ==>
               st'.futs[j].pc == st.futs[j].pc && st'.futs[j].slot == st.futs[j].slot
    requires forall m :: 0 <= m < |st.workers| && m != k ==> st'.workers[m] == st.workers[m]
    requires Work(st'.workers[k]) + 30 * |st'.queue| < Work(st.workers[k]) + 30 * |st.queue|
    ensures Major(st') < Major(st)
  {
    SumChange(Works(st), Works(st'), k);
    assert Distances(st) == Distances(st');
  }

  // An idling step shortens the poll, or uses up a wake-up, and wakes nobody.
  lemma IdleMinor(st: State, i: nat)
    requires Inv(st) && FutReady(st, i) && !FutFaults(st, i) && Idling(st, i) && !Overflows(st, FutStep(i))
    ensures var r := FutNext(st, i);
            && Polling(r.futs[i], |st.slots|) < Polling(st.futs[i], |st.slots|)
            && forall j :: 0 <= j < |st.futs| && j != i ==> r.futs[j] == st.futs[j]
  {
    hide WorkOk, SlotOk;
    assert FutOk(st, i);
    hide Inv, FutOk;
  }

  lemma {:induction false} Subset<T>(a: set<T>, b: set<T>)
    requires a <= b
    ensures |a| <= |b|
  {
    if a != {} {
      var x :| x in a;
      Subset(a - {x}, b - {x});
    }
  }

  lemma Room(a: set<Task>, b: set<Task>, t: Task)
    requires a <= b && t in b && t !in a
    ensures |a| < |b|
  {
    Subset(a + {t}, b);
  }

  lemma MinorOfFut(st: State, st': State, i: nat)
    requires SameSize(st, st') && i < |st.futs|
    requires forall j :: 0 <= j < |st.futs| && j != i ==> st'.futs[j] == st.futs[j]
    requires Polling(st'.futs[i], |st.slots|) < Polling(st.futs[i], |st.slots|)
    ensures Minor(st') < Minor(st)
  {
    SumChange(Polls(st), Polls(st'), i);
  }

  // The pair (Major, Minor) falls lexicographically, hence so does the measure.
  lemma Lexicographic(st: State, st': State)
    requires SameSize(st, st')
    requires Major(st') < Major(st) || (Major(st') == Major(st) && Minor(st') < Minor(st))
    ensures Measure(st') < Measure(st)
  {
    MinorBounded(st');
    if Major(st') < Major(st) {
      var b := MinorBound(st) + 1;
      assert MinorBound(st') == MinorBound(st);
      Multiples(Major(st'), Major(st), b);
    }
  }

  lemma StepDecreases(st: State, a: Action)
    requires Sound(st) && Enabled(st, a) && !Faults(st, a) && (Useful(st, a) || a.Drop?)
    requires !Overflows(st, a)
    ensures Measure(Next(st, a)) < Measure(st)
  {
    hide FutFaults, WorkFaults, FutNext, WorkNext, FutOk, SlotOk, WorkOk, GlobalOk, FreeFrame, WaitersOk;
    hide Measure, Major, Minor, Distance, Polling;
    Frames(st, a);
    var st' := Next(st, a);
    match a
    case Poll(i, t) =>
      PollIdle(st, i, t);
      MajorOfFut(st, st', i, 0);
      MinorOfFut(st, st', i);
      Lexicographic(st, st');
    case Drop(i) =>
      DropCloser(st, i);
      MajorOfFut(st, st', i, 1);
      Lexicographic(st, st');
    case FutStep(i) =>
      FutDecreases(st, i);
    case WorkStep(k, v, keep) =>
      WorkMajor(st, k, v, keep);
      MajorOfWork(st, st', k);
      Lexicographic(st, st');
  }

  lemma PollIdle(st: State, i: nat, t: Task)
    requires i < |st.futs| && st.At(i).Parked? && st.futs[i].woken
    ensures Polling(PollStart(st, i, t).futs[i], |st.slots|) < Polling(st.futs[i], |st.slots|)
    ensures Distance(PollStart(st, i, t).futs[i], |st.workers|) == Distance(st.futs[i], |st.workers|)
  {
  }

  lemma DropCloser(st: State, i: nat)
    requires Inv(st) && Enabled(st, Drop(i))
    ensures Distance(DropStart(st, i).futs[i], |st.workers|) < Distance(st.futs[i], |st.workers|)
  {
    assert FutOk(st, i);
  }

  lemma FutDecreases(st: State, i: nat)
    requires Sound(st) && FutReady(st, i) && !FutFaults(st, i) && !Overflows(st, FutStep(i))
    ensures Measure(FutNext(st, i)) < Measure(st)
  {
    hide FutFaults, FutNext, FutOk, SlotOk, WorkOk, GlobalOk, FreeFrame, WaitersOk, Measure, Major, Minor;
    var st' := FutNext(st, i);
    FutMajor(st, i);
    if Idling(st, i) {
      IdleMinor(st, i);
      MinorOfFut(st, st', i);
    }
    Lexicographic(st, st');
  }

  lemma FutMajor(st: State, i: nat)
    requires Sound(st) && FutReady(st, i) && !FutFaults(st, i)
    ensures Major(FutNext(st, i)) + (if Idling(st, i) then 0 else 1) <= Major(st)
  {
    hide FutFaults, FutNext, FutOk, SlotOk, WorkOk, GlobalOk, FreeFrame, WaitersOk, Major;
    Frames(st, FutStep(i));
    assert st.At(i).Spawn? ==> Up(st) == st.At(i).w;
    if Arriving(st.At(i)) { ArrivingMajor(st, i); } else { LeavingMajor(st, i); }
    MajorOfFut(st, FutNext(st, i), i, if Idling(st, i) then 0 else 1);
  }

  // Tasks in use stay among `ts`: only polls bring in tasks.
  lemma TasksStay(st: State, a: Action, ts: set<Task>)
    requires Sound(st) && Enabled(st, a) && !Faults(st, a) && TasksIn(st, ts) && Admissible(a, ts)
    ensures TasksIn(Next(st, a), ts)
  {
    hide FutFaults, WorkFaults, FutNext, WorkNext, FutOk, SlotOk, WorkOk, GlobalOk;
    Frames(st, a);
    if a.FutStep? { FutTasks(st, a.i); }
  }

  lemma FutTasks(st: State, i: nat)
    requires Shape(st) && FutReady(st, i) && !FutFaults(st, i)
    ensures FutNext(st, i).futs[i].task == st.futs[i].task
    ensures FutNext(st, i).waiters <= st.waiters + {st.futs[i].task}
  {
  }

  // ---------------------------------------------------------------- runs

  // A run in which every action is useful or drops a future.
  ghost predicate UsefulRun(r: Run) {
    && ValidRun(r)
    && forall n :: 0 <= n < |r.actions| ==> Useful(r.states[n], r.actions[n]) || r.actions[n].Drop?
  }

  // No registration among the first `n` actions finds the list full.
  ghost predicate Roomy(r: Run, n: nat)
    requires n <= |r.actions| < |r.states|
  {
    forall m :: 0 <= m < n ==> !Overflows(r.states[m], r.actions[m])
  }

  lemma {:induction false} RunDecreases(r: Run, n: nat)
    requires UsefulRun(r) && Sound(r.states[0]) && n <= |r.actions| && Roomy(r, n)
    ensures Sound(r.states[n])
    ensures Measure(r.states[n]) + n <= Measure(r.states[0])
  {
    if n > 0 {
      RunDecreases(r, n - 1);
      hide Sound, Overflows, Measure;
      var st, a := r.states[n - 1], r.actions[n - 1];
      assert Step(st, a, r.states[n]);
      ActionKeeps(st, a);
      StepDecreases(st, a);
    }
  }

  // From the start, `n` futures are through after a bounded number of steps.
  function StepBound(n: nat, slots: nat, threads: nat): nat {
    n * (200 + threads) * (n * (2 * slots + 11) + 1) + n * (2 * slots + 11)
  }

  lemma InitMeasure(st: State)
    requires Init(st)
    ensures Measure(st) <= StepBound(|st.futs|, |st.slots|, |st.workers|)
  {
    SumBound(Distances(st), 200 + |st.workers|);
    SumBound(Works(st), 0);
    MinorBounded(st);
    Times(Major(st), |st.futs| * (200 + |st.workers|), MinorBound(st) + 1);
  }

  // Termination: without an overflow no run of useful steps and drops is longer than the bound.
  lemma RoomyIsBounded(r: Run)
    requires UsefulRun(r) && Init(r.states[0]) && Roomy(r, |r.actions|)
    ensures var st := r.states[0];
            |r.actions| <= StepBound(|st.futs|, |st.slots|, |st.workers|)
  {
    InitSound(r.states[0]);
    RunDecreases(r, |r.actions|);
    InitMeasure(r.states[0]);
  }

  lemma {:induction false} RunTasks(r: Run, ts: set<Task>, n: nat)
    requires ValidRun(r) && Sound(r.states[0]) && TasksIn(r.states[0], ts) && n <= |r.actions|
    requires forall m :: 0 <= m < |r.actions| ==> Admissible(r.actions[m], ts)
    ensures TasksIn(r.states[n], ts) && Roomy(r, n)
  {
    if n > 0 {
      RunTasks(r, ts, n - 1);
      RunSound(r, n - 1);
      hide Sound;
      var st, a := r.states[n - 1], r.actions[n - 1];
      assert Step(st, a, r.states[n]);
      TasksStay(st, a, ts);
      if Overflows(st, a) { Room(st.waiters, ts, st.futs[a.i].task); }
    }
  }

  // As long as no more tasks are in use than the list has room for, whichever future is polled by which task,
  // nothing overflows.  (Module BlockingLivelock gives the exact condition for one task per future.)
  lemma RunsAreBounded(r: Run, ts: set<Task>)
    requires UsefulRun(r) && Init(r.states[0]) && TasksIn(r.states[0], ts)
    requires forall m :: 0 <= m < |r.actions| ==> Admissible(r.actions[m], ts)
    ensures var st := r.states[0];
            |r.actions| <= StepBound(|st.futs|, |st.slots|, |st.workers|)
  {
    InitSound(r.states[0]);
    RunTasks(r, ts, |r.actions|);
    RoomyIsBounded(r);
  }

  // ---------------------------------------------------------------- work, with or without overflows

  // The action belongs to a poll that may come to nothing.
  predicate IdlePoll(st: State, a: Action) {
    a.Poll? || (a.FutStep? && Idling(st, a.i))
  }

  // How many of the first `n` actions get work done.
  function WorkDone(r: Run, n: nat): nat
    requires n <= |r.actions| <= |r.states|
  {
    if n == 0 then 0
    else WorkDone(r, n - 1) + if IdlePoll(r.states[n - 1], r.actions[n - 1]) then 0 else 1
  }

  lemma StepMajor(st: State, a: Action)
    requires Sound(st) && Enabled(st, a) && !Faults(st, a)
    ensures Major(Next(st, a)) + (if IdlePoll(st, a) then 0 else 1) <= Major(st)
  {
    hide FutFaults, WorkFaults, FutNext, WorkNext, FutOk, SlotOk, WorkOk, GlobalOk, FreeFrame, WaitersOk;
    hide Major, Distance, Polling, Idling;
    Frames(st, a);
    var st' := Next(st, a);
    match a
    case Poll(i, t) =>
      PollDistance(st, i, t);
      MajorOfFut(st, st', i, 0);
    case Drop(i) =>
      DropCloser(st, i);
      MajorOfFut(st, st', i, 1);
    case FutStep(i) =>
      FutMajor(st, i);
    case WorkStep(k, v, keep) =>
      WorkMajor(st, k, v, keep);
      MajorOfWork(st, st', k);
  }

  lemma PollDistance(st: State, i: nat, t: Task)
    requires i < |st.futs| && st.At(i).Parked?
    ensures Distance(PollStart(st, i, t).futs[i], |st.workers|) == Distance(st.futs[i], |st.workers|)
  {
  }

  lemma {:induction false} RunMajor(r: Run, n: nat)
    requires ValidRun(r) && Sound(r.states[0]) && n <= |r.actions|
    ensures Major(r.states[n]) + WorkDone(r, n) <= Major(r.states[0])
  {
    if n > 0 {
      RunMajor(r, n - 1);
      RunSound(r, n - 1);
      hide Sound, IdlePoll, Major;
      assert Step(r.states[n - 1], r.actions[n - 1], r.states[n]);
      StepMajor(r.states[n - 1], r.actions[n - 1]);
    }
  }

  // Whatever is polled when and by whichever task, only a bounded number of the steps of an execution is not
  // part of a fruitless poll: overflows of the list cost time, not progress.
  lemma WorkIsBounded(r: Run)
    requires Execution(r)
    ensures var st := r.states[0];
            WorkDone(r, |r.actions|) <= |st.futs| * (200 + |st.workers|)
  {
    InitSound(r.states[0]);
    RunMajor(r, |r.actions|);
    SumBound(Distances(r.states[0]), 200 + |r.states[0].workers|);
    SumBound(Works(r.states[0]), 0);
  }

  // When nothing useful is left to do, every future has returned its own closure's result or was dropped,
  // every closure a worker took has run to completion once, and no other closure ran.
  lemma QuiescentMeansDone(st: State, i: nat)
    requires Reachable(st) && !CanAct(st) && i < |st.futs|
    ensures Shape(st) && (st.At(i).Finished? || st.At(i).Gone?)
    ensures st.At(i).Finished? ==> st.lives[i].ran == Some(st.At(i).out) && st.At(i).out.closure == i
    ensures if st.futs[i].op.None? then st.lives[i].runs == 1 && st.lives[i].ran.Some? else st.lives[i].runs == 0
  {
    hide SlotOk, WorkOk;
    L.ReachableLives(st);
    if Pending(st, i) { Progress(st, i); }
    L.ExactlyOnce(st, i);
    assert L.LifeOk(st, i);
    if st.lives[i].taker.Some? && st.lives[i].ran.None? {
      ActorMoves(st, Wrk(st.lives[i].taker.value));
    }
  }
}
