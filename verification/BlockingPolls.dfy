/**
 Whose waker is woken: the waker a future counts on is the one its latest poll was given, whatever its earlier
 polls were given and whatever happened to the slot meanwhile.
 */
module BlockingPolls {
  import opened Prelude
  import opened BlockingPool
  import opened BlockingInvariant
  import opened BlockingRuns
  import T = BlockingTermination

  // The waker of the latest poll of future `i` among the actions.
  function LastPoll(actions: seq<Action>, i: nat): Option<Task> {
    if actions == [] then None
    else
      var a := actions[|actions| - 1];
      if a.Poll? && a.i == i then Some(a.t) else LastPoll(actions[..|actions| - 1], i)
  }

  // A poll notes its waker; nothing else changes what a future has noted.
  lemma StepTask(st: State, a: Action, i: nat)
    requires Inv(st) && StartOk(st) && Enabled(st, a) && !Faults(st, a) && i < |st.futs|
    ensures Next(st, a).futs[i].task == if a.Poll? && a.i == i then a.t else st.futs[i].task
  {
    hide FutFaults, WorkFaults, FutNext, WorkNext, FutOk, SlotOk, WorkOk, GlobalOk, FreeFrame;
    Frames(st, a);
    if a == FutStep(i) { T.FutTasks(st, i); }
  }

  lemma {:induction false} TaskIsLast(r: Run, n: nat, i: nat)
    requires Execution(r) && n <= |r.actions| && i < |r.states[0].futs|
    ensures Sound(r.states[n]) && |r.states[n].futs| == |r.states[0].futs|
    ensures LastPoll(r.actions[..n], i).Some? ==> r.states[n].futs[i].task == LastPoll(r.actions[..n], i).value
  {
    InitSound(r.states[0]);
    RunSound(r, n);
    hide Inv, StartOk, WaitersOk, Init, Faults, Next;
    if n > 0 {
      TaskIsLast(r, n - 1, i);
      assert r.actions[..n][..n - 1] == r.actions[..n - 1];
      assert Step(r.states[n - 1], r.actions[n - 1], r.states[n]);
      StepTask(r.states[n - 1], r.actions[n - 1], i);
    }
  }

  // A future that has parked without a slot: it is awake, or the waker of its latest poll is on the list.
  // With a slot: it is awake, or the slot's waker is that of its latest poll, and if the slot is Done a worker has
  // still to wake it.
  lemma ParkedCountsOnLast(r: Run, n: nat, i: nat, t: Task)
    requires Execution(r) && n <= |r.actions| && i < |r.states[n].futs|
    requires LastPoll(r.actions[..n], i) == Some(t) && r.states[n].At(i).Parked? && !r.states[n].futs[i].woken
    ensures var st := r.states[n];
      match st.futs[i].slot
      case None => t in st.waiters
      case Some(s) =>
        && s < |st.slots| && st.slots[s].waker == Some(t)
        && (st.slots[s].state == Done ==> exists k: nat :: AboutToWake(st, k, s))
  {
    SameCount(r, n);
    TaskIsLast(r, n, i);
    ParkedAsNoted(r.states[n], i);
  }

  lemma {:induction false} SameCount(r: Run, n: nat)
    requires Execution(r) && n <= |r.actions|
    ensures |r.states[n].futs| == |r.states[0].futs|
  {
    if n > 0 {
      SameCount(r, n - 1);
      hide Enabled, Faults, Next;
      assert Step(r.states[n - 1], r.actions[n - 1], r.states[n]);
    }
  }

  lemma ParkedAsNoted(st: State, i: nat)
    requires Inv(st) && i < |st.futs| && st.At(i).Parked? && !st.futs[i].woken
    ensures match st.futs[i].slot
      case None => st.futs[i].task in st.waiters
      case Some(s) =>
        && s < |st.slots| && st.slots[s].waker == Some(st.futs[i].task)
        && (st.slots[s].state == Done ==> exists k: nat :: AboutToWake(st, k, s))
  {
    assert FutOk(st, i);
    if st.futs[i].slot.Some? { assert SlotOk(st, st.futs[i].slot.value); }
  }

  // The wakers a step wakes.
  function WokenBy(st: State, a: Action): set<Task> {
    match a
    case FutStep(i) =>
      if i < |st.futs| && st.At(i).RelWake? then st.waiters
      else if T.Overflows(st, a) then st.waiters
      else {}
    case WorkStep(k, _, _) =>
      if k < |st.workers| && st.workers[k].WaitersWake? then st.waiters
      else if k < |st.workers| && st.workers[k].Wake? && st.workers[k].s < |st.slots| &&
              st.slots[st.workers[k].s].waker.Some? then {st.slots[st.workers[k].s].waker.value}
      else {}
    case _ => {}
  }

  // A future becomes awake just when the waker it has noted is woken.
  lemma StepWakes(st: State, a: Action, i: nat)
    requires Shape(st) && Enabled(st, a) && !Faults(st, a) && i < |st.futs|
    ensures Next(st, a).futs[i].woken ==
      if a.Poll? && a.i == i then false else st.futs[i].woken || st.futs[i].task in WokenBy(st, a)
  {
    match a
    case Poll(_, _) =>
    case Drop(_) =>
    case FutStep(j) => FutWakes(st, j, i);
    case WorkStep(k, v, keep) => WorkWakes(st, k, v, keep, i);
  }

  lemma FutWakes(st: State, j: nat, i: nat)
    requires Shape(st) && FutReady(st, j) && !FutFaults(st, j) && i < |st.futs|
    ensures FutNext(st, j).futs[i].woken == (st.futs[i].woken || st.futs[i].task in WokenBy(st, FutStep(j)))
  {
    if Arriving(st.At(j)) { FutArrivingWakes(st, j, i); }
  }

  lemma FutArrivingWakes(st: State, j: nat, i: nat)
    requires Shape(st) && FutReady(st, j) && !FutFaults(st, j) && i < |st.futs| && Arriving(st.At(j))
    ensures FutNext(st, j).futs[i].woken == (st.futs[i].woken || st.futs[i].task in WokenBy(st, FutStep(j)))
  {
  }

  lemma WorkWakes(st: State, k: nat, v: int, keep: bool, i: nat)
    requires Shape(st) && WorkReady(st, k) && !WorkFaults(st, k) && i < |st.futs|
    ensures WorkNext(st, k, v, keep).futs[i].woken ==
      (st.futs[i].woken || st.futs[i].task in WokenBy(st, WorkStep(k, v, keep)))
  {
  }

  // The wake that is still to come for a parked future wakes the waker of the future's latest poll, and the future
  // is awake then.
  lemma WakeReachesLast(r: Run, n: nat, i: nat, t: Task, k: nat, v: int, keep: bool)
    requires Execution(r) && n <= |r.actions| && i < |r.states[n].futs|
    requires LastPoll(r.actions[..n], i) == Some(t) && r.states[n].At(i).Parked? && !r.states[n].futs[i].woken
    requires var st := r.states[n];
      st.futs[i].slot.Some? && WorkReady(st, k) && st.workers[k] == Wake(st.futs[i].slot.value)
    ensures var st, a := r.states[n], WorkStep(k, v, keep);
      && WokenBy(st, a) == {t} && Shape(st) && !Faults(st, a) && i < |Next(st, a).futs| && Next(st, a).futs[i].woken
  {
    ParkedCountsOnLast(r, n, i, t);
    SameCount(r, n);
    TaskIsLast(r, n, i);
    hide Inv, StartOk, WaitersOk, Execution, Next, Faults, WorkFaults;
    var st := r.states[n];
    assert Enabled(st, WorkStep(k, v, keep));
    NoFault(st, WorkStep(k, v, keep));
    ShapeOf(st);
    StepWakes(st, WorkStep(k, v, keep), i);
  }

  lemma ShapeOf(st: State)
    requires Sound(st)
    ensures Shape(st)
  {
  }
}
