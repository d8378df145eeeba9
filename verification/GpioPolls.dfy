/**
 Whose waker the interrupt handler wakes: the one that the latest poll of the pin's future was given.
 */
module GpioPolls {
  import opened Prelude
  import opened GpioWait

  // The waker of the latest poll of pin `p` among the actions.
  function LastPoll(actions: seq<Action>, p: nat): Option<Task> {
    if actions == [] then None
    else
      var a := actions[|actions| - 1];
      if a.Poll? && a.p == p then Some(a.task) else LastPoll(actions[..|actions| - 1], p)
  }

  // A poll notes its waker; nothing else changes what a pin has noted.
  lemma StepTask(st: State, a: Action, p: nat)
    requires Enabled(st, a) && p < |st.pins|
    ensures Next(st, a).pins[p].task == if a.Poll? && a.p == p then a.task else st.pins[p].task
  {
  }

  lemma {:induction false} TaskIsLast(r: Run, n: nat, p: nat)
    requires Execution(r) && n <= |r.actions| && p < |r.states[0].pins|
    ensures |r.states[n].pins| == |r.states[0].pins|
    ensures LastPoll(r.actions[..n], p).Some? ==> r.states[n].pins[p].task == LastPoll(r.actions[..n], p).value
  {
    if n > 0 {
      TaskIsLast(r, n - 1, p);
      assert r.actions[..n][..n - 1] == r.actions[..n - 1];
      assert Step(r.states[n - 1], r.actions[n - 1], r.states[n]);
      StepTask(r.states[n - 1], r.actions[n - 1], p);
      hide Execution, Next, Enabled;
    }
  }

  // The waker that a step wakes for pin `p`.
  function WokenBy(st: State, a: Action, p: nat): Option<Task> {
    if a.HandlerStep? && a.h < |st.handlers| && p < |st.pins| && st.handlers[a.h].stage.Waking?
       && st.handlers[a.h].pins != [] && st.handlers[a.h].pins[0] == p
    then st.pins[p].waker else None
  }

  // The waker of a pin's latest poll is woken after that poll and before state `n`.
  ghost predicate WokenSince(r: Run, n: nat, p: nat, t: Task)
    requires n <= |r.actions| < |r.states|
  {
    exists m :: 0 <= m < n && WokenBy(r.states[m], r.actions[m], p) == Some(t) && NoPoll(r.actions[m..n], p)
  }

  ghost predicate NoPoll(actions: seq<Action>, p: nat) {
    forall k :: 0 <= k < |actions| ==> !(actions[k].Poll? && actions[k].p == p)
  }

  lemma StepWakes(st: State, a: Action, p: nat)
    requires Enabled(st, a) && p < |st.pins|
    ensures Next(st, a).pins[p].woken ==
      if a.Poll? && a.p == p then false else st.pins[p].woken || WokenBy(st, a, p) == Some(st.pins[p].task)
  {
  }

  // A poll answers Ready exactly when one of its two checks finds an event recorded, and takes it; it returns Pending
  // only when the second has found none.
  lemma StepAnswers(st: State, p: nat)
    requires Enabled(st, FutStep(p))
    ensures var x, y := st.pins[p], Next(st, FutStep(p)).pins[p];
      && (y.ready == x.ready + 1 <==> x.fired && (x.pc.Early? || x.pc.Late?))
      && (y.ready == x.ready || (y.ready == x.ready + 1 && !y.fired && y.pc.Absent?))
      && (y.pc.Parked? <==> x.pc.Late? && !x.fired)
  {
  }

  // A future is awake only when the waker of its latest poll has been woken since.
  lemma {:induction false} AwakeIsWoken(r: Run, n: nat, p: nat, t: Task)
    requires Execution(r) && n <= |r.actions| && p < |r.states[0].pins|
    requires LastPoll(r.actions[..n], p) == Some(t) && p < |r.states[n].pins| && r.states[n].pins[p].woken
    ensures WokenSince(r, n, p, t)
  {
    assert n > 0;
    var st, a := r.states[n - 1], r.actions[n - 1];
    assert Step(st, a, r.states[n]);
    assert r.actions[..n][..n - 1] == r.actions[..n - 1];
    TaskIsLast(r, n - 1, p);
    StepWakes(st, a, p);
    hide Next, Enabled, WokenBy, Step, Execution;
    if WokenBy(st, a, p) == Some(t) {
      assert NoPoll(r.actions[n - 1..n], p);
    } else {
      AwakeIsWoken(r, n - 1, p, t);
      SinceOn(r, n, p, t);
    }
  }

  lemma SinceOn(r: Run, n: nat, p: nat, t: Task)
    requires 0 < n <= |r.actions| < |r.states| && !(r.actions[n - 1].Poll? && r.actions[n - 1].p == p)
    requires WokenSince(r, n - 1, p, t)
    ensures WokenSince(r, n, p, t)
  {
    hide WokenBy;
    var m :| 0 <= m < n - 1 && WokenBy(r.states[m], r.actions[m], p) == Some(t) && NoPoll(r.actions[m..n - 1], p);
    assert r.actions[m..n] == r.actions[m..n - 1] + [r.actions[n - 1]];
    assert NoPoll(r.actions[m..n], p);
  }

  // A future that has returned Pending to a poll with waker `t`: `t` has been woken since, or it is the pin's waker
  // and the pin is armed or a run of the handler is on its way to wake it.
  lemma ParkedCountsOnLast(r: Run, n: nat, p: nat, t: Task)
    requires Execution(r) && n <= |r.actions| && p < |r.states[n].pins|
    requires LastPoll(r.actions[..n], p) == Some(t) && r.states[n].pins[p].pc.Parked?
    ensures var x := r.states[n].pins[p];
      || WokenSince(r, n, p, t)
      || (x.waker == Some(t) && (Armed(x) || ToWake(r.states[n].handlers, p)))
  {
    SameCount(r, n);
    TaskIsLast(r, n, p);
    RunKeeps(r, n);
    assert PinOk(r.states[n].pins[p], r.states[n].handlers, p);
    if r.states[n].pins[p].woken { AwakeIsWoken(r, n, p, t); }
  }

  lemma {:induction false} SameCount(r: Run, n: nat)
    requires Execution(r) && n <= |r.actions|
    ensures |r.states[n].pins| == |r.states[0].pins|
  {
    if n > 0 {
      SameCount(r, n - 1);
      assert Step(r.states[n - 1], r.actions[n - 1], r.states[n]);
      hide Enabled;
    }
  }

  // The wake that comes to such a pin wakes the waker of the latest poll.
  lemma WakeReachesLast(r: Run, n: nat, p: nat, t: Task, h: nat, keep: bool)
    requires Execution(r) && n <= |r.actions| && p < |r.states[n].pins|
    requires LastPoll(r.actions[..n], p) == Some(t) && r.states[n].pins[p].pc.Parked? && !r.states[n].pins[p].woken
    requires var st := r.states[n];
      h < |st.handlers| && st.handlers[h].stage.Waking? && st.handlers[h].pins != [] && st.handlers[h].pins[0] == p
    ensures var st, a := r.states[n], HandlerStep(h, keep);
      Enabled(st, a) && WokenBy(st, a, p) == Some(t) && Next(st, a).pins[p].woken
  {
    SameCount(r, n);
    TaskIsLast(r, n, p);
    RunKeeps(r, n);
    assert PinOk(r.states[n].pins[p], r.states[n].handlers, p);
    StepWakes(r.states[n], HandlerStep(h, keep), p);
  }

  // ---------------------------------------------------------------- undisturbed calls

  function Onwards(st: State, a: Action, k: nat): (st': State)
    decreases k
  {
    if k > 0 && Enabled(st, a) then Onwards(Next(st, a), a, k - 1) else st
  }

  // A poll that nobody disturbs answers Ready exactly when an event of the pin is recorded, and takes it; otherwise
  // it leaves the pin armed with the waker it was given.
  lemma UndisturbedPoll(st: State, p: nat, t: Task)
    requires Enabled(st, Poll(p, t))
    ensures var x, y := st.pins[p], Onwards(Next(st, Poll(p, t)), FutStep(p), 5).pins;
      && |y| == |st.pins| && (forall q :: 0 <= q < |y| && q != p ==> y[q] == st.pins[q])
      && y[p] == if x.fired then Pin(Absent, t, false, x.waker, x.enabled, x.mask, false, x.ready + 1)
                 else Pin(Parked, t, false, Some(t), true, true, false, x.ready)
  {
    var s1 := Next(st, Poll(p, t));
    var a := FutStep(p);
    if !st.pins[p].fired {
      var s2 := Next(s1, a);
      var s3 := Next(s2, a);
      var s4 := Next(s3, a);
      var s5 := Next(s4, a);
      var s6 := Next(s5, a);
      assert Onwards(s5, a, 1) == Onwards(s6, a, 0) == s6;
      assert Onwards(s4, a, 2) == Onwards(s5, a, 1);
      assert Onwards(s3, a, 3) == Onwards(s4, a, 2);
      assert Onwards(s2, a, 4) == Onwards(s3, a, 3);
    }
  }

  // A run of the handler that nobody disturbs switches off the interrupt of its first pin and the request for its
  // callback, records the event, wakes the pin's waker and goes on to the other pins.
  lemma UndisturbedHandler(st: State, h: nat, keep: bool)
    requires Enabled(st, HandlerStep(h, keep)) && st.handlers[h].stage.Disabling?
    ensures var st', p := Onwards(st, HandlerStep(h, keep), 3), st.handlers[h].pins[0];
      var x := st.pins[p];
      && Enabled(st', HandlerStep(h, keep)) && WokenBy(st', HandlerStep(h, keep), p) == x.waker
      && var st'' := Next(st', HandlerStep(h, keep));
      && st''.handlers == st.handlers[h := Handler(st.handlers[h].pins[1..], Disabling)]
      && |st''.pins| == |st.pins| && (forall q :: 0 <= q < |st.pins| && q != p ==> st''.pins[q] == st.pins[q])
      && st''.pins[p] == Pin(x.pc, x.task, x.woken || x.waker == Some(x.task), if keep then x.waker else None,
                             false, false, true, x.ready)
  {
    var a := HandlerStep(h, keep);
    var s1 := Next(st, a);
    var s2 := Next(s1, a);
    var s3 := Next(s2, a);
    assert Onwards(s2, a, 1) == Onwards(s3, a, 0) == s3;
    assert Onwards(s1, a, 2) == Onwards(s2, a, 1);
  }
}
