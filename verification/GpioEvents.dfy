/**
 Whether the answer of a GPIO wait belongs to an event of that wait.  A wait that is dropped leaves its pin armed,
 or its event recorded, and the next wait for the pin then takes the old event for its own.
 */
module GpioEvents {
  import opened Prelude
  import opened GpioWait

  // The kernel reports an event of the pin.
  predicate Event(a: Action, p: nat) { a.Interrupt? && p in a.given }

  // A run from `st` on that begins with a first poll of pin `p` and has a poll of the pin return Ready, without an
  // event of the pin.
  ghost predicate StaleAnswer(r: Run, st: State, p: nat) {
    && |r.states| == |r.actions| + 1 && r.states[0] == st && p < |st.pins|
    && r.actions != [] && r.actions[0].Poll? && r.actions[0].p == p
    && (forall n :: 0 <= n < |r.actions| ==> Step(r.states[n], r.actions[n], r.states[n + 1]))
    && (forall n :: 0 <= n < |r.actions| ==> !Event(r.actions[n], p))
    && p < |r.states[|r.actions|].pins| && r.states[|r.actions|].pins[p].ready > st.pins[p].ready
  }

  // An event of the pin is recorded or will be.
  ghost predicate Left(st: State, p: nat)
    requires p < |st.pins|
  {
    st.pins[p].fired || ToFire(st.handlers, p)
  }

  // ---------------------------------------------------------------- no event, no answer

  lemma NothingLeft(st: State, a: Action, p: nat)
    requires Enabled(st, a) && p < |st.pins| && !Left(st, p) && !Event(a, p)
    ensures !Left(Next(st, a), p) && Next(st, a).pins[p].ready == st.pins[p].ready
  {
    if a.HandlerStep? {
      var x := st.handlers[a.h];
      assert x.pins == [x.pins[0]] + x.pins[1..];
      assert !WillFire(x, p);
    }
  }

  lemma {:induction false} StaysEmpty(r: Run, st: State, p: nat, n: nat)
    requires |r.states| == |r.actions| + 1 && r.states[0] == st && p < |st.pins| && n <= |r.actions|
    requires forall m :: 0 <= m < |r.actions| ==> Step(r.states[m], r.actions[m], r.states[m + 1])
    requires forall m :: 0 <= m < |r.actions| ==> !Event(r.actions[m], p)
    requires !Left(st, p)
    ensures p < |r.states[n].pins| && !Left(r.states[n], p) && r.states[n].pins[p].ready == st.pins[p].ready
  {
    if n > 0 {
      StaysEmpty(r, st, p, n - 1);
      assert Step(r.states[n - 1], r.actions[n - 1], r.states[n]);
      NothingLeft(r.states[n - 1], r.actions[n - 1], p);
      hide Left, Enabled, Event;
    }
  }

  // ---------------------------------------------------------------- an old event is enough

  lemma Extend(states: seq<State>, actions: seq<Action>, a: Action)
    requires |states| == |actions| + 1 && Enabled(states[|actions|], a)
    requires forall m :: 0 <= m < |actions| ==> Step(states[m], actions[m], states[m + 1])
    ensures var states', actions' := states + [Next(states[|actions|], a)], actions + [a];
      forall m :: 0 <= m < |actions'| ==> Step(states'[m], actions'[m], states'[m + 1])
  {
    hide Enabled, Next;
    var states', actions' := states + [Next(states[|actions|], a)], actions + [a];
    forall m | 0 <= m < |actions'| ensures Step(states'[m], actions'[m], states'[m + 1]) {
      if m < |actions| { assert Step(states[m], actions[m], states[m + 1]); }
    }
  }

  // The run of the handler that will record the event goes on until it has.
  lemma {:induction false} Fires(r: Run, p: nat, h: nat) returns (r': Run)
    requires |r.states| == |r.actions| + 1
    requires forall m :: 0 <= m < |r.actions| ==> Step(r.states[m], r.actions[m], r.states[m + 1])
    requires forall m :: 0 <= m < |r.actions| ==> !Event(r.actions[m], p)
    requires var st := r.states[|r.actions|];
      p < |st.pins| && st.pins[p].pc.Early? && Inv(st) && h < |st.handlers| && WillFire(st.handlers[h], p)
    ensures |r'.states| == |r'.actions| + 1 && r.states <= r'.states && r.actions <= r'.actions
    ensures forall m :: 0 <= m < |r'.actions| ==> Step(r'.states[m], r'.actions[m], r'.states[m + 1])
    ensures forall m :: 0 <= m < |r'.actions| ==> !Event(r'.actions[m], p)
    ensures var st, st' := r.states[|r.actions|], r'.states[|r'.actions|];
      p < |st'.pins| && st'.pins[p].pc.Early? && st'.pins[p].fired && st'.pins[p].ready == st.pins[p].ready
    decreases HandlerLeft(r.states[|r.actions|].handlers[h])
  {
    var st := r.states[|r.actions|];
    var a := HandlerStep(h, false);
    assert st.handlers[h].pins[0] in st.handlers[h].pins;
    Extend(r.states, r.actions, a);
    r' := Run(r.states + [Next(st, a)], r.actions + [a]);
    Keeps(st, a);
    HandlerMoves(st, h, p);
    hide Inv, WillFire, HandlerLeft, Next, Step;
    if !Next(st, a).pins[p].fired {
      r' := Fires(r', p, h);
    }
  }

  // What a run of the handler has still to do.
  function HandlerLeft(h: Handler): nat {
    4 * |h.pins| + match h.stage case Disabling => 3 case Unmasking => 2 case Firing => 1 case Waking => 0
  }

  lemma HandlerMoves(st: State, h: nat, p: nat)
    requires Enabled(st, HandlerStep(h, false)) && p < |st.pins| && WillFire(st.handlers[h], p)
    ensures var st' := Next(st, HandlerStep(h, false));
      && HandlerLeft(st'.handlers[h]) < HandlerLeft(st.handlers[h])
      && st'.pins[p].pc == st.pins[p].pc && st'.pins[p].ready == st.pins[p].ready
      && (st'.pins[p].fired || WillFire(st'.handlers[h], p))
  {
    var x := st.handlers[h];
    assert x.pins == [x.pins[0]] + x.pins[1..];
    if x.stage.Waking? && x.pins[1..] != [] {
      assert x.pins[1..] == [x.pins[1]] + x.pins[2..] && x.pins[1..][1..] == x.pins[2..];
    }
  }

  lemma Answers(st: State, p: nat, task: Task) returns (r: Run)
    requires Inv(st) && p < |st.pins| && st.pins[p].pc.Absent? && Left(st, p)
    ensures StaleAnswer(r, st, p)
  {
    var first := Poll(p, task);
    r := Run([st, Next(st, first)], [first]);
    Keeps(st, first);
    if !st.pins[p].fired {
      var h :| 0 <= h < |st.handlers| && WillFire(st.handlers[h], p);
      r := Fires(r, p, h);
    }
    hide Inv, WillFire;
    var last := r.states[|r.actions|];
    Extend(r.states, r.actions, FutStep(p));
    r := Run(r.states + [Next(last, FutStep(p))], r.actions + [FutStep(p)]);
  }

  // Main result: where a wait for a pin can begin, some run from there on answers it without an event of the pin
  // after its first poll exactly when an event is already recorded then, or on its way to be.
  lemma StaleExactly(st: State, p: nat)
    requires Reachable(st) && p < |st.pins| && st.pins[p].pc.Absent?
    ensures (exists r :: StaleAnswer(r, st, p)) <==> Left(st, p)
  {
    ReachableOk(st);
    if r :| StaleAnswer(r, st, p) {
      if !Left(st, p) { StaysEmpty(r, st, p, |r.actions|); }
    }
    if Left(st, p) {
      var r := Answers(st, p, 0);
    }
  }

  // ---------------------------------------------------------------- a dropped wait

  function One(x: Pin, handlers: seq<Handler>): State { State([x], handlers) }

  // The states of a run: a wait parks, its event comes, and the wait is dropped before it sees the event.
  function Dropped(n: nat): State
    requires n <= 11
  {
    var pc: Pc :=
      if n <= 5 then [Absent, Early, Registering, Masking, Configuring, Late][n]
      else if n <= 10 then Parked else Absent;
    var handlers := if n < 7 then [] else
      [Handler([0], [Disabling, Unmasking, Firing, Waking, Waking][n - 7])];
    One(Pin(pc, 0, false, if n < 3 then None else Some(0), 5 <= n <= 7, 4 <= n <= 8, n >= 10, 0), handlers)
  }

  const DROPPED_ACTIONS: seq<Action> :=
    [Poll(0, 0), FutStep(0), FutStep(0), FutStep(0), FutStep(0), FutStep(0), Interrupt([0]),
     HandlerStep(0, true), HandlerStep(0, true), HandlerStep(0, true), Drop(0)]

  lemma DroppedStep(n: nat)
    requires n < 11
    ensures Step(Dropped(n), DROPPED_ACTIONS[n], Dropped(n + 1))
  {
    var st := Dropped(n);
    var a := DROPPED_ACTIONS[n];
    assert Enabled(st, a);
    assert Next(st, a).pins == Dropped(n + 1).pins;
    assert Next(st, a).handlers == Dropped(n + 1).handlers;
  }

  lemma {:induction false} DroppedReachable(n: nat)
    requires n <= 11
    ensures Reachable(Dropped(n))
  {
    if n == 0 {
      var r := Run([Dropped(0)], []);
      assert Execution(r) && r.states[|r.actions|] == Dropped(0);
    } else {
      DroppedReachable(n - 1);
      DroppedStep(n - 1);
      hide Step, Dropped, Init;
      var r: Run :| Execution(r) && r.states[|r.actions|] == Dropped(n - 1);
      var r' := Run(r.states + [Dropped(n)], r.actions + [DROPPED_ACTIONS[n - 1]]);
      assert forall m :: 0 <= m < |r.actions| ==> Step(r.states[m], r.actions[m], r.states[m + 1]);
      assert Execution(r') && r'.states[|r'.actions|] == Dropped(n);
    }
  }

  // After a dropped wait, the next wait for the pin can be answered at once, without an event of its own.
  lemma NextWaitIsStale() returns (st: State, r: Run)
    ensures Reachable(st) && StaleAnswer(r, st, 0) && st.pins[0].pc.Absent?
  {
    st := Dropped(11);
    DroppedReachable(11);
    ReachableOk(st);
    r := Answers(st, 0, 0);
  }
}
