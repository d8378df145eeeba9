/**
 Waiting for a GPIO pin (zephyr/src/device/gpio.rs): one future per pin, and any number of runs of the
 interrupt handler, interleaved step by step.  An update of the pin mask is one step.  Module GpioHandler
 has the handler's loop itself.
 */
module GpioWait {
  import opened Prelude

  type Task = nat

  // What the future of a pin is about to do in `poll`.
  datatype Pc =
    | Absent       // no future, or one that is finished
    | Early        // first has_fired
    | Registering  // wakers[pin].register
    | Masking      // pin_mask |= 1 << pin
    | Configuring  // enable the level interrupt
    | Late         // second has_fired
    | Parked       // returned Pending

  // `ready` counts the polls that returned Ready.
  datatype Pin = Pin(pc: Pc, task: Task, woken: bool, waker: Option<Task>, enabled: bool, mask: bool, fired: bool,
                     ready: nat)

  // What a run of the handler is about to do for the first of its pins.
  datatype Stage = Disabling | Unmasking | Firing | Waking

  datatype Handler = Handler(pins: seq<nat>, stage: Stage)

  datatype State = State(pins: seq<Pin>, handlers: seq<Handler>)

  datatype Action =
    | Poll(p: nat, task: Task)    // the executor polls; the first poll makes the future
    | Drop(p: nat)                // the parked future is dropped
    | FutStep(p: nat)
    | Interrupt(given: seq<nat>)  // the kernel calls the handler for pins whose mask bit is set
    | HandlerStep(h: nat, keep: bool) // `keep`: whether AtomicWaker::wake leaves the waker registered

  predicate Enabled(st: State, a: Action) {
    match a
    case Poll(p, _) => p < |st.pins| && (st.pins[p].pc.Absent? || st.pins[p].pc.Parked?)
    case Drop(p) => p < |st.pins| && st.pins[p].pc.Parked?
    case FutStep(p) => p < |st.pins| && !st.pins[p].pc.Absent? && !st.pins[p].pc.Parked?
    case Interrupt(given) => given != [] && forall p :: p in given ==> p < |st.pins| && st.pins[p].mask
    case HandlerStep(h, _) =>
      h < |st.handlers| && st.handlers[h].pins != [] && st.handlers[h].pins[0] < |st.pins|
  }

  function FutNext(x: Pin): Pin {
    match x.pc
    case Early =>
      if x.fired then x.(fired := false, pc := Absent, ready := x.ready + 1) else x.(pc := Registering)
    case Registering => x.(waker := Some(x.task), pc := Masking)
    case Masking => x.(mask := true, pc := Configuring)
    case Configuring => x.(enabled := true, pc := Late)
    case Late => if x.fired then x.(fired := false, pc := Absent, ready := x.ready + 1) else x.(pc := Parked)
    case _ => x
  }

  function Served(x: Pin, stage: Stage, keep: bool): Pin {
    match stage
    case Disabling => x.(enabled := false)
    case Unmasking => x.(mask := false)
    case Firing => x.(fired := true)
    case Waking =>
      x.(woken := x.woken || x.waker == Some(x.task), waker := if keep then x.waker else None)
  }

  function Onward(h: Handler): Handler
    requires h.pins != []
  {
    match h.stage
    case Disabling => h.(stage := Unmasking)
    case Unmasking => h.(stage := Firing)
    case Firing => h.(stage := Waking)
    case Waking => Handler(h.pins[1..], Disabling)
  }

  function Next(st: State, a: Action): (st': State)
    requires Enabled(st, a)
    ensures |st'.pins| == |st.pins|
  {
    match a
    case Poll(p, task) => st.(pins := st.pins[p := st.pins[p].(pc := Early, task := task, woken := false)])
    case Drop(p) => st.(pins := st.pins[p := st.pins[p].(pc := Absent)])
    case FutStep(p) => st.(pins := st.pins[p := FutNext(st.pins[p])])
    case Interrupt(given) => st.(handlers := st.handlers + [Handler(given, Disabling)])
    case HandlerStep(h, keep) =>
      var x := st.handlers[h];
      State(st.pins[x.pins[0] := Served(st.pins[x.pins[0]], x.stage, keep)], st.handlers[h := Onward(x)])
  }

  ghost predicate Init(st: State) {
    && (forall p :: 0 <= p < |st.pins| ==>
          var x := st.pins[p];
          x.pc.Absent? && x.waker.None? && !x.enabled && !x.mask && !x.fired && x.ready == 0)
    && st.handlers == []
  }

  datatype Run = Run(states: seq<State>, actions: seq<Action>)

  ghost predicate Step(st: State, a: Action, st': State) { Enabled(st, a) && st' == Next(st, a) }

  ghost predicate Execution(r: Run) {
    && |r.states| == |r.actions| + 1
    && Init(r.states[0])
    && forall n :: 0 <= n < |r.actions| ==> Step(r.states[n], r.actions[n], r.states[n + 1])
  }

  ghost predicate Reachable(st: State) {
    exists r: Run :: Execution(r) && r.states[|r.actions|] == st
  }

  // ---------------------------------------------------------------- the invariant

  // A run of the handler will still set `fired` for the pin.
  predicate WillFire(h: Handler, p: nat) {
    h.pins != [] && (p in h.pins[1..] || (p == h.pins[0] && !h.stage.Waking?))
  }

  // A run of the handler will still wake the pin's waker.
  predicate WillWake(h: Handler, p: nat) { p in h.pins }

  ghost predicate ToFire(hs: seq<Handler>, p: nat) {
    exists h :: 0 <= h < |hs| && WillFire(hs[h], p)
  }

  ghost predicate ToWake(hs: seq<Handler>, p: nat) {
    exists h :: 0 <= h < |hs| && WillWake(hs[h], p)
  }

  // From the registration on the waker is the task's own or the task has been woken; a pin that is not armed
  // any more has an event that is recorded or about to be, and a wake-up that has happened or is about to.
  ghost predicate PinOk(x: Pin, hs: seq<Handler>, p: nat) {
    && (x.pc.Masking? || x.pc.Configuring? || x.pc.Late? || x.pc.Parked? ==> x.woken || x.waker == Some(x.task))
    && (x.pc.Configuring? ==> x.mask || ((x.fired || ToFire(hs, p)) && (x.woken || ToWake(hs, p))))
    && (x.pc.Late? || x.pc.Parked? ==>
          (x.mask && x.enabled) || ((x.fired || ToFire(hs, p)) && (x.woken || ToWake(hs, p))))
  }

  ghost predicate Inv(st: State) {
    && (forall p :: 0 <= p < |st.pins| ==> PinOk(st.pins[p], st.handlers, p))
    && (forall h, p :: 0 <= h < |st.handlers| && p in st.handlers[h].pins ==> p < |st.pins|)
  }

  // A run stays on its way to firing a pin except by firing it, and to waking it except by waking it.
  lemma FireKeeps(hs: seq<Handler>, h: nat, p: nat)
    requires h < |hs| && hs[h].pins != [] && !(p == hs[h].pins[0] && hs[h].stage.Firing?)
    ensures ToFire(hs, p) ==> ToFire(hs[h := Onward(hs[h])], p)
  {
    if ToFire(hs, p) {
      var k :| 0 <= k < |hs| && WillFire(hs[k], p);
      var q := hs[h].pins[1..];
      assert q != [] ==> q == [q[0]] + q[1..];
      assert WillFire(hs[h := Onward(hs[h])][k], p);
    }
  }

  lemma WakeKeeps(hs: seq<Handler>, h: nat, p: nat)
    requires h < |hs| && hs[h].pins != [] && !(p == hs[h].pins[0] && hs[h].stage.Waking?)
    ensures ToWake(hs, p) ==> ToWake(hs[h := Onward(hs[h])], p)
  {
    if ToWake(hs, p) {
      var k :| 0 <= k < |hs| && WillWake(hs[k], p);
      assert hs[h].pins == [hs[h].pins[0]] + hs[h].pins[1..];
      assert WillWake(hs[h := Onward(hs[h])][k], p);
    }
  }

  lemma HandlerKeeps(st: State, h: nat, keep: bool, p: nat)
    requires Inv(st) && Enabled(st, HandlerStep(h, keep)) && p < |st.pins|
    ensures var st' := Next(st, HandlerStep(h, keep)); PinOk(st'.pins[p], st'.handlers, p)
  {
    var x, st' := st.handlers[h], Next(st, HandlerStep(h, keep));
    assert PinOk(st.pins[p], st.handlers, p);
    if p != x.pins[0] || !x.stage.Firing? { FireKeeps(st.handlers, h, p); }
    if p != x.pins[0] || !x.stage.Waking? { WakeKeeps(st.handlers, h, p); }
    if p == x.pins[0] && !x.stage.Waking? {
      assert WillWake(st'.handlers[h], p);
      assert x.stage.Firing? || WillFire(st'.handlers[h], p);
    }
    hide WillFire, WillWake;
  }

  // A new run of the handler takes nothing away.
  lemma InterruptKeeps(st: State, given: seq<nat>, p: nat)
    requires Inv(st) && Enabled(st, Interrupt(given)) && p < |st.pins|
    ensures PinOk(st.pins[p], st.handlers + [Handler(given, Disabling)], p)
  {
    var hs, hs' := st.handlers, st.handlers + [Handler(given, Disabling)];
    assert PinOk(st.pins[p], hs, p);
    if k :| 0 <= k < |hs| && WillFire(hs[k], p) { assert WillFire(hs'[k], p); }
    if k :| 0 <= k < |hs| && WillWake(hs[k], p) { assert WillWake(hs'[k], p); }
  }

  lemma Keeps(st: State, a: Action)
    requires Inv(st) && Enabled(st, a)
    ensures Inv(Next(st, a))
  {
    var st' := Next(st, a);
    forall p | 0 <= p < |st'.pins| ensures PinOk(st'.pins[p], st'.handlers, p) {
      if a.HandlerStep? {
        HandlerKeeps(st, a.h, a.keep, p);
      } else if a.Interrupt? {
        InterruptKeeps(st, a.given, p);
      } else {
        assert PinOk(st.pins[p], st.handlers, p);
      }
    }
    forall h, p | 0 <= h < |st'.handlers| && p in st'.handlers[h].pins ensures p < |st'.pins| {
      if h < |st.handlers| { assert p in st.handlers[h].pins; }
    }
  }

  lemma {:induction false} RunKeeps(r: Run, n: nat)
    requires Execution(r) && n <= |r.actions|
    ensures Inv(r.states[n])
  {
    if n > 0 {
      RunKeeps(r, n - 1);
      assert Step(r.states[n - 1], r.actions[n - 1], r.states[n]);
      Keeps(r.states[n - 1], r.actions[n - 1]);
    }
  }

  lemma ReachableOk(st: State)
    requires Reachable(st)
    ensures Inv(st)
  {
    var r: Run :| Execution(r) && r.states[|r.actions|] == st;
    RunKeeps(r, |r.actions|);
  }

  // ---------------------------------------------------------------- main results

  // The interrupt is on and the callback asks for the pin.
  predicate Armed(x: Pin) { x.enabled && x.mask }

  // A future that has returned Pending is not stuck: its task has been woken, or its waker is registered and
  // the pin is armed or a run of the handler is on its way to wake it.  If the pin is not armed, the event is
  // recorded or about to be.
  lemma NeverStuck(st: State, p: nat)
    requires Reachable(st) && p < |st.pins| && st.pins[p].pc.Parked?
    ensures var x := st.pins[p];
      && (x.woken || (x.waker == Some(x.task) && (Armed(x) || ToWake(st.handlers, p))))
      && (Armed(x) || x.fired || ToFire(st.handlers, p))
  {
    ReachableOk(st);
    assert PinOk(st.pins[p], st.handlers, p);
  }

  // Every run of the handler can go on until it has served all its pins.
  lemma HandlersRun(st: State, h: nat, keep: bool)
    requires Reachable(st) && h < |st.handlers| && st.handlers[h].pins != []
    ensures Enabled(st, HandlerStep(h, keep))
  {
    ReachableOk(st);
    assert st.handlers[h].pins[0] in st.handlers[h].pins;
  }

  // When no run of the handler is in progress, a future that has returned Pending either waits for an armed
  // pin with its own waker registered, or its task is awake and will find the event.
  lemma SettledWaits(st: State, p: nat)
    requires Reachable(st) && p < |st.pins| && st.pins[p].pc.Parked?
    requires forall h :: 0 <= h < |st.handlers| ==> st.handlers[h].pins == []
    ensures var x := st.pins[p];
      (Armed(x) && (x.woken || x.waker == Some(x.task))) || (x.fired && x.woken)
  {
    NeverStuck(st, p);
  }
}
