/**
 The reference counter of a channel (zephyr/src/sync/channel/counter.rs): any number of threads clone, use
 and release senders and receivers, one atomic operation per step, and the last release of the two sides
 frees the box.  The disconnect closures are taken to return.
 */
module ChannelCounter {
  import opened Prelude

  datatype Side = Senders | Receivers

  // What a thread is about to do with a handle it has.
  datatype Pc =
    | Idle
    | Acquiring(side: Side)      // fetch_add(1)
    | Releasing(side: Side)      // fetch_sub(1)
    | Disconnecting(side: Side)  // calls disconnect
    | Swapping(side: Side)       // destroy.swap(true)
    | Dropping                   // frees the box

  // How many handles of each side a thread owns, one of which it may be working on.
  datatype Thread = Thread(pc: Pc, senders: nat, receivers: nat)
  {
    function Owns(side: Side): nat { if side == Senders then senders else receivers }

    function Plus(side: Side): Thread {
      if side == Senders then this.(senders := senders + 1) else this.(receivers := receivers + 1)
    }

    function Minus(side: Side): Thread
      requires Owns(side) > 0
    {
      if side == Senders then this.(senders := senders - 1) else this.(receivers := receivers - 1)
    }
  }

  // Bookkeeping: who is ending a side, and how often its disconnect closure was called.
  datatype Stage = Active | Telling(t: nat) | Told(t: nat) | Gone

  datatype Log = Log(stage: Stage, disconnects: nat)

  // `frees` counts the times the box was freed, `dropper` is the thread about to free it.
  datatype State = State(threads: seq<Thread>, senders: nat, receivers: nat, destroy: bool,
                         sendLog: Log, recvLog: Log, dropper: Option<nat>, frees: nat)
  {
    function Count(side: Side): nat { if side == Senders then senders else receivers }

    function SetCount(side: Side, n: nat): State {
      if side == Senders then this.(senders := n) else this.(receivers := n)
    }

    function LogOf(side: Side): Log { if side == Senders then sendLog else recvLog }

    function SetLog(side: Side, l: Log): State {
      if side == Senders then this.(sendLog := l) else this.(recvLog := l)
    }

    function Put(t: nat, x: Thread): State
      requires t < |threads|
    {
      this.(threads := threads[t := x])
    }
  }

  datatype Action =
    | Begin(t: nat, pc: Pc)                 // clone or drop a handle the thread owns
    | Go(t: nat)
    | Give(t: nat, u: nat, side: Side)      // a handle moves to another thread

  predicate Enabled(st: State, a: Action) {
    && a.t < |st.threads|
    && var x := st.threads[a.t];
       match a
       case Begin(_, pc) => x.pc.Idle? && (pc.Acquiring? || pc.Releasing?) && x.Owns(pc.side) > 0
       case Go(_) => !x.pc.Idle?
       case Give(_, u, side) => x.pc.Idle? && u < |st.threads| && u != a.t && x.Owns(side) > 0
  }

  // A step that touches the box after it was freed, or counts below zero.
  predicate Faults(st: State, a: Action)
    requires Enabled(st, a)
  {
    a.Go? && (st.frees > 0 || (st.threads[a.t].pc.Releasing? && st.Count(st.threads[a.t].pc.side) == 0))
  }

  function Next(st: State, a: Action): (st': State)
    requires Enabled(st, a) && !Faults(st, a)
    ensures |st'.threads| == |st.threads|
    ensures !a.Give? ==> st'.threads == st.threads[a.t := st'.threads[a.t]]
  {
    var x := st.threads[a.t];
    match a
    case Begin(t, pc) =>
      // the handle being dropped is no longer the thread's to use
      st.Put(t, (if pc.Releasing? then x.Minus(pc.side) else x).(pc := pc))
    case Give(t, u, side) => st.Put(t, x.Minus(side)).Put(u, st.threads[u].Plus(side))
    case Go(t) =>
      match x.pc
      case Acquiring(side) => st.Put(t, x.Plus(side).(pc := Idle)).SetCount(side, st.Count(side) + 1)
      case Releasing(side) =>
        var st1 := st.SetCount(side, st.Count(side) - 1);
        if st.Count(side) == 1 then
          st1.Put(t, x.(pc := Disconnecting(side))).SetLog(side, st.LogOf(side).(stage := Telling(t)))
        else st1.Put(t, x.(pc := Idle))
      case Disconnecting(side) =>
        st.Put(t, x.(pc := Swapping(side))).SetLog(side, Log(Told(t), st.LogOf(side).disconnects + 1))
      case Swapping(side) =>
        var st1 := st.(destroy := true).SetLog(side, st.LogOf(side).(stage := Gone));
        if st.destroy then st1.(dropper := Some(t)).Put(t, x.(pc := Dropping)) else st1.Put(t, x.(pc := Idle))
      case Dropping => st.(frees := st.frees + 1, dropper := None).Put(t, x.(pc := Idle))
  }

  // One sender and one receiver, owned by some thread.
  ghost predicate Init(st: State) {
    && st.senders == 1 && st.receivers == 1 && !st.destroy && st.frees == 0 && st.dropper.None?
    && st.sendLog == st.recvLog == Log(Active, 0)
    && |st.threads| > 0 && st.threads[0] == Thread(Idle, 1, 1)
    && forall t :: 1 <= t < |st.threads| ==> st.threads[t] == Thread(Idle, 0, 0)
  }

  datatype Run = Run(states: seq<State>, actions: seq<Action>)

  ghost predicate Step(st: State, a: Action, st': State) {
    Enabled(st, a) && !Faults(st, a) && st' == Next(st, a)
  }

  ghost predicate Execution(r: Run) {
    && |r.states| == |r.actions| + 1
    && Init(r.states[0])
    && forall n :: 0 <= n < |r.actions| ==> Step(r.states[n], r.actions[n], r.states[n + 1])
  }

  ghost predicate Reachable(st: State) {
    exists r: Run :: Execution(r) && r.states[|r.actions|] == st
  }

  // ---------------------------------------------------------------- the invariant

  // Handles of a side that still count: owned, or about to be released.
  function Live(x: Thread, side: Side): nat {
    x.Owns(side) + if x.pc == Releasing(side) then 1 else 0
  }

  function Lives(threads: seq<Thread>, side: Side): seq<nat> {
    seq(|threads|, t requires 0 <= t < |threads| => Live(threads[t], side))
  }

  ghost predicate ThreadOk(st: State, t: nat)
    requires t < |st.threads|
  {
    var x := st.threads[t];
    && (x.pc.Acquiring? ==> x.Owns(x.pc.side) > 0)
    && (forall side :: x.pc == Disconnecting(side) <==> st.LogOf(side).stage == Telling(t))
    && (forall side :: x.pc == Swapping(side) <==> st.LogOf(side).stage == Told(t))
    && (x.pc.Dropping? <==> st.dropper == Some(t))
  }

  ghost predicate SideOk(st: State, side: Side) {
    var l := st.LogOf(side);
    && st.Count(side) == Sum(Lives(st.threads, side))
    && (l.stage.Active? <==> st.Count(side) > 0)
    && l.disconnects == (if l.stage.Active? || l.stage.Telling? then 0 else 1)
    && (l.stage.Telling? || l.stage.Told? ==> l.stage.t < |st.threads|)
  }

  ghost predicate BoxOk(st: State) {
    && st.destroy == (st.sendLog.stage.Gone? || st.recvLog.stage.Gone?)
    && (st.dropper.Some? ==> st.dropper.value < |st.threads|)
    && (st.frees + if st.dropper.Some? then 1 else 0)
       == (if st.sendLog.stage.Gone? && st.recvLog.stage.Gone? then 1 else 0)
  }

  ghost predicate Inv(st: State) {
    && (forall t :: 0 <= t < |st.threads| ==> ThreadOk(st, t))
    && SideOk(st, Senders) && SideOk(st, Receivers)
    && BoxOk(st)
  }

  lemma {:induction false} SumAtLeast(s: seq<nat>, i: nat)
    requires i < |s|
    ensures Sum(s) >= s[i]
  {
    if i > 0 { SumAtLeast(s[1..], i - 1); }
  }

  lemma {:induction false} SumZero(s: seq<nat>)
    requires forall i :: 0 <= i < |s| ==> s[i] == 0
    ensures Sum(s) == 0
  {
    if s != [] { SumZero(s[1..]); }
  }

  // A thread with a live handle, or still ending a side, has the box.
  lemma NoFault(st: State, a: Action)
    requires Inv(st) && Enabled(st, a)
    ensures !Faults(st, a)
  {
    var x := st.threads[a.t];
    assert ThreadOk(st, a.t);
    if a.Go? && (x.pc.Acquiring? || x.pc.Releasing?) {
      var side := x.pc.side;
      SumAtLeast(Lives(st.threads, side), a.t);
      assert SideOk(st, side);
    }
    if a.Go? && (x.pc.Disconnecting? || x.pc.Swapping?) {
      assert SideOk(st, x.pc.side);
    }
  }

  // Only an acquire and a release change what is counted.
  lemma LivesMove(st: State, a: Action, side: Side)
    requires Enabled(st, a) && !Faults(st, a) && !a.Give?
    requires st.Count(side) == Sum(Lives(st.threads, side))
    ensures Sum(Lives(Next(st, a).threads, side)) == Next(st, a).Count(side)
  {
    LiveMoves(st, a, side);
    hide Next, Enabled, Faults, Live, Sum;
    SumChange(Lives(st.threads, side), Lives(Next(st, a).threads, side), a.t);
  }

  lemma LiveMoves(st: State, a: Action, side: Side)
    requires Enabled(st, a) && !Faults(st, a) && !a.Give?
    ensures Live(Next(st, a).threads[a.t], side) + st.Count(side)
         == Live(st.threads[a.t], side) + Next(st, a).Count(side)
  {
  }

  lemma LivesGiven(st: State, a: Action, side: Side)
    requires Enabled(st, a) && a.Give?
    ensures Sum(Lives(Next(st, a).threads, side)) == Sum(Lives(st.threads, side))
  {
    var l, l' := Lives(st.threads, side), Lives(Next(st, a).threads, side);
    var m := l[a.t := l'[a.t]];
    SumChange(l, m, a.t);
    SumChange(m, l', a.u);
  }

  lemma ThreadKeeps(st: State, a: Action, t: nat)
    requires Enabled(st, a) && !Faults(st, a) && t < |st.threads|
    requires ThreadOk(st, a.t) && ThreadOk(st, t) && (a.Give? ==> ThreadOk(st, a.u))
    requires forall side :: st.LogOf(side).stage.Active? <==> st.Count(side) > 0
    requires BoxOk(st)
    ensures ThreadOk(Next(st, a), t)
  {
    if a.Go? {
      StepKeeps(st, a, t);
    } else {
      forall side ensures Next(st, a).LogOf(side) == st.LogOf(side) {}
    }
  }

  lemma StepKeeps(st: State, a: Action, t: nat)
    requires Enabled(st, a) && !Faults(st, a) && t < |st.threads| && a.Go?
    requires ThreadOk(st, a.t) && ThreadOk(st, t)
    requires forall side :: st.LogOf(side).stage.Active? <==> st.Count(side) > 0
    requires BoxOk(st)
    ensures ThreadOk(Next(st, a), t)
  {
    var st' := Next(st, a);
    forall side
      ensures st'.threads[t].pc == Disconnecting(side) <==> st'.LogOf(side).stage == Telling(t)
      ensures st'.threads[t].pc == Swapping(side) <==> st'.LogOf(side).stage == Told(t)
    {
      assert st.threads[t].pc == Disconnecting(side) <==> st.LogOf(side).stage == Telling(t);
      assert st.threads[t].pc == Swapping(side) <==> st.LogOf(side).stage == Told(t);
    }
  }

  lemma SideKeeps(st: State, a: Action, side: Side)
    requires Enabled(st, a) && !Faults(st, a) && ThreadOk(st, a.t) && SideOk(st, side)
    ensures SideOk(Next(st, a), side)
  {
    if a.Give? {
      LivesGiven(st, a, side);
    } else {
      LivesMove(st, a, side);
    }
    if a.Go? && st.threads[a.t].pc == Acquiring(side) {
      SumAtLeast(Lives(st.threads, side), a.t);
    }
    hide Lives, Live, Sum;
  }

  lemma BoxKeeps(st: State, a: Action)
    requires Enabled(st, a) && !Faults(st, a)
    requires ThreadOk(st, a.t) && SideOk(st, Senders) && SideOk(st, Receivers) && BoxOk(st)
    ensures BoxOk(Next(st, a))
  {
    hide Lives, Sum;
  }

  lemma Keeps(st: State, a: Action)
    requires Inv(st) && Enabled(st, a) && !Faults(st, a)
    ensures Inv(Next(st, a))
  {
    assert ThreadOk(st, a.t) && (a.Give? ==> ThreadOk(st, a.u));
    forall side ensures st.LogOf(side).stage.Active? <==> st.Count(side) > 0 { assert SideOk(st, side); }
    forall t | 0 <= t < |st.threads| ensures ThreadOk(Next(st, a), t) { ThreadKeeps(st, a, t); }
    SideKeeps(st, a, Senders);
    SideKeeps(st, a, Receivers);
    BoxKeeps(st, a);
    hide ThreadOk, SideOk, BoxOk;
  }

  lemma InitOk(st: State)
    requires Init(st)
    ensures Inv(st)
  {
    forall side ensures Sum(Lives(st.threads, side)) == 1 {
      SumZero(Lives(st.threads, side)[1..]);
    }
  }

  lemma {:induction false} RunKeeps(r: Run, n: nat)
    requires Execution(r) && n <= |r.actions|
    ensures Inv(r.states[n])
  {
    if n == 0 {
      InitOk(r.states[0]);
    } else {
      RunKeeps(r, n - 1);
      assert Step(r.states[n - 1], r.actions[n - 1], r.states[n]);
      Keeps(r.states[n - 1], r.actions[n - 1]);
    }
  }

  lemma ReachableOk(st: State)
    requires Reachable(st)
    ensures Inv(st)
  {
    var r: Run :| Execution(r) && r.states[|r.actions|] == st;
    RunKeeps(r, |r.actions|);
  }

  // ---------------------------------------------------------------- main results

  // No thread touches the box after it was freed, and no count goes below zero.
  lemma BoxIsThere(st: State, a: Action)
    requires Reachable(st) && Enabled(st, a)
    ensures !Faults(st, a)
  {
    ReachableOk(st);
    NoFault(st, a);
  }

  // Each side disconnects at most once, and only when no handle of that side is left; the box is freed at
  // most once, after both sides have disconnected.
  lemma AtMostOnce(st: State)
    requires Reachable(st)
    ensures st.sendLog.disconnects <= 1 && st.recvLog.disconnects <= 1 && st.frees <= 1
    ensures st.sendLog.disconnects == 1 ==> st.senders == 0
    ensures st.recvLog.disconnects == 1 ==> st.receivers == 0
    ensures st.frees == 1 ==>
      st.senders == 0 && st.receivers == 0 && st.sendLog.disconnects == 1 && st.recvLog.disconnects == 1
  {
    ReachableOk(st);
  }

  // Once every thread is done and has no handle left, the box has been freed.
  lemma FreedInTheEnd(st: State)
    requires Reachable(st)
    requires forall t :: 0 <= t < |st.threads| ==> st.threads[t] == Thread(Idle, 0, 0)
    ensures st.frees == 1 && st.sendLog.disconnects == 1 && st.recvLog.disconnects == 1
  {
    ReachableOk(st);
    SumZero(Lives(st.threads, Senders));
    SumZero(Lives(st.threads, Receivers));
    forall side ensures st.LogOf(side).stage.Gone? {
      var g := st.LogOf(side).stage;
      assert SideOk(st, side);
      assert g.Telling? || g.Told? ==> ThreadOk(st, g.t);
    }
    assert st.dropper.Some? ==> ThreadOk(st, st.dropper.value);
    assert st.LogOf(Senders) == st.sendLog && st.LogOf(Receivers) == st.recvLog;
  }

  // As long as a handle is live, the box is not freed.
  lemma LiveKeepsBox(st: State, t: nat, side: Side)
    requires Reachable(st) && t < |st.threads| && st.threads[t].Owns(side) > 0
    ensures st.frees == 0 && st.Count(side) > 0 && st.LogOf(side).disconnects == 0
  {
    ReachableOk(st);
    SumAtLeast(Lives(st.threads, side), t);
    assert SideOk(st, side);
  }
}
