/**
 What the dining philosophers do over whole runs: no fork is held twice, the server never panics and its
 replies never block, a waiter is served next, no deadlock, and whoever is hungry eats.
 */
module PhilosophersProgress {
  import opened Prelude
  import opened Philosophers
  import opened PhilosophersSafety

  // ---------------------------------------------------------------- runs

  lemma InitOk(st: State)
    requires Init(st)
    ensures Inv(st)
  {
  }

  lemma StepKeeps(st: State, a: Action, st': State)
    requires Inv(st) && Step(st, a, st')
    ensures Inv(st')
  {
    if a.PhilStep? { PhilKeeps(st, a.p); } else { ServerKeeps(st); }
  }

  lemma {:induction false} RunKeeps(r: Run, n: nat)
    requires ValidRun(r) && Inv(r.states[0]) && n <= |r.actions|
    ensures Inv(r.states[n])
  {
    if n > 0 {
      RunKeeps(r, n - 1);
      assert Step(r.states[n - 1], r.actions[n - 1], r.states[n]);
      StepKeeps(r.states[n - 1], r.actions[n - 1], r.states[n]);
    }
  }

  lemma ReachableOk(st: State)
    requires Reachable(st)
    ensures Inv(st)
  {
    var r: Run :| Execution(r) && r.states[|r.actions|] == st;
    InitOk(r.states[0]);
    RunKeeps(r, |r.actions|);
  }

  // Neither panic is ever reached.
  lemma NeverPanics(st: State, a: Action)
    requires Reachable(st) && Enabled(st, a)
    ensures !Faults(st, a)
  {
    ReachableOk(st);
    NoFault(st, a);
  }

  // ---------------------------------------------------------------- exclusion and hand-off

  lemma Exclusion(st: State, p: nat, q: nat, f: nat)
    requires Reachable(st) && p < |st.phils| && q < |st.phils| && f < |st.phils|
    requires Has(st.phils, p, f) && Has(st.phils, q, f)
    ensures p == q
  {
    ReachableOk(st);
    assert HandOk(st, p, f) && HandOk(st, q, f);
  }

  // Neighbours never eat at the same time.
  lemma NeighboursDoNotEat(st: State, p: nat)
    requires Reachable(st) && p < |st.phils| && st.phils[p].Eating?
    ensures (p + 1) % |st.phils| < |st.phils| && !st.phils[(p + 1) % |st.phils|].Eating?
  {
    var n := |st.phils|;
    var q := (p + 1) % n;
    NeighboursShare(n, p);
    if st.phils[q].Eating? {
      Exclusion(st, p, q, q);
    }
  }

  // The channel a reply goes to is empty, so the server is never held up.
  lemma ReplyNeverBlocks(st: State)
    requires Reachable(st) && st.server.Replying?
    ensures st.server.to < |st.phils| && st.ReplyBusy(st.server.to) == 0 && ServerReady(st)
  {
    ReachableOk(st);
    assert CallOk(st, st.server.to);
  }

  predicate Waits(st: State, w: nat, f: nat)
    requires st.Sized() && f < |st.forks|
  {
    st.forks[f] == InUseWait(w) && w < |st.phils| && st.call[w].Recorded? && Wants(st.phils, w, f)
  }

  // The fork is still the old owner's while `w` waits, or was given to `w`, who does not know yet.
  predicate HandOver(st: State, o: Option<nat>, w: nat, f: nat)
    requires st.Sized() && f < |st.forks|
  {
    || (Waits(st, w, f) && st.owner[f] == o)
    || (w < |st.phils| && st.owner[f] == Some(w) && Promised(st, w, f))
  }

  lemma WaitingStep(st: State, a: Action, st': State, f: nat, w: nat)
    requires Inv(st) && Step(st, a, st') && f < |st.phils| && Waits(st, w, f)
    ensures HandOver(st', st.owner[f], w, f)
  {
    assert ForkOk(st, f) && CallOk(st, w);
    if st.queue != [] { HeadOk(st); }
    if st.server.Handling? { assert ForkOk(st, st.server.cmd.fork); }
    hide ForkOf, NoDup, Behind, Uses, Has;
  }

  lemma PromisedPhil(st: State, p: nat, f: nat, w: nat)
    requires Inv(st) && p < |st.phils| && PhilReady(st, p) && f < |st.phils| && w < |st.phils|
    requires st.owner[f] == Some(w) && Promised(st, w, f)
    ensures var st' := PhilNext(st, p);
      Has(st'.phils, w, f) || (st'.owner[f] == Some(w) && Promised(st', w, f))
  {
    assert CallOk(st, w) && CallOk(st, p);
    hide Inv, Uses;
  }

  lemma PromisedServer(st: State, f: nat, w: nat)
    requires Inv(st) && ServerReady(st) && !ServerFaults(st) && f < |st.phils| && w < |st.phils|
    requires st.owner[f] == Some(w) && Promised(st, w, f)
    ensures var st' := ServerNext(st);
      st'.owner[f] == Some(w) && Promised(st', w, f)
  {
    assert ForkOk(st, f) && CallOk(st, w) && HandOk(st, w, f);
    assert ServerOk(st);
    if st.queue != [] { HeadOk(st); }
    if st.server.Handling? { assert ForkOk(st, st.server.cmd.fork); }
    hide Inv, Uses, Has, ForkOf;
  }

  lemma PromisedStep(st: State, a: Action, st': State, f: nat, w: nat)
    requires Inv(st) && Step(st, a, st') && f < |st.phils| && w < |st.phils|
    requires st.owner[f] == Some(w) && Promised(st, w, f)
    ensures Has(st'.phils, w, f) || (st'.owner[f] == Some(w) && Promised(st', w, f))
  {
    match a
    case PhilStep(p) => PromisedPhil(st, p, f, w);
    case ServerStep => PromisedServer(st, f, w);
  }

  lemma {:induction false} HandOverStays(r: Run, i: nat, j: nat, f: nat, w: nat)
    requires ValidRun(r) && i <= j <= |r.actions| && Inv(r.states[i])
    requires f < |r.states[i].forks| && Waits(r.states[i], w, f)
    requires forall k :: i < k <= j && w < |r.states[k].phils| ==> !Has(r.states[k].phils, w, f)
    ensures Inv(r.states[j]) && |r.states[j].phils| == |r.states[i].phils|
    ensures HandOver(r.states[j], r.states[i].owner[f], w, f)
  {
    if i < j {
      HandOverStays(r, i, j - 1, f, w);
      var st, a, st' := r.states[j - 1], r.actions[j - 1], r.states[j];
      assert Step(st, a, st');
      StepKeeps(st, a, st');
      if Waits(st, w, f) { WaitingStep(st, a, st', f, w); } else { PromisedStep(st, a, st', f, w); }
      hide Inv, Waits, Promised, Step;
    }
  }

  // A recorded waiter gets the fork next: until it has the fork, nobody but the owner at that time has it.
  lemma WaiterNext(r: Run, i: nat, j: nat, f: nat, w: nat)
    requires Execution(r) && i <= j <= |r.actions| && f < |r.states[i].forks|
    requires r.states[i].forks[f] == InUseWait(w) && Serving(r.states[i].server) != Some(f)
    requires forall k :: i < k <= j && w < |r.states[k].phils| ==> !Has(r.states[k].phils, w, f)
    ensures forall p :: 0 <= p < |r.states[j].phils| && Has(r.states[j].phils, p, f) ==>
      f < |r.states[i].owner| && r.states[i].owner[f] == Some(p) && p != w
  {
    InitOk(r.states[0]);
    RunKeeps(r, i);
    assert ForkOk(r.states[i], f) && CallOk(r.states[i], w);
    HandOverStays(r, i, j, f, w);
    forall p | 0 <= p < |r.states[j].phils| && Has(r.states[j].phils, p, f)
      ensures r.states[i].owner[f] == Some(p) && p != w
    {
      assert HandOk(r.states[j], p, f);
      WantsNotHas(r.states[j], w, f);
    }
  }

  lemma WantsNotHas(st: State, w: nat, f: nat)
    requires st.Sized() && w < |st.phils| && Wants(st.phils, w, f)
    ensures !Has(st.phils, w, f)
  {
    Ordered(|st.phils|, w);
  }

  // ---------------------------------------------------------------- no deadlock

  // Only philosophers that are thinking could move, by getting hungry.
  ghost predicate Stuck(st: State)
    requires st.Sized()
  {
    && !ServerReady(st)
    && forall p :: 0 <= p < |st.phils| && !st.phils[p].Thinking? ==> !PhilReady(st, p)
  }

  lemma ReplyReady(st: State)
    requires Inv(st) && st.Sized()
    ensures st.server.Replying? ==> ServerReady(st)
  {
    if st.server.Replying? { assert CallOk(st, st.server.to); }
  }

  // A stuck server waits for a command, and nobody is held up by the command channel.
  lemma StuckServer(st: State)
    requires Inv(st) && Stuck(st)
    ensures st.server.Idle? && st.queue == []
    ensures forall p :: 0 <= p < |st.phils| ==> st.phils[p].Thinking? || st.phils[p].Waiting?
  {
    ReplyReady(st);
    forall p | 0 <= p < |st.phils| ensures !st.phils[p].Posting? && !st.phils[p].Returning? {
      assert st.phils[p].Posting? || st.phils[p].Returning? ==> PhilReady(st, p);
    }
    assert st.Holders() == {};
    forall p | 0 <= p < |st.phils| && !st.phils[p].Thinking? ensures st.phils[p].Waiting? {
      assert !PhilReady(st, p);
    }
  }

  // Forks are taken in order, so nobody waits for the last fork, hence not for the one before it, ...
  lemma {:induction false} NobodyWaits(st: State, p: nat, f: nat)
    requires Inv(st) && Stuck(st) && p < |st.phils| && f < |st.phils|
    ensures !Wants(st.phils, p, f)
    decreases |st.phils| - f
  {
    StuckServer(st);
    if Wants(st.phils, p, f) {
      assert CallOk(st, p) && ForkOk(st, f) && OwnerOk(st, f);
      var o := st.owner[f].value;
      assert CallOk(st, o);
      assert !PhilReady(st, p) && (st.phils[o].Waiting? ==> !PhilReady(st, o));
      assert Has(st.phils, o, f);
      assert st.phils[o].Waiting?;
      Ordered(|st.phils|, o);
      NobodyWaits(st, o, st.ForkAt(o, Second));
    }
  }

  // If everyone is stuck, everyone is thinking and every fork is free.
  lemma StuckMeansThinking(st: State)
    requires Inv(st) && Stuck(st)
    ensures forall p :: 0 <= p < |st.phils| ==> st.phils[p].Thinking?
    ensures forall f :: 0 <= f < |st.forks| ==> st.forks[f] == Free
    ensures st.queue == []
  {
    StuckServer(st);
    forall p | 0 <= p < |st.phils| ensures st.phils[p].Thinking? {
      if st.phils[p].Waiting? { NobodyWaits(st, p, st.ForkAt(p, st.phils[p].turn)); }
    }
    forall f | 0 <= f < |st.forks| ensures st.forks[f] == Free {
      assert ForkOk(st, f) && OwnerOk(st, f);
      assert st.owner[f].Some? ==> CallOk(st, st.owner[f].value);
    }
  }

  // As long as somebody is not thinking, some step that is not a thinker getting hungry can be taken.
  lemma DeadlockFree(st: State, p: nat) returns (a: Action)
    requires Reachable(st) && p < |st.phils| && !st.phils[p].Thinking?
    ensures Enabled(st, a) && !Hungry(st, a) && !Faults(st, a)
  {
    ReachableOk(st);
    if Stuck(st) {
      StuckMeansThinking(st);
    }
    if ServerReady(st) {
      a := ServerStep;
    } else {
      var q :| 0 <= q < |st.phils| && !st.phils[q].Thinking? && PhilReady(st, q);
      a := PhilStep(q);
    }
    NoFault(st, a);
  }

  // ---------------------------------------------------------------- everyone eats

  // What a philosopher has left to do before thinking again, commands included.
  function Rank(pc: Phil): (r: nat) {
    match pc
    case Thinking => 0
    case Asking(turn) => if turn == First then 41 else 30
    case Posting(turn) => if turn == First then 40 else 29
    case Waiting(turn) => if turn == First then 32 else 21
    case Taking(turn) => if turn == First then 31 else 20
    case Eating => 19
    case Giving(turn) => if turn == Second then 18 else 9
    case Returning(turn) => if turn == Second then 17 else 8
  }

  function Effort(s: Server): nat {
    match s
    case Idle => 0
    case Holding(_) => 6
    case Handling(_) => 5
    case Replying(_, _) => 4
    case Sending(_, _) => 3
    case Settling(_) => 2
  }

  function Ranks(phils: seq<Phil>): seq<nat> {
    seq(|phils|, p requires 0 <= p < |phils| => Rank(phils[p]))
  }

  function Measure(st: State): nat {
    Sum(Ranks(st.phils)) + 7 * |st.queue| + Effort(st.server)
  }

  lemma RanksMove(phils: seq<Phil>, p: nat, pc: Phil)
    requires p < |phils|
    ensures Sum(Ranks(phils[p := pc])) + Rank(phils[p]) == Sum(Ranks(phils)) + Rank(pc)
  {
    SumChange(Ranks(phils), Ranks(phils[p := pc]), p);
  }

  lemma StepDecreases(st: State, a: Action, st': State)
    requires Step(st, a, st') && !Hungry(st, a)
    ensures Measure(st') < Measure(st)
  {
    hide Ranks, Sum;
    if a.PhilStep? {
      RanksMove(st.phils, a.p, PcNext(st.phils[a.p]));
    }
  }

  ghost predicate Calm(r: Run) {
    && ValidRun(r) && Inv(r.states[0])
    && forall n :: 0 <= n < |r.actions| ==> !Hungry(r.states[n], r.actions[n])
  }

  lemma {:induction false} MeasureFalls(r: Run, n: nat)
    requires Calm(r) && n <= |r.actions|
    ensures Measure(r.states[n]) + n <= Measure(r.states[0])
  {
    if n > 0 {
      MeasureFalls(r, n - 1);
      assert Step(r.states[n - 1], r.actions[n - 1], r.states[n]);
      StepDecreases(r.states[n - 1], r.actions[n - 1], r.states[n]);
    }
  }

  // A run in which nobody else gets hungry is short.
  lemma MealsAreBounded(r: Run)
    requires Calm(r)
    ensures |r.actions| <= 41 * |r.states[0].phils| + 7 * |r.states[0].queue| + 6
  {
    MeasureFalls(r, |r.actions|);
    SumBound(Ranks(r.states[0].phils), 41);
  }

  // One meal is due to a philosopher that is hungry or eating.
  function Due(pc: Phil): nat {
    if pc.Thinking? || pc.Giving? || pc.Returning? then 0 else 1
  }

  lemma {:induction false} MealsAdd(r: Run, n: nat, p: nat)
    requires Calm(r) && n <= |r.actions| && r.states[0].Sized() && p < |r.states[0].phils|
    ensures r.states[n].Sized() && |r.states[n].phils| == |r.states[0].phils|
    ensures r.states[n].meals[p] + Due(r.states[n].phils[p]) == r.states[0].meals[p] + Due(r.states[0].phils[p])
  {
    if n > 0 {
      MealsAdd(r, n - 1, p);
      assert Step(r.states[n - 1], r.actions[n - 1], r.states[n]);
    }
  }

  // When such a run can go on no more, whoever was hungry or eating has eaten once, nobody else has, and all
  // forks are back.
  lemma EveryoneEats(r: Run, p: nat)
    requires Calm(r) && r.states[|r.actions|].Sized() && Stuck(r.states[|r.actions|])
    requires p < |r.states[0].phils|
    ensures var st := r.states[|r.actions|];
      && |st.phils| == |r.states[0].phils| == |r.states[0].meals|
      && st.phils[p].Thinking?
      && st.meals[p] == r.states[0].meals[p] + Due(r.states[0].phils[p])
      && forall f :: 0 <= f < |st.forks| ==> st.forks[f] == Free
  {
    RunKeeps(r, |r.actions|);
    MealsAdd(r, |r.actions|, p);
    StuckMeansThinking(r.states[|r.actions|]);
  }
}
