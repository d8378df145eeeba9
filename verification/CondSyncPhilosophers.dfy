/**
 The philosophers of samples/philosophers on the condition-variable variant of the forks (condsync.rs): one
 mutex over an array of flags, and a broadcast after every release.

 The mutex is taken here as a lock with one owner and `wait` as releasing it and parking in one step; module
 MutexGuards shows the guard is exclusive.  Wake-ups may also be spurious.
 */
module CondSyncPhilosophers {
  import opened Prelude
  import P = Philosophers

  type Turn = P.Turn

  datatype Pc =
    | Thinking
    | Entering(turn: Turn)  // take: lock
    | Testing(turn: Turn)   // take: while lock[index]
    | Parked(turn: Turn)    // take: cond.wait, parked
    | Waking(turn: Turn)    // take: woken, locks again
    | Marking(turn: Turn)   // take: lock[index] = true
    | Leaving(turn: Turn)   // take: unlock
    | Eating
    | Returning(turn: Turn) // release: lock
    | Clearing(turn: Turn)  // release: lock[index] = false
    | Notifying(turn: Turn) // release: notify_all
    | Closing(turn: Turn)   // release: unlock

  datatype State = State(phils: seq<Pc>, flags: seq<bool>, owner: Option<nat>, meals: seq<nat>)
  {
    predicate Sized() { |phils| >= 2 && |flags| == |meals| == |phils| }

    function ForkAt(p: nat, turn: Turn): (f: nat)
      requires Sized() && p < |phils|
      ensures f < |phils|
    {
      P.ForkOf(|phils|, p, turn)
    }
  }

  // A broadcast: every parked thread goes on to lock again.
  function Awake(pc: Pc): Pc { if pc.Parked? then Waking(pc.turn) else pc }

  function AwakeAll(phils: seq<Pc>): (r: seq<Pc>)
    ensures |r| == |phils| && forall p :: 0 <= p < |phils| ==> r[p] == Awake(phils[p])
  {
    seq(|phils|, p requires 0 <= p < |phils| => Awake(phils[p]))
  }

  datatype Action = Go(p: nat) | Spurious(p: nat)

  predicate Enabled(st: State, a: Action)
    requires st.Sized()
  {
    && a.p < |st.phils|
    && match a
       case Spurious(p) => st.phils[p].Parked?
       case Go(p) =>
         match st.phils[p]
         case Entering(_) => st.owner.None?
         case Waking(_) => st.owner.None?
         case Returning(_) => st.owner.None?
         case Parked(_) => false
         case _ => true
  }

  // Where a step takes the philosopher; `taken` is the flag it tests.
  function PcNext(pc: Pc, taken: bool): Pc {
    match pc
    case Thinking => Entering(P.First)
    case Entering(turn) => Testing(turn)
    case Testing(turn) => if taken then Parked(turn) else Marking(turn)
    case Parked(turn) => Waking(turn)
    case Waking(turn) => Testing(turn)
    case Marking(turn) => Leaving(turn)
    case Leaving(turn) => if turn == P.First then Entering(P.Second) else Eating
    case Eating => Returning(P.Second)
    case Returning(turn) => Clearing(turn)
    case Clearing(turn) => Notifying(turn)
    case Notifying(turn) => Closing(turn)
    case Closing(turn) => if turn == P.Second then Returning(P.First) else Thinking
  }

  function Target(st: State, p: nat): nat
    requires st.Sized() && p < |st.phils|
  {
    if st.phils[p].Thinking? || st.phils[p].Eating? then 0 else st.ForkAt(p, st.phils[p].turn)
  }

  function Next(st: State, a: Action): (st': State)
    requires st.Sized() && Enabled(st, a)
    ensures st'.Sized() && |st'.phils| == |st.phils|
  {
    var p := a.p;
    var f := Target(st, p);
    var pc := PcNext(st.phils[p], st.flags[f]);
    var st1 := st.(phils := st.phils[p := pc]);
    match st.phils[p]
    case Entering(_) => st1.(owner := Some(p))
    case Waking(_) => st1.(owner := Some(p))
    case Returning(_) => st1.(owner := Some(p))
    case Testing(_) => if pc.Parked? then st1.(owner := None) else st1
    case Marking(_) => st1.(flags := st.flags[f := true])
    case Leaving(_) => st1.(owner := None)
    case Closing(_) => st1.(owner := None)
    case Clearing(_) => st1.(flags := st.flags[f := false])
    case Notifying(_) => st1.(phils := AwakeAll(st1.phils))
    case Eating => st1.(meals := st.meals[p := st.meals[p] + 1])
    case _ => st1
  }

  ghost predicate Init(st: State) {
    && st.Sized() && st.owner.None?
    && (forall p :: 0 <= p < |st.phils| ==> st.phils[p] == Thinking)
    && (forall f :: 0 <= f < |st.flags| ==> !st.flags[f])
    && (forall p :: 0 <= p < |st.meals| ==> st.meals[p] == 0)
  }

  predicate Hungry(st: State, a: Action) { a.Go? && a.p < |st.phils| && st.phils[a.p].Thinking? }

  datatype Run = Run(states: seq<State>, actions: seq<Action>)

  ghost predicate Step(st: State, a: Action, st': State) {
    st.Sized() && Enabled(st, a) && st' == Next(st, a)
  }

  ghost predicate ValidRun(r: Run) {
    && |r.states| == |r.actions| + 1
    && forall n :: 0 <= n < |r.actions| ==> Step(r.states[n], r.actions[n], r.states[n + 1])
  }

  ghost predicate Reachable(st: State) {
    && st.Sized()
    && exists r: Run :: ValidRun(r) && Init(r.states[0]) && r.states[|r.actions|] == st
  }

  // ---------------------------------------------------------------- the invariant

  // The philosopher has marked the fork's flag and not cleared it.
  predicate Has(phils: seq<Pc>, p: nat, f: nat)
    requires p < |phils|
  {
    var first, second := P.ForkOf(|phils|, p, P.First), P.ForkOf(|phils|, p, P.Second);
    match phils[p]
    case Thinking => false
    case Entering(turn) => turn == P.Second && f == first
    case Testing(turn) => turn == P.Second && f == first
    case Parked(turn) => turn == P.Second && f == first
    case Waking(turn) => turn == P.Second && f == first
    case Marking(turn) => turn == P.Second && f == first
    case Leaving(turn) => f == first || (turn == P.Second && f == second)
    case Eating => f == first || f == second
    case Returning(turn) => f == first || (turn == P.Second && f == second)
    case Clearing(turn) => f == first || (turn == P.Second && f == second)
    case Notifying(turn) => turn == P.Second && f == first
    case Closing(turn) => turn == P.Second && f == first
  }

  // The philosopher is between lock and unlock.
  predicate Inside(pc: Pc) {
    pc.Testing? || pc.Marking? || pc.Leaving? || pc.Clearing? || pc.Notifying? || pc.Closing?
  }

  ghost predicate PhilOk(st: State, p: nat)
    requires st.Sized() && p < |st.phils|
  {
    && (Inside(st.phils[p]) <==> st.owner == Some(p))
    && (st.phils[p].Marking? ==> !st.flags[st.ForkAt(p, st.phils[p].turn)])
    // a thread parked on a free fork has a notifier that is still to broadcast
    && (st.phils[p].Parked? && !st.flags[st.ForkAt(p, st.phils[p].turn)] ==>
          st.owner.Some? && st.owner.value < |st.phils| && st.phils[st.owner.value].Notifying?)
  }

  ghost predicate ForkOk(st: State, f: nat)
    requires st.Sized() && f < |st.phils|
  {
    && (st.flags[f] ==> exists p :: 0 <= p < |st.phils| && Has(st.phils, p, f))
    && (forall p, q :: 0 <= p < |st.phils| && 0 <= q < |st.phils| && Has(st.phils, p, f) && Has(st.phils, q, f) ==>
          p == q)
    && (forall p :: 0 <= p < |st.phils| && Has(st.phils, p, f) ==> st.flags[f])
  }

  ghost predicate Inv(st: State) {
    && st.Sized()
    && (forall p :: 0 <= p < |st.phils| ==> PhilOk(st, p))
    && (forall f :: 0 <= f < |st.phils| ==> ForkOk(st, f))
    && (st.owner.Some? ==> st.owner.value < |st.phils|)
  }

  // What a step does to the flags somebody has set.
  lemma HasMoves(st: State, a: Action, q: nat, f: nat)
    requires st.Sized() && Enabled(st, a) && q < |st.phils|
    ensures var pc := st.phils[a.p];
      Has(Next(st, a).phils, q, f) <==>
        || (Has(st.phils, q, f) && !(q == a.p && pc.Clearing? && f == st.ForkAt(q, pc.turn)))
        || (q == a.p && pc.Marking? && f == st.ForkAt(q, pc.turn))
  {
    P.Ordered(|st.phils|, a.p);
    hide P.ForkOf;
  }

  lemma PhilKeeps(st: State, a: Action, q: nat)
    requires st.Sized() && Enabled(st, a) && q < |st.phils|
    requires PhilOk(st, a.p) && PhilOk(st, q)
    requires st.owner.Some? && st.owner.value < |st.phils| ==> PhilOk(st, st.owner.value)
    ensures PhilOk(Next(st, a), q)
  {
    hide P.ForkOf;
  }

  lemma ForkKeeps(st: State, a: Action, f: nat)
    requires st.Sized() && Enabled(st, a) && f < |st.phils|
    requires PhilOk(st, a.p) && ForkOk(st, f)
    ensures ForkOk(Next(st, a), f)
  {
    var st' := Next(st, a);
    var pc := st.phils[a.p];
    forall q | 0 <= q < |st.phils|
      ensures Has(st'.phils, q, f) <==>
        || (Has(st.phils, q, f) && !(q == a.p && pc.Clearing? && f == st.ForkAt(q, pc.turn)))
        || (q == a.p && pc.Marking? && f == st.ForkAt(q, pc.turn))
    {
      HasMoves(st, a, q, f);
    }
    FlagMoves(st, a, f);
    hide Has, P.ForkOf, Next, PhilOk;
    if st'.flags[f] {
      if st.flags[f] {
        var p :| 0 <= p < |st.phils| && Has(st.phils, p, f);
        assert Has(st'.phils, p, f);
      } else {
        assert Has(st'.phils, a.p, f);
      }
    }
  }

  lemma FlagMoves(st: State, a: Action, f: nat)
    requires st.Sized() && Enabled(st, a) && f < |st.phils| && PhilOk(st, a.p)
    ensures var pc := st.phils[a.p];
      Next(st, a).flags[f] ==
        if pc.Clearing? && f == st.ForkAt(a.p, pc.turn) then false
        else if pc.Marking? && f == st.ForkAt(a.p, pc.turn) then true
        else st.flags[f]
    ensures st.phils[a.p].Marking? ==> !st.flags[st.ForkAt(a.p, st.phils[a.p].turn)]
    ensures st.phils[a.p].Clearing? ==> Has(st.phils, a.p, st.ForkAt(a.p, st.phils[a.p].turn))
  {
    hide P.ForkOf;
  }

  lemma Keeps(st: State, a: Action)
    requires Inv(st) && Enabled(st, a)
    ensures Inv(Next(st, a))
  {
    var st' := Next(st, a);
    assert PhilOk(st, a.p);
    forall q | 0 <= q < |st.phils| ensures PhilOk(st', q) { PhilKeeps(st, a, q); }
    forall f | 0 <= f < |st.phils| ensures ForkOk(st', f) { ForkKeeps(st, a, f); }
    hide PhilOk, ForkOk;
  }

  lemma InitOk(st: State)
    requires Init(st)
    ensures Inv(st)
  {
  }

  lemma {:induction false} RunKeeps(r: Run, n: nat)
    requires ValidRun(r) && Inv(r.states[0]) && n <= |r.actions|
    ensures Inv(r.states[n])
  {
    if n > 0 {
      RunKeeps(r, n - 1);
      assert Step(r.states[n - 1], r.actions[n - 1], r.states[n]);
      Keeps(r.states[n - 1], r.actions[n - 1]);
    }
  }

  lemma ReachableOk(st: State)
    requires Reachable(st)
    ensures Inv(st)
  {
    var r: Run :| ValidRun(r) && Init(r.states[0]) && r.states[|r.actions|] == st;
    InitOk(r.states[0]);
    RunKeeps(r, |r.actions|);
  }

  // ---------------------------------------------------------------- main results

  lemma Exclusion(st: State, p: nat, q: nat, f: nat)
    requires Reachable(st) && p < |st.phils| && q < |st.phils| && f < |st.phils|
    requires Has(st.phils, p, f) && Has(st.phils, q, f)
    ensures p == q && st.flags[f]
  {
    ReachableOk(st);
    assert ForkOk(st, f);
  }

  // Neighbours never eat at the same time.
  lemma NeighboursDoNotEat(st: State, p: nat)
    requires Reachable(st) && p < |st.phils| && st.phils[p].Eating?
    ensures (p + 1) % |st.phils| < |st.phils| && !st.phils[(p + 1) % |st.phils|].Eating?
  {
    var q := (p + 1) % |st.phils|;
    P.NeighboursShare(|st.phils|, p);
    if st.phils[q].Eating? {
      Exclusion(st, p, q, q);
    }
  }

  // A thread parked on a fork whose flag is clear is about to be woken.
  lemma NoLostWakeUp(st: State, p: nat)
    requires Reachable(st) && p < |st.phils| && st.phils[p].Parked?
    requires !st.flags[st.ForkAt(p, st.phils[p].turn)]
    ensures st.owner.Some? && st.owner.value < |st.phils| && st.phils[st.owner.value].Notifying?
    ensures Enabled(st, Go(st.owner.value)) && Next(st, Go(st.owner.value)).phils[p].Waking?
  {
    ReachableOk(st);
    assert PhilOk(st, p);
  }

  // Nothing can move but thinkers and spurious wake-ups.
  ghost predicate Stuck(st: State)
    requires st.Sized()
  {
    forall p :: 0 <= p < |st.phils| && Enabled(st, Go(p)) ==> st.phils[p].Thinking?
  }

  lemma StuckParked(st: State, p: nat)
    requires Inv(st) && Stuck(st) && p < |st.phils|
    ensures st.owner.None?
    ensures st.phils[p].Thinking? || (st.phils[p].Parked? && st.flags[st.ForkAt(p, st.phils[p].turn)])
  {
    assert PhilOk(st, p);
    if st.owner.Some? {
      assert PhilOk(st, st.owner.value);
      assert Enabled(st, Go(st.owner.value));
    }
    assert !st.phils[p].Thinking? ==> !Enabled(st, Go(p));
  }

  lemma {:induction false} NobodyParked(st: State, p: nat, f: nat)
    requires Inv(st) && Stuck(st) && p < |st.phils| && st.phils[p].Parked?
    ensures f < |st.phils| ==> f != st.ForkAt(p, st.phils[p].turn)
    decreases |st.phils| - f
  {
    if f < |st.phils| && f == st.ForkAt(p, st.phils[p].turn) {
      StuckParked(st, p);
      assert ForkOk(st, f);
      var o :| 0 <= o < |st.phils| && Has(st.phils, o, f);
      StuckParked(st, o);
      P.Ordered(|st.phils|, o);
      NobodyParked(st, o, st.ForkAt(o, P.Second));
    }
  }

  lemma StuckMeansThinking(st: State, p: nat)
    requires Inv(st) && Stuck(st) && p < |st.phils|
    ensures st.phils[p].Thinking?
  {
    StuckParked(st, p);
    if st.phils[p].Parked? {
      NobodyParked(st, p, st.ForkAt(p, st.phils[p].turn));
    }
  }

  // As long as somebody is not thinking, a step other than getting hungry can be taken, even without
  // spurious wake-ups.
  lemma DeadlockFree(st: State, p: nat) returns (q: nat)
    requires Reachable(st) && p < |st.phils| && !st.phils[p].Thinking?
    ensures q < |st.phils| && Enabled(st, Go(q)) && !st.phils[q].Thinking?
  {
    ReachableOk(st);
    if Stuck(st) {
      StuckMeansThinking(st, p);
    }
    q :| 0 <= q < |st.phils| && Enabled(st, Go(q)) && !st.phils[q].Thinking?;
  }

  // ---------------------------------------------------------------- everyone eats

  // What a philosopher has left to do before thinking again, but for being woken in vain.
  function Rank(pc: Pc): nat {
    match pc
    case Thinking => 0
    case Entering(turn) => if turn == P.First then 17 else 13
    case Testing(turn) => if turn == P.First then 16 else 12
    case Parked(turn) => if turn == P.First then 16 else 12
    case Waking(turn) => if turn == P.First then 16 else 12
    case Marking(turn) => if turn == P.First then 15 else 11
    case Leaving(turn) => if turn == P.First then 14 else 10
    case Eating => 9
    case Returning(turn) => if turn == P.Second then 8 else 4
    case Clearing(turn) => if turn == P.Second then 7 else 3
    case Notifying(turn) => if turn == P.Second then 6 else 2
    case Closing(turn) => if turn == P.Second then 5 else 1
  }

  // What a woken philosopher has left to do before parking again.
  function Retry(pc: Pc): nat { if pc.Waking? then 2 else if pc.Testing? then 1 else 0 }

  function Ranks(phils: seq<Pc>): seq<nat> {
    seq(|phils|, p requires 0 <= p < |phils| => Rank(phils[p]))
  }

  function Retries(phils: seq<Pc>): seq<nat> {
    seq(|phils|, p requires 0 <= p < |phils| => Retry(phils[p]))
  }

  function Measure(phils: seq<Pc>): nat {
    Sum(Ranks(phils)) * (2 * |phils| + 1) + Sum(Retries(phils))
  }

  lemma RanksFall(phils: seq<Pc>, phils': seq<Pc>, p: nat)
    requires p < |phils| == |phils'|
    requires Ranks(phils') == Ranks(phils)[p := Rank(phils'[p])]
    ensures Rank(phils'[p]) < Rank(phils[p]) ==> Measure(phils') < Measure(phils)
  {
    SumChange(Ranks(phils), Ranks(phils'), p);
    if Rank(phils'[p]) < Rank(phils[p]) {
      SumBound(Retries(phils'), 2);
      Multiples(Sum(Ranks(phils')), Sum(Ranks(phils)), 2 * |phils| + 1);
    }
  }

  // Every step but getting hungry and spurious wake-ups lowers the measure.
  lemma StepDecreases(st: State, a: Action)
    requires st.Sized() && Enabled(st, a) && a.Go? && !Hungry(st, a)
    ensures Measure(Next(st, a).phils) < Measure(st.phils)
  {
    var p := a.p;
    var phils, phils' := st.phils, Next(st, a).phils;
    assert Ranks(phils') == Ranks(phils)[p := Rank(phils'[p])];
    RanksFall(phils, phils', p);
    if phils[p].Waking? || (phils[p].Testing? && phils'[p].Parked?) {
      assert Ranks(phils') == Ranks(phils);
      SumChange(Retries(phils), Retries(phils'), p);
    }
  }

  // Nobody gets hungry and nobody is woken in vain.
  ghost predicate Calm(r: Run) {
    && ValidRun(r) && Inv(r.states[0])
    && forall n :: 0 <= n < |r.actions| ==> r.actions[n].Go? && !Hungry(r.states[n], r.actions[n])
  }

  // One meal is due to a philosopher that is hungry or eating.
  function Due(pc: Pc): nat {
    if pc.Thinking? || pc.Returning? || pc.Clearing? || pc.Notifying? || pc.Closing? then 0 else 1
  }

  lemma {:induction false} CalmRun(r: Run, n: nat, p: nat)
    requires Calm(r) && n <= |r.actions| && p < |r.states[0].phils|
    ensures r.states[n].Sized() && |r.states[n].phils| == |r.states[0].phils|
    ensures Measure(r.states[n].phils) + n <= Measure(r.states[0].phils)
    ensures r.states[n].meals[p] + Due(r.states[n].phils[p]) == r.states[0].meals[p] + Due(r.states[0].phils[p])
  {
    if n > 0 {
      CalmRun(r, n - 1, p);
      assert Step(r.states[n - 1], r.actions[n - 1], r.states[n]);
      StepDecreases(r.states[n - 1], r.actions[n - 1]);
      hide Measure;
    }
  }

  // Such a run is bounded, and when it can go on no more, whoever was hungry or eating has eaten once and
  // nobody else has.
  lemma EveryoneEats(r: Run, p: nat)
    requires Calm(r) && p < |r.states[0].phils|
    ensures var n := |r.states[0].phils|; |r.actions| <= 17 * n * (2 * n + 1) + 2 * n
    ensures var st := r.states[|r.actions|];
      && st.Sized() && |st.phils| == |r.states[0].phils| == |r.states[0].meals|
      && (Stuck(st) ==> st.phils[p].Thinking? && st.meals[p] == r.states[0].meals[p] + Due(r.states[0].phils[p]))
  {
    var st, n := r.states[0], |r.states[0].phils|;
    RunKeeps(r, |r.actions|);
    CalmRun(r, |r.actions|, p);
    SumBound(Ranks(st.phils), 17);
    SumBound(Retries(st.phils), 2);
    Times(Sum(Ranks(st.phils)), 17 * n, 2 * n + 1);
    if Stuck(r.states[|r.actions|]) {
      StuckMeansThinking(r.states[|r.actions|], p);
    }
  }
}
