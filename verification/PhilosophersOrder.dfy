/**
 What one philosopher does, in order, in both variants: take the lower of its two forks, take the higher, eat, give
 back the higher, give back the lower, again and again.
 */
module PhilosophersOrder {
  import opened Prelude
  import P = Philosophers
  import S = PhilosophersSafety
  import C = CondSyncPhilosophers

  // The forks on both sides of a philosopher.
  function Lower(n: nat, p: nat): nat
    requires p < n
  {
    if (p + 1) % n < p then (p + 1) % n else p
  }

  function Higher(n: nat, p: nat): nat
    requires p < n
  {
    if (p + 1) % n < p then p else (p + 1) % n
  }

  lemma ForksAre(n: nat, p: nat)
    requires p < n && n >= 2
    ensures P.ForkOf(n, p, P.First) == Lower(n, p) && P.ForkOf(n, p, P.Second) == Higher(n, p)
  {
    if p < n - 1 { P.Wrap(p + 1, n); }
  }

  // The events so far repeat the cycle and have come `done` events into it.
  ghost predicate Repeats<E(!new)>(events: seq<E>, cycle: seq<E>, done: nat) {
    && cycle != [] && done < |cycle| && |events| % |cycle| == done
    && forall k :: 0 <= k < |events| ==> events[k] == cycle[k % |cycle|]
  }

  lemma RepeatsOn<E(!new)>(events: seq<E>, cycle: seq<E>, done: nat, e: E)
    requires Repeats(events, cycle, done) && e == cycle[done]
    ensures Repeats(events + [e], cycle, if done + 1 == |cycle| then 0 else done + 1)
  {
    var m := |cycle|;
    assert |events| == m * (|events| / m) + done;
    if done + 1 == m {
      assert |events| + 1 == m * (|events| / m + 1);
      ModOf(|events| / m + 1, m, 0);
    } else {
      ModOf(|events| / m, m, done + 1);
    }
  }

  lemma ModOf(q: nat, m: nat, r: nat)
    requires r < m
    ensures (m * q + r) % m == r
  {
    var v := m * q + r;
    var k := v / m - q;
    assert m * k == r - v % m by { assert v == m * (v / m) + v % m; }
    if k >= 1 { Times(1, k, m); }
    if k <= -1 { Times(1, -k, m); }
  }

  // ---------------------------------------------------------------- the channel variant

  // What is seen of philosopher `p` from outside: a command in the queue, a reply taken, a meal.
  datatype Event = Sends(cmd: P.Command) | Gets | Eats

  // Read off the states before and after one of its steps.
  function Seen(st: P.State, st': P.State, p: nat): seq<Event> {
    (if |st'.queue| > |st.queue| then [Sends(st'.queue[|st.queue|])] else [])
    + (if p < |st.replies| && p < |st'.replies| && st'.replies[p] < st.replies[p] then [Gets] else [])
    + (if p < |st.meals| && p < |st'.meals| && st'.meals[p] > st.meals[p] then [Eats] else [])
  }

  function Events(states: seq<P.State>, actions: seq<P.Action>, p: nat): seq<Event>
    requires |states| == |actions| + 1
  {
    if actions == [] then []
    else
      var k := |actions| - 1;
      Events(states[..k + 1], actions[..k], p)
      + if actions[k] == P.PhilStep(p) then Seen(states[k], states[k + 1], p) else []
  }

  function Round(n: nat, p: nat): seq<Event>
    requires p < n
  {
    var lo, hi := Lower(n, p), Higher(n, p);
    [Sends(P.Acquire(lo, p)), Gets, Sends(P.Acquire(hi, p)), Gets, Eats, Sends(P.Release(hi)), Sends(P.Release(lo))]
  }

  // How far into its round a philosopher is.
  function Done(pc: P.Phil): nat {
    match pc
    case Thinking => 0
    case Asking(turn) => if turn == P.First then 0 else 2
    case Posting(turn) => if turn == P.First then 0 else 2
    case Waiting(turn) => if turn == P.First then 1 else 3
    case Taking(turn) => if turn == P.First then 2 else 4
    case Eating => 4
    case Giving(turn) => if turn == P.Second then 5 else 6
    case Returning(turn) => if turn == P.Second then 5 else 6
  }

  lemma StepSeen(st: P.State, p: nat)
    requires st.Sized() && p < |st.phils| && P.PhilReady(st, p)
    ensures var e, d, d' := Seen(st, P.PhilNext(st, p), p), Done(st.phils[p]), Done(P.PcNext(st.phils[p]));
      var round := Round(|st.phils|, p);
      if e == [] then d' == d else e == [round[d]] && d' == if d == 6 then 0 else d + 1
  {
    ForksAre(|st.phils|, p);
    hide P.ForkOf, Lower, Higher;
  }

  // One step of anybody, seen from philosopher `p`.
  lemma AnyStep(st: P.State, a: P.Action, st': P.State, p: nat)
    requires P.Step(st, a, st') && p < |st.phils|
    ensures |st'.phils| == |st.phils|
    ensures var e, d, d' := if a == P.PhilStep(p) then Seen(st, st', p) else [], Done(st.phils[p]), Done(st'.phils[p]);
      if e == [] then d' == d else e == [Round(|st.phils|, p)[d]] && d' == if d == 6 then 0 else d + 1
  {
    hide Seen, Round, Done, P.PcNext, P.PhilReady, P.ServerReady, P.ServerFaults;
    if a == P.PhilStep(p) { StepSeen(st, p); }
    hide P.PhilNext, P.ServerNext;
  }

  lemma StepOf(r: P.Run, n: nat)
    requires P.Execution(r) && 0 < n <= |r.actions|
    ensures P.Step(r.states[n - 1], r.actions[n - 1], r.states[n])
  {
  }

  lemma EventsStep(r: P.Run, n: nat, p: nat)
    requires 0 < n <= |r.actions| < |r.states|
    ensures Events(r.states[..n + 1], r.actions[..n], p) ==
      Events(r.states[..n], r.actions[..n - 1], p)
      + if r.actions[n - 1] == P.PhilStep(p) then Seen(r.states[n - 1], r.states[n], p) else []
  {
    assert r.states[..n + 1][..n] == r.states[..n] && r.actions[..n][..n - 1] == r.actions[..n - 1];
    hide Seen;
  }

  // Main result: whatever the others do, what a philosopher does is a number of whole rounds and the beginning of one.
  lemma {:induction false} InRounds(r: P.Run, n: nat, p: nat)
    requires P.Execution(r) && n <= |r.actions| && p < |r.states[0].phils|
    ensures |r.states[n].phils| == |r.states[0].phils|
    ensures Repeats(Events(r.states[..n + 1], r.actions[..n], p), Round(|r.states[0].phils|, p),
                    Done(r.states[n].phils[p]))
  {
    assert |r.states| == |r.actions| + 1;
    hide Seen, Round, Done, Repeats, Events, P.Execution, P.Step;
    if n == 0 {
      RoundsStart(r, p);
    } else {
      InRounds(r, n - 1, p);
      var st, a := r.states[n - 1], r.actions[n - 1];
      StepOf(r, n);
      EventsStep(r, n, p);
      AnyStep(st, a, r.states[n], p);
      if a == P.PhilStep(p) && Seen(st, r.states[n], p) != [] {
        RoundSize(|st.phils|, p);
        RepeatsOn(Events(r.states[..n], r.actions[..n - 1], p), Round(|st.phils|, p), Done(st.phils[p]),
                  Round(|st.phils|, p)[Done(st.phils[p])]);
      }
    }
  }

  lemma RoundsStart(r: P.Run, p: nat)
    requires P.Execution(r) && p < |r.states[0].phils|
    ensures Repeats(Events(r.states[..1], r.actions[..0], p), Round(|r.states[0].phils|, p), Done(r.states[0].phils[p]))
  {
    hide Seen, P.Step;
    RoundSize(|r.states[0].phils|, p);
    assert r.actions[..0] == [] && Events(r.states[..1], r.actions[..0], p) == [];
    assert r.states[0].phils[p] == P.Thinking;
    hide Round, P.Execution;
  }

  lemma RoundSize(n: nat, p: nat)
    requires p < n
    ensures |Round(n, p)| == 7
  {
  }

  // ---------------------------------------------------------------- the condition-variable variant

  datatype Deed = Marks(fork: nat) | Clears(fork: nat) | Dines

  // Read off the flags and the meals before and after one of its steps.
  function Changed(before: seq<bool>, after: seq<bool>, f: nat): seq<Deed>
    requires f <= |before| == |after|
    decreases |before| - f
  {
    if f == |before| then []
    else
      (if before[f] == after[f] then [] else if after[f] then [Marks(f)] else [Clears(f)])
      + Changed(before, after, f + 1)
  }

  lemma {:induction false} OneFlag(before: seq<bool>, after: seq<bool>, g: nat, f: nat)
    requires f <= g < |before| == |after| && before[g] != after[g]
    requires forall h :: 0 <= h < |before| && h != g ==> before[h] == after[h]
    ensures Changed(before, after, f) == if after[g] then [Marks(g)] else [Clears(g)]
    decreases g - f
  {
    if f < g { OneFlag(before, after, g, f + 1); } else { NoFlags(before, after, f + 1); }
  }

  lemma {:induction false} NoFlags(before: seq<bool>, after: seq<bool>, f: nat)
    requires f <= |before| == |after| && forall h :: f <= h < |before| ==> before[h] == after[h]
    ensures Changed(before, after, f) == []
    decreases |before| - f
  {
    if f < |before| { NoFlags(before, after, f + 1); }
  }

  function Witnessed(st: C.State, st': C.State, p: nat): seq<Deed>
    requires |st.flags| == |st'.flags|
  {
    Changed(st.flags, st'.flags, 0)
    + (if p < |st.meals| && p < |st'.meals| && st'.meals[p] > st.meals[p] then [Dines] else [])
  }

  function Deeds(states: seq<C.State>, actions: seq<C.Action>, p: nat): seq<Deed>
    requires |states| == |actions| + 1
  {
    if actions == [] then []
    else
      var k := |actions| - 1;
      Deeds(states[..k + 1], actions[..k], p)
      + if actions[k].p == p && |states[k].flags| == |states[k + 1].flags| then
          Witnessed(states[k], states[k + 1], p) else []
  }

  function Course(n: nat, p: nat): seq<Deed>
    requires p < n
  {
    [Marks(Lower(n, p)), Marks(Higher(n, p)), Dines, Clears(Higher(n, p)), Clears(Lower(n, p))]
  }

  // How far into its course a philosopher is.
  function Come(pc: C.Pc): nat {
    match pc
    case Thinking => 0
    case Entering(turn) => if turn == P.First then 0 else 1
    case Testing(turn) => if turn == P.First then 0 else 1
    case Parked(turn) => if turn == P.First then 0 else 1
    case Waking(turn) => if turn == P.First then 0 else 1
    case Marking(turn) => if turn == P.First then 0 else 1
    case Leaving(turn) => if turn == P.First then 1 else 2
    case Eating => 2
    case Returning(turn) => if turn == P.Second then 3 else 4
    case Clearing(turn) => if turn == P.Second then 3 else 4
    case Notifying(turn) => if turn == P.Second then 4 else 0
    case Closing(turn) => if turn == P.Second then 4 else 0
  }

  lemma FlagSeen(st: C.State, a: C.Action)
    requires C.Inv(st) && C.Enabled(st, a) && (st.phils[a.p].Marking? || st.phils[a.p].Clearing?)
    ensures var pc, st' := st.phils[a.p], C.Next(st, a);
      |st'.flags| == |st.flags| && Witnessed(st, st', a.p) ==
        [if pc.Marking? then Marks(st.ForkAt(a.p, pc.turn)) else Clears(st.ForkAt(a.p, pc.turn))]
  {
    var p, pc := a.p, st.phils[a.p];
    var g := st.ForkAt(p, pc.turn);
    assert C.PhilOk(st, p) && C.ForkOk(st, g);
    assert pc.Clearing? ==> C.Has(st.phils, p, g);
    hide P.ForkOf, C.PhilOk, C.ForkOk, C.Has, Changed;
    OneFlag(st.flags, C.Next(st, a).flags, g, 0);
  }

  lemma NothingSeen(st: C.State, a: C.Action)
    requires st.Sized() && C.Enabled(st, a) && !(st.phils[a.p].Marking? || st.phils[a.p].Clearing?)
    ensures var st' := C.Next(st, a);
      |st'.flags| == |st.flags| && Witnessed(st, st', a.p) == if st.phils[a.p].Eating? then [Dines] else []
  {
    hide P.ForkOf, Changed;
    NoFlags(st.flags, C.Next(st, a).flags, 0);
  }

  lemma Moves(st: C.State, a: C.Action)
    requires st.Sized() && C.Enabled(st, a)
    ensures a.p < |st.phils| == |C.Next(st, a).phils|
    ensures var d, d' := Come(st.phils[a.p]), Come(C.Next(st, a).phils[a.p]);
      if st.phils[a.p].Marking? || st.phils[a.p].Clearing? || st.phils[a.p].Eating?
      then d' == if d == 4 then 0 else d + 1 else d' == d
  {
    hide P.ForkOf;
  }

  lemma StepWitnessed(st: C.State, a: C.Action)
    requires C.Inv(st) && C.Enabled(st, a)
    ensures |C.Next(st, a).flags| == |st.flags| && a.p < |st.phils| == |C.Next(st, a).phils|
    ensures var e, d, d' := Witnessed(st, C.Next(st, a), a.p), Come(st.phils[a.p]), Come(C.Next(st, a).phils[a.p]);
      var course := Course(|st.phils|, a.p);
      if e == [] then d' == d else e == [course[d]] && d' == if d == 4 then 0 else d + 1
  {
    ForksAre(|st.phils|, a.p);
    Moves(st, a);
    if st.phils[a.p].Marking? || st.phils[a.p].Clearing? { FlagSeen(st, a); } else { NothingSeen(st, a); }
    hide P.ForkOf, Lower, Higher, Witnessed, C.Next, C.Inv;
  }

  // Others' steps do not move a philosopher but to wake it.
  lemma OthersStay(st: C.State, a: C.Action, p: nat)
    requires st.Sized() && C.Enabled(st, a) && p < |st.phils| && p != a.p
    ensures Come(C.Next(st, a).phils[p]) == Come(st.phils[p])
  {
  }

  lemma TurnOf(r: C.Run, n: nat)
    requires C.ValidRun(r) && 0 < n <= |r.actions|
    ensures C.Step(r.states[n - 1], r.actions[n - 1], r.states[n])
  {
  }

  lemma DeedsStep(r: C.Run, n: nat, p: nat)
    requires 0 < n <= |r.actions| < |r.states| && |r.states[n - 1].flags| == |r.states[n].flags|
    ensures Deeds(r.states[..n + 1], r.actions[..n], p) ==
      Deeds(r.states[..n], r.actions[..n - 1], p)
      + if r.actions[n - 1].p == p then Witnessed(r.states[n - 1], r.states[n], p) else []
  {
    assert r.states[..n + 1][..n] == r.states[..n] && r.actions[..n][..n - 1] == r.actions[..n - 1];
    hide Witnessed;
  }

  // One step of anybody, seen from philosopher `p`.
  lemma AnyTurn(st: C.State, a: C.Action, st': C.State, p: nat)
    requires C.Inv(st) && C.Step(st, a, st') && p < |st.phils|
    ensures C.Inv(st') && |st'.phils| == |st.phils| && |st.flags| == |st'.flags|
    ensures var e, d, d' := if a.p == p then Witnessed(st, st', p) else [], Come(st.phils[p]), Come(st'.phils[p]);
      if e == [] then d' == d else e == [Course(|st.phils|, p)[d]] && d' == if d == 4 then 0 else d + 1
  {
    hide Witnessed, Course, Come, C.PhilOk, C.ForkOk;
    C.Keeps(st, a);
    StepWitnessed(st, a);
    if a.p != p { OthersStay(st, a, p); }
    hide C.Next, C.Inv;
  }

  lemma CourseSize(n: nat, p: nat)
    requires p < n
    ensures |Course(n, p)| == 5
  {
  }

  // Main result for this variant: whatever the others do, a number of whole courses and the beginning of one.
  lemma {:induction false} InCourses(r: C.Run, n: nat, p: nat)
    requires C.ValidRun(r) && C.Init(r.states[0]) && n <= |r.actions| && p < |r.states[0].phils|
    ensures C.Inv(r.states[n]) && |r.states[n].phils| == |r.states[0].phils|
    ensures Repeats(Deeds(r.states[..n + 1], r.actions[..n], p), Course(|r.states[0].phils|, p),
                    Come(r.states[n].phils[p]))
  {
    assert |r.states| == |r.actions| + 1;
    hide Witnessed, Course, Come, Repeats, Deeds, C.ValidRun, C.Init, C.Inv, C.Step;
    if n == 0 {
      C.InitOk(r.states[0]);
      CoursesStart(r, p);
    } else {
      InCourses(r, n - 1, p);
      var st, a := r.states[n - 1], r.actions[n - 1];
      TurnOf(r, n);
      AnyTurn(st, a, r.states[n], p);
      DeedsStep(r, n, p);
      if a.p == p && Witnessed(st, r.states[n], p) != [] {
        CourseSize(|st.phils|, p);
        RepeatsOn(Deeds(r.states[..n], r.actions[..n - 1], p), Course(|st.phils|, p), Come(st.phils[p]),
                  Course(|st.phils|, p)[Come(st.phils[p])]);
      }
    }
  }

  lemma CoursesStart(r: C.Run, p: nat)
    requires C.ValidRun(r) && C.Init(r.states[0]) && p < |r.states[0].phils|
    ensures Repeats(Deeds(r.states[..1], r.actions[..0], p), Course(|r.states[0].phils|, p), Come(r.states[0].phils[p]))
  {
    hide Witnessed, C.Step;
    CourseSize(|r.states[0].phils|, p);
    assert r.actions[..0] == [] && Deeds(r.states[..1], r.actions[..0], p) == [];
    assert r.states[0].phils[p] == C.Thinking;
    hide Course, C.ValidRun;
  }
}
