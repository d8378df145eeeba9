/**
 When runs of useful steps end although futures move between tasks.  Between two steps that get work done, the
 waiters list can overflow only a bounded number of times, if, whichever futures occupy the slots, the others
 cannot be polled by more different tasks at once than the list has room for.

 The proof counts, for a least set of futures and tasks that covers the waiting futures' possible polls, the
 wake-ups and polls these futures still have and the listed tasks outside the cover.
 */
module BlockingChoice {
  import opened Prelude
  import opened BlockingPool
  import opened BlockingInvariant
  import opened BlockingRuns
  import opened BlockingProgress
  import opened BlockingWaiters
  import opened Matching
  import L = BlockingLivelock
  import T = BlockingTermination

  // ---------------------------------------------------------------- the condition

  // Future `i` may be polled by any task in `of[i]`.
  predicate MayFollow(a: Action, of: seq<set<Task>>) {
    a.Poll? ==> a.i < |of| && a.t in of[a.i]
  }

  // One of its tasks for each future.
  ghost predicate Chosen(c: seq<Task>, of: seq<set<Task>>) {
    |c| == |of| && forall i :: 0 <= i < |of| ==> c[i] in of[i]
  }

  // However a task is chosen for each future, the tasks fit.
  ghost predicate AllFit(of: seq<set<Task>>, slots: nat, cap: nat) {
    forall c :: Chosen(c, of) ==> Fits(c, slots, cap)
  }

  ghost predicate NoneEmpty(of: seq<set<Task>>) { forall i :: 0 <= i < |of| ==> of[i] != {} }

  // The tasks of the futures outside `o`.
  function Wishes(of: seq<set<Task>>, o: set<nat>): map<nat, set<Task>> {
    map i | 0 <= i < |of| && i !in o :: of[i]
  }

  ghost predicate SmallCover(of: seq<set<Task>>, o: set<nat>, cap: nat, f: set<nat>, q: set<Task>) {
    Covers(Wishes(of, o), f, q) && |f| + |q| <= cap
  }

  lemma {:induction false} ValueCount(m: map<nat, nat>)
    requires forall x, y :: x in m && y in m && x != y ==> m[x] != m[y]
    ensures |m.Values| == |m|
    decreases |m|
  {
    if m != map[] {
      var x :| x in m;
      var m' := m - {x};
      assert m.Keys == m'.Keys + {x};
      assert m.Values == m'.Values + {m[x]} by {
        assert forall z :: z in m' ==> m'[z] == m[z];
        assert forall z :: z in m ==> z == x || z in m';
      }
      ValueCount(m');
    }
  }

  // If all choices fit, a small set of futures and tasks covers what the futures outside `o` may be polled by.
  lemma CoverExists(of: seq<set<Task>>, o: set<nat>, cap: nat) returns (f: set<nat>, q: set<Task>)
    requires AllFit(of, |o|, cap) && NoneEmpty(of) && Among(o, |of|)
    ensures SmallCover(of, o, cap, f, q)
  {
    var g := Wishes(of, o);
    assert Covers(g, g.Keys, {});
    f, q := LeastExists(g, g.Keys, {});
    var m := LeastIsServed(g, f, q);
    var c := Choice(of, o, m);
    ValueCount(m);
    assert m.Values <= TasksWithout(c, o) by {
      forall i | i in m ensures m[i] in TasksWithout(c, o) {
        assert c[i] == m[i];
      }
    }
    T.Subset(m.Values, TasksWithout(c, o));
    assert Fits(c, |o|, cap);
    hide Least, Covers, Matches, TasksWithout;
  }

  lemma Choice(of: seq<set<Task>>, o: set<nat>, m: map<nat, nat>) returns (c: seq<Task>)
    requires NoneEmpty(of) && Matches(m, Wishes(of, o))
    ensures Chosen(c, of)
    ensures forall i :: i in m ==> i < |c| && i !in o && c[i] == m[i]
  {
    c := seq(|of|, i requires 0 <= i < |of| => if i in m then m[i] else Any(of[i]));
    assert forall i :: i in m ==> i in Wishes(of, o) && m[i] in Wishes(of, o)[i];
  }

  ghost function Any(s: set<Task>): (t: Task)
    requires s != {}
    ensures t in s
  {
    var t :| t in s;
    t
  }

  // ---------------------------------------------------------------- what is left of wake-ups and listed tasks

  function Awake(st: State, f: set<nat>): set<nat> {
    set i | i in f && i < |st.futs| && st.futs[i].woken
  }

  function Searching(st: State, f: set<nat>): set<nat> {
    set i | i in f && i < |st.futs| && (st.At(i).ClaimLock? || st.At(i).ClaimScan?)
  }

  function Left(st: State, f: set<nat>, q: set<Task>): nat {
    |Awake(st, f)| + |Searching(st, f)| + |st.waiters - q|
  }

  lemma LeftBounded(st: State, f: set<nat>, q: set<Task>)
    requires |st.waiters| <= st.cap
    ensures Left(st, f, q) <= 2 * |f| + st.cap
  {
    T.Subset(Awake(st, f), f);
    T.Subset(Searching(st, f), f);
    T.Subset(st.waiters - q, st.waiters);
  }

  // The action finishes the search of future `i`, which puts its task on the list.
  predicate Registers(st: State, a: Action) {
    a.FutStep? && a.i < |st.futs| && st.At(a.i).ClaimScan? && st.At(a.i).j >= |st.slots|
  }

  // A step of a poll that comes to nothing, other than a registration.
  lemma QuietFut(st: State, i: nat)
    requires Inv(st) && FutReady(st, i) && !FutFaults(st, i) && T.Idling(st, i) && !Registers(st, FutStep(i))
    ensures var r := FutNext(st, i);
      && r.waiters == st.waiters && r.futs[i].woken == st.futs[i].woken
      && (r.At(i).ClaimLock? || r.At(i).ClaimScan? ==> st.At(i).ClaimLock? || st.At(i).ClaimScan?)
      && forall j :: 0 <= j < |st.futs| && j != i ==> r.futs[j] == st.futs[j]
  {
    hide WorkOk, SlotOk, GlobalOk;
    assert FutOk(st, i);
    hide Inv, FutOk;
  }

  lemma PollLeft(st: State, i: nat, t: Task, f: set<nat>, q: set<Task>)
    requires i < |st.futs| && st.At(i).Parked? && st.futs[i].woken
    ensures Left(PollStart(st, i, t), f, q) <= Left(st, f, q)
  {
    var st' := PollStart(st, i, t);
    if i in f {
      assert Awake(st', f) == Awake(st, f) - {i} && i in Awake(st, f);
      T.Subset(Searching(st', f), Searching(st, f) + {i});
    } else {
      assert Awake(st', f) == Awake(st, f) && Searching(st', f) == Searching(st, f);
    }
  }

  lemma QuietLeft(st: State, a: Action, f: set<nat>, q: set<Task>)
    requires Inv(st) && Enabled(st, a) && !Faults(st, a) && Useful(st, a) && T.IdlePoll(st, a) && !Registers(st, a)
    ensures Left(Next(st, a), f, q) <= Left(st, f, q)
  {
    hide FutNext, FutFaults, GlobalOk, FutOk, WorkOk, SlotOk;
    var st' := Next(st, a);
    if a.Poll? {
      PollLeft(st, a.i, a.t, f, q);
    } else {
      QuietFut(st, a.i);
      hide Inv, T.Idling;
      assert Awake(st', f) == Awake(st, f);
      T.Subset(Searching(st', f), Searching(st, f));
    }
  }

  // ---------------------------------------------------------------- registrations

  // What a registration does to wake-ups and searches.
  lemma RegisterEffect(st: State, i: nat)
    requires Shape(st) && FutReady(st, i) && !FutFaults(st, i) && Registers(st, FutStep(i))
    ensures var r, t := FutNext(st, i), st.futs[i].task;
      && r.waiters == (if t in st.waiters then st.waiters
                       else if |st.waiters| < st.cap then st.waiters + {t} else {t})
      && !r.At(i).ClaimLock? && !r.At(i).ClaimScan?
      && (forall j :: 0 <= j < |st.futs| ==>
            && (j != i ==> r.At(j) == st.At(j))
            && (r.futs[j].woken ==> st.futs[j].woken || T.Overflows(st, FutStep(i)))
            && (st.futs[j].woken ==> r.futs[j].woken))
      && (r.futs[i].woken ==> st.futs[i].woken)
  {
  }

  // A registration without an overflow moves a search into the list at most.
  lemma RoomyLeft(st: State, i: nat, f: set<nat>, q: set<Task>)
    requires Shape(st) && FutReady(st, i) && !FutFaults(st, i) && Registers(st, FutStep(i))
    requires !T.Overflows(st, FutStep(i)) && (i in f || st.futs[i].task in q)
    ensures Left(FutNext(st, i), f, q) <= Left(st, f, q)
  {
    RegisterEffect(st, i);
    var st', t := FutNext(st, i), st.futs[i].task;
    hide FutNext, FutFaults, FutReady;
    assert Awake(st', f) == Awake(st, f);
    assert Searching(st', f) == Searching(st, f) - {i};
    assert st'.waiters == st.waiters + {t};
    hide Registers, T.Overflows;
    ListGrows(st.waiters, q, t);
    if i in f { assert i in Searching(st, f); }
    hide Awake, Searching;
  }

  lemma ListGrows(w: set<Task>, q: set<Task>, t: Task)
    ensures |(w + {t}) - q| <= |w - q| + if t in q then 0 else 1
  {
    assert (w + {t}) - q == if t in q then w - q else (w - q) + {t};
  }

  lemma SizeWithout(w: set<Task>, q: set<Task>)
    ensures |w - q| >= |w| - |q|
    ensures forall t :: t in q && t !in w ==> |w - q| >= |w| - |q| + 1
  {
    assert w == (w - q) + (w * q) && (w - q) !! (w * q);
    T.Subset(w * q, q);
    forall t | t in q && t !in w ensures |w - q| >= |w| - |q| + 1 {
      T.Subset(w * q, q - {t});
    }
  }

  // An overflow uses up at least one.
  lemma OverflowLeft(st: State, i: nat, f: set<nat>, q: set<Task>)
    requires Shape(st) && FutReady(st, i) && !FutFaults(st, i) && T.Overflows(st, FutStep(i))
    requires (i in f || st.futs[i].task in q) && |f| + |q| <= st.cap
    ensures Left(FutNext(st, i), f, q) < Left(st, f, q)
  {
    RegisterEffect(st, i);
    var st', t := FutNext(st, i), st.futs[i].task;
    hide FutNext, FutFaults;
    SizeWithout(st.waiters, q);
    assert Searching(st', f) == Searching(st, f) - {i};
    T.Subset(Awake(st', f), f);
    if t in q {
      assert st'.waiters - q == {};
    } else {
      assert st'.waiters - q == {t};
      assert i in Searching(st, f);
      if !st.futs[i].woken {
        T.Subset(Awake(st', f), f - {i});
      } else {
        assert i in Awake(st, f);
      }
    }
  }

  // ---------------------------------------------------------------- the measure

  function SeatedSet(st: State): set<nat> {
    set i | 0 <= i < |st.futs| && Seated(st, i)
  }

  // A small cover for the futures outside `o`, if there is one.
  ghost function CoverFor(of: seq<set<Task>>, o: set<nat>, cap: nat): (c: (set<nat>, set<Task>))
    ensures (exists f, q :: SmallCover(of, o, cap, f, q)) ==> SmallCover(of, o, cap, c.0, c.1)
    ensures |c.0| <= cap
  {
    if exists f, q :: SmallCover(of, o, cap, f, q) then
      var f, q :| SmallCover(of, o, cap, f, q);
      (f, q)
    else ({}, {})
  }

  ghost function Potential(st: State, of: seq<set<Task>>): nat {
    var c := CoverFor(of, SeatedSet(st), st.cap);
    Left(st, c.0, c.1)
  }

  // A future that looks for a slot was polled by one of its tasks.
  ghost predicate OwnTasks(st: State, of: seq<set<Task>>) {
    && |of| == |st.futs|
    && forall i :: 0 <= i < |st.futs| && (st.At(i).ClaimLock? || st.At(i).ClaimScan?) ==> st.futs[i].task in of[i]
  }

  lemma OwnTasksKeep(st: State, a: Action, of: seq<set<Task>>)
    requires Shape(st) && OwnTasks(st, of) && Enabled(st, a) && !Faults(st, a) && MayFollow(a, of)
    ensures OwnTasks(Next(st, a), of)
  {
    hide FutFaults, WorkFaults, FutNext, WorkNext;
    var st' := Next(st, a);
    forall i | 0 <= i < |st'.futs| && (st'.At(i).ClaimLock? || st'.At(i).ClaimScan?)
      ensures st'.futs[i].task in of[i]
    {
      ScanTask(st, a, i);
    }
  }

  // At a registration the futures that are not seated have a small cover.
  lemma CoverHere(st: State, of: seq<set<Task>>, i: nat)
    requires Inv(st) && Scans(st) && OwnTasks(st, of) && NoneEmpty(of) && AllFit(of, |st.slots|, st.cap)
    requires i < |st.futs| && st.At(i).ClaimScan? && st.At(i).j >= |st.slots|
    ensures var c := CoverFor(of, SeatedSet(st), st.cap);
      (i in c.0 || st.futs[i].task in c.1) && |c.0| + |c.1| <= st.cap
  {
    hide SlotOk, WorkOk, GlobalOk, AllFit, NoneEmpty, OneSeat;
    assert FutOk(st, i);
    var o :| PassedBy(st, |st.slots|, o);
    var f, q := CoverExists(of, o, st.cap);
    assert o <= SeatedSet(st);
    SmallerCover(of, o, SeatedSet(st), st.cap, f, q);
    var c := CoverFor(of, SeatedSet(st), st.cap);
    assert SmallCover(of, SeatedSet(st), st.cap, c.0, c.1);
    assert i in Wishes(of, SeatedSet(st)) && st.futs[i].task in Wishes(of, SeatedSet(st))[i];
  }

  lemma SmallerCover(of: seq<set<Task>>, o: set<nat>, o': set<nat>, cap: nat, f: set<nat>, q: set<Task>)
    requires SmallCover(of, o, cap, f, q) && o <= o'
    ensures SmallCover(of, o', cap, f * Wishes(of, o').Keys, q)
  {
    var g := Wishes(of, o');
    T.Subset(f * g.Keys, f);
    assert forall x :: x in g ==> x in Wishes(of, o) && g[x] == Wishes(of, o)[x];
  }

  lemma IdleUnseated(st: State, i: nat)
    requires Inv(st) && FutReady(st, i) && !FutFaults(st, i) && T.Idling(st, i) && Seated(FutNext(st, i), i)
    ensures Seated(st, i)
  {
    hide WorkOk, SlotOk, GlobalOk;
    assert FutOk(st, i);
    hide Inv, FutOk;
  }

  // A poll that comes to nothing seats nobody.
  lemma SeatedSame(st: State, a: Action)
    requires Inv(st) && Enabled(st, a) && !Faults(st, a) && T.IdlePoll(st, a)
    ensures SeatedSet(Next(st, a)) == SeatedSet(st)
  {
    hide FutFaults, FutNext, FutOk, SlotOk, WorkOk, GlobalOk;
    SeatsFrame(st, a);
    Frames(st, a);
    var st' := Next(st, a);
    forall i | 0 <= i < |st.futs| && Seated(st', i) ensures Seated(st, i) {
      if a == FutStep(i) { IdleUnseated(st, i); }
    }
    hide T.Idling, Inv;
  }

  lemma PotentialBounded(st: State, of: seq<set<Task>>)
    requires Inv(st)
    ensures Potential(st, of) <= 3 * st.cap
  {
    var c := CoverFor(of, SeatedSet(st), st.cap);
    LeftBounded(st, c.0, c.1);
  }

  // Polls that come to nothing do not add to what is left, and an overflow takes away from it.
  lemma PotentialFalls(st: State, a: Action, of: seq<set<Task>>)
    requires Sound(st) && Scans(st) && OwnTasks(st, of) && NoneEmpty(of) && AllFit(of, |st.slots|, st.cap)
    requires Enabled(st, a) && !Faults(st, a) && Useful(st, a) && T.IdlePoll(st, a)
    ensures Potential(Next(st, a), of) + (if T.Overflows(st, a) then 1 else 0) <= Potential(st, of)
  {
    hide FutFaults, FutNext, Inv, StartOk, WaitersOk, AllFit, NoneEmpty, CoverFor, Left, Scans, OwnTasks;
    SeatedSame(st, a);
    CapStays(st, a);
    var c := CoverFor(of, SeatedSet(st), st.cap);
    if Registers(st, a) {
      CoverHere(st, of, a.i);
      if T.Overflows(st, a) { OverflowLeft(st, a.i, c.0, c.1); } else { RoomyLeft(st, a.i, c.0, c.1); }
    } else {
      QuietLeft(st, a, c.0, c.1);
    }
  }

  // ---------------------------------------------------------------- steps and runs

  function Combined(major: nat, p: nat, minor: nat, c: nat, b: nat): nat {
    (major * (c + 1) + p) * (b + 1) + minor
  }

  // Lexicographic in the work left, what is left of wake-ups and listed tasks, and the polls under way.
  ghost function Rank(st: State, of: seq<set<Task>>): nat {
    Combined(T.Major(st), Potential(st, of), T.Minor(st), 3 * st.cap, T.MinorBound(st))
  }

  lemma RankFalls(major: nat, p: nat, minor: nat, major': nat, p': nat, minor': nat, c: nat, b: nat)
    requires p' <= c && minor' <= b
    requires major' < major || (major' == major && (p' < p || (p' == p && minor' < minor)))
    ensures Combined(major', p', minor', c, b) < Combined(major, p, minor, c, b)
  {
    var x, x' := major * (c + 1) + p, major' * (c + 1) + p';
    if major' < major { Multiples(major', major, c + 1); }
    if x' < x { Multiples(x', x, b + 1); }
  }

  lemma IdleFalls(st: State, a: Action)
    requires Sound(st) && Enabled(st, a) && !Faults(st, a) && Useful(st, a) && T.IdlePoll(st, a)
    requires !T.Overflows(st, a)
    ensures T.Minor(Next(st, a)) < T.Minor(st)
  {
    hide FutFaults, FutNext, FutOk, SlotOk, WorkOk, GlobalOk, FreeFrame, WaitersOk, T.Minor, T.Polling, T.Idling;
    match a
    case Poll(i, t) =>
      T.PollIdle(st, i, t);
      T.MinorOfFut(st, Next(st, a), i);
    case FutStep(i) =>
      T.IdleMinor(st, i);
      T.MinorOfFut(st, Next(st, a), i);
  }

  lemma SoundInv(st: State)
    requires Sound(st)
    ensures Inv(st)
  {
  }

  lemma SameBounds(st: State, a: Action)
    requires Shape(st) && Enabled(st, a) && !Faults(st, a)
    ensures Next(st, a).cap == st.cap && T.MinorBound(Next(st, a)) == T.MinorBound(st)
    ensures T.Minor(Next(st, a)) <= T.MinorBound(st)
  {
    CapStays(st, a);
    hide Enabled, Faults, Next, T.Minor;
    T.MinorBounded(Next(st, a));
  }

  // Work is done, or an overflow takes away what is left, or a poll gets shorter.
  lemma SomethingFalls(st: State, a: Action, of: seq<set<Task>>)
    requires Sound(st) && Scans(st) && OwnTasks(st, of) && NoneEmpty(of) && AllFit(of, |st.slots|, st.cap)
    requires Enabled(st, a) && !Faults(st, a) && (Useful(st, a) || a.Drop?)
    ensures var st' := Next(st, a);
      || T.Major(st') < T.Major(st)
      || (&& T.Major(st') == T.Major(st)
          && (|| Potential(st', of) < Potential(st, of)
              || (Potential(st', of) == Potential(st, of) && T.Minor(st') < T.Minor(st))))
  {
    assert Shape(st);
    hide Sound, Enabled, Faults, Next, T.Major, T.Minor, Potential, T.Idling, T.Overflows;
    hide Scans, OwnTasks, AllFit, NoneEmpty;
    T.StepMajor(st, a);
    if T.IdlePoll(st, a) {
      PotentialFalls(st, a, of);
      if !T.Overflows(st, a) { IdleFalls(st, a); }
    }
  }

  lemma StepFalls(st: State, a: Action, of: seq<set<Task>>)
    requires Sound(st) && Scans(st) && OwnTasks(st, of) && NoneEmpty(of) && AllFit(of, |st.slots|, st.cap)
    requires Enabled(st, a) && !Faults(st, a) && (Useful(st, a) || a.Drop?)
    ensures Rank(Next(st, a), of) < Rank(st, of)
  {
    assert Shape(st);
    hide Sound, Enabled, Faults, Next, Shape, T.Major, T.Minor, T.MinorBound, Potential, Combined;
    hide Scans, OwnTasks, AllFit, NoneEmpty, Useful;
    ActionKeeps(st, a);
    var st' := Next(st, a);
    SoundInv(st');
    PotentialBounded(st', of);
    SameBounds(st, a);
    SomethingFalls(st, a, of);
    RankFalls(T.Major(st), Potential(st, of), T.Minor(st), T.Major(st'), Potential(st', of), T.Minor(st'),
              3 * st.cap, T.MinorBound(st));
  }

  lemma {:induction false} RunFalls(r: Run, of: seq<set<Task>>, n: nat)
    requires Execution(r) && T.UsefulRun(r) && |of| == |r.states[0].futs| && n <= |r.actions|
    requires forall m :: 0 <= m < |r.actions| ==> MayFollow(r.actions[m], of)
    requires NoneEmpty(of) && AllFit(of, |r.states[0].slots|, r.states[0].cap)
    ensures Sound(r.states[n]) && Scans(r.states[n]) && OwnTasks(r.states[n], of)
    ensures SameSize(r.states[0], r.states[n]) && r.states[n].cap == r.states[0].cap
    ensures Rank(r.states[n], of) + n <= Rank(r.states[0], of)
  {
    InitScans(r.states[0], of);
    RunSound(r, n);
    hide Sound, AllFit, NoneEmpty, Rank, Enabled, Faults, Next, Useful, MayFollow, Scans, OwnTasks, Init;
    if n > 0 {
      RunFalls(r, of, n - 1);
      var st, a := r.states[n - 1], r.actions[n - 1];
      assert Step(st, a, r.states[n]);
      RunSound(r, n - 1);
      SoundInv(st);
      ScansKeep(st, a);
      OwnTasksKeep(st, a, of);
      CapStays(st, a);
      StepFalls(st, a, of);
    }
  }

  lemma InitScans(st: State, of: seq<set<Task>>)
    requires Init(st) && |of| == |st.futs|
    ensures Sound(st) && Scans(st) && OwnTasks(st, of)
  {
  }

  // Executions of useful steps and drops in which each future is polled by its tasks only.
  ghost predicate Configured(r: Run, of: seq<set<Task>>) {
    && Execution(r) && T.UsefulRun(r) && |of| == |r.states[0].futs|
    && forall n :: 0 <= n < |r.actions| ==> MayFollow(r.actions[n], of)
  }

  ghost predicate BoundedBy(st: State, of: seq<set<Task>>, b: nat) {
    forall r: Run :: Configured(r, of) && r.states[0] == st ==> |r.actions| <= b
  }

  lemma RankBounds(st: State, of: seq<set<Task>>)
    requires Init(st) && |of| == |st.futs| && NoneEmpty(of) && AllFit(of, |st.slots|, st.cap)
    ensures BoundedBy(st, of, Rank(st, of))
  {
    hide Init, NoneEmpty, AllFit, Rank, Step, T.UsefulRun, MayFollow;
    forall r: Run | Configured(r, of) && r.states[0] == st ensures |r.actions| <= Rank(st, of) {
      RunFalls(r, of, |r.actions|);
    }
  }

  // A choice that does not fit has executions of any length, and they are executions of all tasks.
  lemma NoBound(st: State, of: seq<set<Task>>, c: seq<Task>, b: nat)
    requires Init(st) && |of| == |st.futs| && Chosen(c, of) && !Fits(c, |st.slots|, st.cap)
    ensures !BoundedBy(st, of, b)
  {
    hide Init, Fits, Execution, T.UsefulRun;
    var r := L.NoBound(st, c, b + 1);
    forall n | 0 <= n < |r.actions| ensures MayFollow(r.actions[n], of) {
      assert Follows(r.actions[n], c);
    }
    assert Configured(r, of);
  }

  // Main result: when futures may move between tasks, a pool's executions are bounded exactly when, however one
  // of its tasks is chosen for each future and whichever futures occupy the slots, the others have no more tasks
  // than the list has room for.
  lemma BoundedExactly(st: State, of: seq<set<Task>>)
    requires Init(st) && |of| == |st.futs| && NoneEmpty(of)
    ensures (exists b: nat :: BoundedBy(st, of, b)) <==> AllFit(of, |st.slots|, st.cap)
  {
    hide Init, Fits, BoundedBy, Rank, Chosen;
    if AllFit(of, |st.slots|, st.cap) {
      RankBounds(st, of);
      assert BoundedBy(st, of, Rank(st, of));
    } else {
      var c :| Chosen(c, of) && !Fits(c, |st.slots|, st.cap);
      forall b: nat ensures !BoundedBy(st, of, b) {
        NoBound(st, of, c, b);
      }
    }
  }
}
