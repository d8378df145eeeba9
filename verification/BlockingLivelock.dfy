/**
 When runs of useful steps end.  With one task for each future they end within a bound exactly when, whichever
 futures occupy the slots, the others have no more tasks than the waiters list has room for.  Otherwise the
 polls of the waiting futures can push each other off the list, and wake each other, for ever.
 */
module BlockingLivelock {
  import opened Prelude
  import opened BlockingPool
  import opened BlockingInvariant
  import opened BlockingRuns
  import opened BlockingProgress
  import opened BlockingWaiters
  import T = BlockingTermination

  // ---------------------------------------------------------------- too many tasks wait

  function TasksOf(of: seq<Task>, w: set<nat>): set<Task> {
    set i | i in w && i < |of| :: of[i]
  }

  // A future without a slot that is looking for one or waiting for one, polled by its own task.
  predicate Looking(st: State, i: nat, of: seq<Task>) {
    && i < |st.futs| && i < |of| && !Seated(st, i)
    && ((st.At(i).Parked? && st.futs[i].woken) || st.futs[i].task == of[i])
  }

  // No slot is free, and the futures `w` look for one with more tasks than the list has room for.
  ghost predicate Crowded(st: State, w: set<nat>, of: seq<Task>) {
    && Sound(st)
    && (forall i :: i in w ==> Looking(st, i, of))
    && |TasksOf(of, w)| > st.cap
    && (forall s :: 0 <= s < |st.slots| ==> st.slots[s].state != Free)
    && (st.waitersLock.Some? ==> st.waitersLock.value.Fut? && st.waitersLock.value.i in w)
  }

  // The action is one of those futures' polls.
  predicate PollOf(a: Action, w: set<nat>) {
    (a.Poll? || a.FutStep?) && a.i in w
  }

  // The list cannot hold all their tasks, so when all are parked one of them is awake.
  lemma OneAwake(st: State, w: set<nat>, of: seq<Task>) returns (i: nat)
    requires Crowded(st, w, of) && forall i :: i in w ==> st.At(i).Parked?
    ensures i in w && st.futs[i].woken
  {
    hide SlotOk, WorkOk, StartOk, WaitersOk;
    var ts := TasksOf(of, w);
    if ts <= st.waiters {
      T.Subset(ts, st.waiters);
    }
    var t :| t in ts && t !in st.waiters;
    i :| i in w && i < |of| && of[i] == t;
    assert FutOk(st, i);
  }

  // Which poll goes on: the one that holds the lock, one that wants it, or that of a future that is awake.
  lemma NextPoll(st: State, w: set<nat>, of: seq<Task>) returns (a: Action)
    requires Crowded(st, w, of)
    ensures Enabled(st, a) && Useful(st, a) && PollOf(a, w) && Follows(a, of)
    ensures a.FutStep? ==> !st.At(a.i).Parked?
  {
    hide SlotOk, WorkOk, StartOk, WaitersOk;
    if st.waitersLock.Some? {
      a := FutStep(st.waitersLock.value.i);
    } else if i :| i in w && st.At(i).ClaimLock? {
      a := FutStep(i);
    } else {
      forall i | i in w ensures st.At(i).Parked? {
        assert FutOk(st, i);
      }
      var i := OneAwake(st, w, of);
      a := Poll(i, of[i]);
    }
  }

  lemma PollStep(st: State, i: nat)
    requires Inv(st) && FutReady(st, i) && !FutFaults(st, i) && !Seated(st, i)
    requires forall s :: 0 <= s < |st.slots| ==> st.slots[s].state != Free
    ensures var r := FutNext(st, i);
      && r.slots == st.slots && r.cap == st.cap && !Seated(r, i)
      && r.futs[i].task == st.futs[i].task
      && (r.waitersLock.None? || r.waitersLock == Some(Fut(i)))
  {
    hide SlotOk, WorkOk, GlobalOk;
    assert FutOk(st, i);
    hide Inv, FutOk;
  }

  lemma OthersLook(st: State, i: nat, j: nat)
    requires Inv(st) && FutReady(st, i) && !FutFaults(st, i) && j < |st.futs| && j != i
    requires st.At(i).ClaimLock? || st.At(i).ClaimScan? || st.At(i).ClaimUnlock?
    ensures var f, f' := st.futs[j], FutNext(st, i).futs[j];
      f'.pc == f.pc && f'.slot == f.slot && f'.task == f.task && (f.woken ==> f'.woken)
  {
    hide Inv;
  }

  lemma PollKeeps(st: State, w: set<nat>, of: seq<Task>, a: Action)
    requires Crowded(st, w, of) && Enabled(st, a) && PollOf(a, w) && Follows(a, of)
    requires a.FutStep? ==> !st.At(a.i).Parked?
    ensures !Faults(st, a) && Crowded(Next(st, a), w, of) && Next(st, a).slots == st.slots
  {
    hide FutFaults, FutNext, Inv, StartOk, WaitersOk, TasksOf;
    ActionKeeps(st, a);
    var st' := Next(st, a);
    if a.FutStep? {
      PollStep(st, a.i);
      forall j | j in w && j != a.i ensures Looking(st', j, of) {
        OthersLook(st, a.i, j);
      }
    }
  }

  // From a crowded state on there are runs of useful steps of every length, all of them polls of the futures
  // that wait, that change no slot.  They starve everybody else: the owners of the slots, who could free one,
  // take no step.  Nothing is said about a scheduler that lets every actor go on at last.
  lemma {:induction false} PollsForever(st: State, w: set<nat>, of: seq<Task>, k: nat) returns (r: Run)
    requires Crowded(st, w, of)
    ensures |r.actions| == k && ValidRun(r) && r.states[0] == st
    ensures forall n :: 0 <= n < k ==>
      Useful(r.states[n], r.actions[n]) && PollOf(r.actions[n], w) && Follows(r.actions[n], of)
    ensures Crowded(r.states[k], w, of) && r.states[k].slots == st.slots
  {
    if k == 0 {
      r := Run([st], []);
    } else {
      r := PollsForever(st, w, of, k - 1);
      hide Crowded, ValidRun, Enabled, Faults, Next, Useful, Follows;
      var last := r.states[k - 1];
      var a := NextPoll(last, w, of);
      PollKeeps(last, w, of, a);
      CrowdedShape(last, w, of);
      r := Append(r, a);
    }
  }

  // One more action at the end of a run.
  lemma Append(r: Run, a: Action) returns (r': Run)
    requires ValidRun(r)
    requires var st := r.states[|r.actions|]; Shape(st) && Enabled(st, a) && !Faults(st, a)
    ensures ValidRun(r') && r'.actions == r.actions + [a]
    ensures r'.states == r.states + [Next(r.states[|r.actions|], a)]
  {
    hide Enabled, Faults, Next, Shape;
    var st := r.states[|r.actions|];
    assert Step(st, a, Next(st, a));
    r' := Run(r.states + [Next(st, a)], r.actions + [a]);
    forall n | 0 <= n < |r'.actions| ensures Step(r'.states[n], r'.actions[n], r'.states[n + 1]) {
      if n < |r.actions| { assert Step(r.states[n], r.actions[n], r.states[n + 1]); }
    }
  }

  lemma CrowdedShape(st: State, w: set<nat>, of: seq<Task>)
    requires Crowded(st, w, of)
    ensures Shape(st)
  {
  }

  // In particular from every reachable state in which nobody holds the lock, no slot is free and more tasks
  // than the list has room for are used by futures that are parked without a slot.
  lemma ParkedAreCrowded(st: State, w: set<nat>)
    requires Reachable(st) && st.waitersLock.None?
    requires forall s :: 0 <= s < |st.slots| ==> st.slots[s].state != Free
    requires forall i :: i in w ==> i < |st.futs| && st.At(i).Parked? && st.futs[i].slot.None?
    requires |set i | i in w :: st.futs[i].task| > st.cap
    ensures Crowded(st, w, seq(|st.futs|, i requires 0 <= i < |st.futs| => st.futs[i].task))
  {
    ReachableSound(st);
    var of := seq(|st.futs|, i requires 0 <= i < |st.futs| => st.futs[i].task);
    assert TasksOf(of, w) == set i | i in w :: st.futs[i].task;
    hide Sound;
  }

  // ---------------------------------------------------------------- the slots are taken

  // Executions of useful steps and drops in which future `i` is polled by task `of[i]`.
  ghost predicate Configured(r: Run, of: seq<Task>) {
    && Execution(r) && T.UsefulRun(r) && |of| == |r.states[0].futs|
    && forall n :: 0 <= n < |r.actions| ==> Follows(r.actions[n], of)
  }

  function FreeSlots(st: State): set<nat> {
    set s | 0 <= s < |st.slots| && st.slots[s].state == Free
  }

  // The futures `w` are still to be polled for the first time.
  predicate Untouched(st: State, w: set<nat>) {
    forall i :: i in w ==> i < |st.futs| && st.At(i).Parked? && st.futs[i].slot.None? && st.futs[i].woken
  }

  // Future `i` is claiming one of the free slots; `free` are left when it has.
  ghost predicate ClaimUnderWay(st: State, i: nat, free: nat) {
    && Sound(st) && i < |st.futs|
    && match st.At(i)
       case ClaimLock => st.waitersLock.None? && |FreeSlots(st)| == free + 1
       case ClaimScan(j) =>
         && st.waitersLock == Some(Fut(i)) && |FreeSlots(st)| == free + 1
         && forall s :: 0 <= s < |st.slots| && s < j ==> st.slots[s].state != Free
       case ClaimUnlock(found) => found.Some? && st.waitersLock == Some(Fut(i)) && |FreeSlots(st)| == free
       case SetWaker(_) => st.waitersLock.None? && |FreeSlots(st)| == free
       case _ => false
  }

  // What is left of the claim.
  function ClaimLeft(st: State, i: nat): nat
    requires i < |st.futs|
  {
    match st.At(i)
    case ClaimLock => |st.slots| + 3
    case ClaimScan(j) => if j <= |st.slots| then |st.slots| + 2 - j else 0
    case ClaimUnlock(_) => 1
    case _ => 0
  }

  lemma ClaimMoves(st: State, i: nat, free: nat, w: set<nat>)
    requires ClaimUnderWay(st, i, free) && !st.At(i).SetWaker? && Untouched(st, w) && i !in w
    ensures FutReady(st, i) && !FutFaults(st, i) && ClaimUnderWay(FutNext(st, i), i, free)
    ensures ClaimLeft(FutNext(st, i), i) < ClaimLeft(st, i)
    ensures Untouched(FutNext(st, i), w)
  {
    assert FutReady(st, i);
    ActionKeeps(st, FutStep(i));
    ClaimMove(st, i, free);
    var st' := FutNext(st, i);
    forall j | j in w
      ensures j < |st'.futs| && st'.At(j).Parked? && st'.futs[j].slot.None? && st'.futs[j].woken
    {
      OthersLook(st, i, j);
    }
  }

  lemma FreeAhead(st: State, j: nat)
    requires FreeSlots(st) != {} && forall s :: 0 <= s < |st.slots| && s < j ==> st.slots[s].state != Free
    ensures j < |st.slots|
  {
    var s :| s in FreeSlots(st);
  }

  lemma ClaimMove(st: State, i: nat, free: nat)
    requires ClaimUnderWay(st, i, free) && !st.At(i).SetWaker? && !FutFaults(st, i)
    requires Sound(FutNext(st, i))
    ensures ClaimUnderWay(FutNext(st, i), i, free)
    ensures ClaimLeft(FutNext(st, i), i) < ClaimLeft(st, i)
  {
    hide Sound;
    if st.At(i).ClaimScan? {
      FreeAhead(st, st.At(i).j);
      ClaimScanned(st, i);
      hide FutNext;
    } else {
      assert FreeSlots(FutNext(st, i)) == FreeSlots(st);
    }
  }

  lemma ClaimScanned(st: State, i: nat)
    requires Shape(st) && FutReady(st, i) && !FutFaults(st, i) && st.At(i).ClaimScan? && st.At(i).j < |st.slots|
    ensures var r, j := FutNext(st, i), st.At(i).j;
      && r.waitersLock == st.waitersLock && |r.slots| == |st.slots|
      && (if st.slots[j].state == Free then
            r.At(i) == ClaimUnlock(Some(j)) && FreeSlots(r) == FreeSlots(st) - {j} && j in FreeSlots(st)
          else r.At(i) == ClaimScan(j + 1) && r.slots == st.slots)
  {
  }

  lemma PollBegins(st: State, i: nat, t: Task, free: nat, w: set<nat>)
    requires Sound(st) && Untouched(st, w + {i}) && i !in w && st.waitersLock.None?
    requires |FreeSlots(st)| == free + 1
    ensures Enabled(st, Poll(i, t)) && Useful(st, Poll(i, t)) && ClaimUnderWay(PollStart(st, i, t), i, free)
    ensures Untouched(PollStart(st, i, t), w)
  {
    assert i in w + {i};
    ActionKeeps(st, Poll(i, t));
    hide Sound;
    assert FreeSlots(PollStart(st, i, t)) == FreeSlots(st);
  }

  ghost predicate ClaimDone(st: State, free: nat) {
    Sound(st) && st.waitersLock.None? && |FreeSlots(st)| == free
  }

  // An execution goes on by one useful action.
  lemma GoOn(r: Run, of: seq<Task>, a: Action) returns (r': Run)
    requires Configured(r, of)
    requires var st := r.states[|r.actions|];
      Shape(st) && Enabled(st, a) && !Faults(st, a) && Useful(st, a) && Follows(a, of)
    ensures Configured(r', of) && r'.states[0] == r.states[0] && |r'.actions| == |r.actions| + 1
    ensures r'.states[|r'.actions|] == Next(r.states[|r.actions|], a)
  {
    hide Init, Enabled, Faults, Next, Shape, Useful, Follows;
    r' := Append(r, a);
    hide ValidRun;
  }

  // One more future claims a slot.
  lemma Seat(r: Run, of: seq<Task>, i: nat, free: nat, w: set<nat>) returns (r': Run)
    requires Configured(r, of) && i < |of| && i !in w
    requires ClaimDone(r.states[|r.actions|], free + 1) && Untouched(r.states[|r.actions|], w + {i})
    ensures Configured(r', of) && r'.states[0] == r.states[0]
    ensures ClaimDone(r'.states[|r'.actions|], free) && Untouched(r'.states[|r'.actions|], w)
  {
    PollBegins(r.states[|r.actions|], i, of[i], free, w);
    hide Configured, Enabled, FutFaults, FutNext, FutReady, Untouched, PollStart, Sound, FreeSlots;
    r' := GoOn(r, of, Poll(i, of[i]));
    var st := r'.states[|r'.actions|];
    while !st.At(i).SetWaker?
      invariant Configured(r', of) && r'.states[0] == r.states[0] && |r'.states| == |r'.actions| + 1
      invariant st == r'.states[|r'.actions|] && ClaimUnderWay(st, i, free) && Untouched(st, w)
      decreases ClaimLeft(st, i)
    {
      ClaimMoves(st, i, free, w);
      r' := GoOn(r', of, FutStep(i));
      st := r'.states[|r'.actions|];
    }
  }

  lemma FirstFree(st: State, w: set<nat>)
    requires Init(st) && Among(w, |st.futs|)
    ensures ClaimDone(st, |st.slots|) && Untouched(st, w)
  {
    InitSound(st);
    assert FreeSlots(st) == Below(|st.slots|);
  }

  function Below(n: nat): (r: set<nat>)
    ensures |r| == n && forall i :: i in r <==> 0 <= i < n
  {
    if n == 0 then {} else Below(n - 1) + {n - 1}
  }

  lemma {:induction false} SeatRest(r: Run, of: seq<Task>, rest: set<nat>, w: set<nat>) returns (r': Run)
    requires Configured(r, of) && Among(rest, |of|) && rest !! w
    requires ClaimDone(r.states[|r.actions|], |rest|) && Untouched(r.states[|r.actions|], w + rest)
    ensures Configured(r', of) && r'.states[0] == r.states[0]
    ensures ClaimDone(r'.states[|r'.actions|], 0) && Untouched(r'.states[|r'.actions|], w)
    decreases |rest|
  {
    hide Execution, T.UsefulRun, Follows, ClaimDone, Untouched;
    if rest == {} {
      r' := r;
      assert w + rest == w;
    } else {
      var i :| i in rest;
      assert w + rest == w + (rest - {i}) + {i};
      r' := Seat(r, of, i, |rest| - 1, w + (rest - {i}));
      r' := SeatRest(r', of, rest - {i}, w);
    }
  }

  // From the start any futures, as many as there are slots, can come to the slots before the others do anything.
  lemma SeatAll(st: State, of: seq<Task>, o: set<nat>, w: set<nat>) returns (r: Run)
    requires Init(st) && |of| == |st.futs| && |o| == |st.slots| && o !! w
    requires Among(o, |of|) && Among(w, |of|)
    ensures Configured(r, of) && r.states[0] == st
    ensures ClaimDone(r.states[|r.actions|], 0) && Untouched(r.states[|r.actions|], w)
  {
    FirstFree(st, w + o);
    hide Init, ClaimDone, Untouched;
    r := SeatRest(Run([st], []), of, o, w);
  }

  // ---------------------------------------------------------------- the exact condition

  lemma NobodyFree(st: State, w: set<nat>, of: seq<Task>)
    requires ClaimDone(st, 0) && Untouched(st, w) && |of| == |st.futs| && |TasksOf(of, w)| > st.cap
    ensures Crowded(st, w, of)
  {
    hide Sound;
    forall s | 0 <= s < |st.slots| ensures st.slots[s].state != Free {
      assert s !in FreeSlots(st);
    }
  }

  // An execution goes on by another run.
  lemma Join(r: Run, r': Run, of: seq<Task>) returns (q: Run)
    requires Configured(r, of) && T.UsefulRun(r') && r'.states[0] == r.states[|r.actions|]
    requires forall n :: 0 <= n < |r'.actions| ==> Follows(r'.actions[n], of)
    ensures Configured(q, of) && q.states[0] == r.states[0] && |q.actions| == |r.actions| + |r'.actions|
  {
    hide Init, Step, Useful, Follows;
    var k := |r.actions|;
    q := Run(r.states + r'.states[1..], r.actions + r'.actions);
    assert forall n :: 0 <= n <= |r'.actions| ==> q.states[k + n] == r'.states[n];
    forall n | 0 <= n < |q.actions|
      ensures Step(q.states[n], q.actions[n], q.states[n + 1])
      ensures Useful(q.states[n], q.actions[n]) || q.actions[n].Drop?
      ensures Follows(q.actions[n], of)
    {
      if n < k {
        assert Step(r.states[n], r.actions[n], r.states[n + 1]);
      } else {
        assert Step(r'.states[n - k], r'.actions[n - k], r'.states[n - k + 1]);
        assert q.states[k + (n - k)] == r'.states[n - k] && q.states[k + (n - k + 1)] == r'.states[n - k + 1];
      }
    }
  }

  // Tasks that do not fit have executions of useful steps of any length.
  lemma NoBound(st: State, of: seq<Task>, k: nat) returns (r: Run)
    requires Init(st) && |of| == |st.futs| && !Fits(of, |st.slots|, st.cap)
    ensures Configured(r, of) && r.states[0] == st && |r.actions| >= k
  {
    var o: set<nat> :| |o| == |st.slots| && Among(o, |of|) && |TasksWithout(of, o)| > st.cap;
    var w := Below(|of|) - o;
    assert TasksOf(of, w) == TasksWithout(of, o);
    var first := SeatAll(st, of, o, w);
    Sizes(first, |first.actions|);
    hide Init, Configured, Crowded, ClaimDone, Untouched, Fits, Useful, TasksOf, TasksWithout;
    var last := first.states[|first.actions|];
    NobodyFree(last, w, of);
    var more := PollsForever(last, w, of, k);
    r := Join(first, more, of);
  }

  lemma {:induction false} Sizes(r: Run, n: nat)
    requires ValidRun(r) && n <= |r.actions| && Shape(r.states[0])
    ensures SameSize(r.states[0], r.states[n]) && r.states[n].cap == r.states[0].cap
  {
    if n > 0 {
      Sizes(r, n - 1);
      hide Enabled, Faults, Next;
      assert Step(r.states[n - 1], r.actions[n - 1], r.states[n]);
      CapStays(r.states[n - 1], r.actions[n - 1]);
    }
  }

  // No execution from `st` in which future `i` is polled by `of[i]` has more than `b` useful steps and drops.
  ghost predicate BoundedBy(st: State, of: seq<Task>, b: nat) {
    forall r: Run :: Configured(r, of) && r.states[0] == st ==> |r.actions| <= b
  }

  // Main result: a pool's executions are bounded exactly when the tasks fit.  The condition depends on the
  // tasks, the number of slots and the size of the list only.
  lemma BoundedExactly(st: State, of: seq<Task>)
    requires Init(st) && |of| == |st.futs|
    ensures (exists b: nat :: BoundedBy(st, of, b)) <==> Fits(of, |st.slots|, st.cap)
    ensures Fits(of, |st.slots|, st.cap) ==>
      BoundedBy(st, of, T.StepBound(|st.futs|, |st.slots|, |st.workers|))
  {
    hide Init, Fits;
    var most := T.StepBound(|st.futs|, |st.slots|, |st.workers|);
    if Fits(of, |st.slots|, st.cap) {
      forall r: Run | Configured(r, of) && r.states[0] == st ensures |r.actions| <= most {
        FitsIsRoomy(r, of);
        T.RoomyIsBounded(r);
      }
      assert BoundedBy(st, of, most);
    } else {
      forall b: nat ensures !BoundedBy(st, of, b) {
        var r := NoBound(st, of, b + 1);
      }
    }
  }

  lemma {:induction false} TaskCount(of: seq<Task>, w: set<nat>)
    requires Among(w, |of|)
    ensures |TasksOf(of, w)| <= |w|
    ensures NoDup(of) ==> |TasksOf(of, w)| == |w|
  {
    if w != {} {
      var x :| x in w;
      TaskCount(of, w - {x});
      assert TasksOf(of, w) == TasksOf(of, w - {x}) + {of[x]};
    }
  }

  lemma WithoutCount(of: seq<Task>, o: set<nat>)
    requires NoDup(of) && Among(o, |of|)
    ensures |TasksWithout(of, o)| == |of| - |o|
  {
    var w := Below(|of|) - o;
    assert TasksWithout(of, o) == TasksOf(of, w);
    assert Below(|of|) == w + o && w !! o;
    TaskCount(of, w);
  }

  // With a task of its own for every future, the tasks fit when there are no more futures than slots and
  // places on the list together.
  lemma OneTaskEach(of: seq<Task>, slots: nat, cap: nat)
    requires NoDup(of)
    ensures Fits(of, slots, cap) <==> |of| <= slots + cap
  {
    forall o: set<nat> | |o| == slots && Among(o, |of|)
      ensures |TasksWithout(of, o)| == |of| - slots
    {
      WithoutCount(of, o);
    }
    if slots <= |of| {
      var o := Below(slots);
      assert |o| == slots && Among(o, |of|);
    }
  }
}
