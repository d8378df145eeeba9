/**
 Whose tasks can be on the waiters list.  A scan that finds no free slot has passed as many futures that have
 come to a slot as there are slots, and those never wait again.  So all tasks on the list are tasks of other
 futures, and when those never have more tasks than the list has room for, nothing overflows.
 */
module BlockingWaiters {
  import opened Prelude
  import opened BlockingPool
  import opened BlockingInvariant
  import opened BlockingRuns
  import T = BlockingTermination

  // ---------------------------------------------------------------- futures at a slot

  // The future that occupies a slot, alive or not.
  function Occupant(p: Phase): Option<nat> {
    match p
    case PFree(_) => None
    case PClaimed(f) => Some(f)
    case PQueued(f) => Some(f)
    case PWork(_, f) => Some(f)
    case PDetached(_, f) => Some(f)
    case PDone(f, _) => Some(f)
    case PReleasing(f) => Some(f)
  }

  // The future has claimed a slot, or was dropped: it will not look for one again.
  predicate Seated(st: State, i: nat) {
    && i < |st.futs|
    && !(&& st.futs[i].slot.None?
         && (st.At(i).Parked? || st.At(i).ClaimLock? || st.At(i).ClaimScan? ||
             (st.At(i).ClaimUnlock? && st.At(i).found.None?)))
  }

  ghost predicate AllSeated(st: State, o: set<nat>) {
    forall i :: i in o ==> Seated(st, i)
  }

  // The action claims slot `s`.
  predicate Claims(st: State, a: Action, s: nat) {
    && s < |st.slots| && st.slots[s].state == Free
    && a.FutStep? && a.i < |st.futs| && st.At(a.i) == ClaimScan(s)
  }

  // Seated futures stay so; a slot gets a new occupant only by a claim.
  ghost predicate SeatFrame(st: State, st': State, a: Action)
    requires SameSize(st, st')
  {
    && (forall i :: 0 <= i < |st.futs| && Seated(st, i) ==> Seated(st', i))
    && (forall s :: 0 <= s < |st.slots| ==>
          || Occupant(st'.phase[s]) == Occupant(st.phase[s])
          || st'.phase[s].PFree?
          || (Claims(st, a, s) && Occupant(st'.phase[s]) == Some(a.i) && Seated(st', a.i)))
  }

  lemma SeatStays(st: State, i: nat)
    requires Inv(st) && FutReady(st, i) && !FutFaults(st, i) && Seated(st, i)
    ensures Seated(FutNext(st, i), i)
  {
    hide WorkOk, SlotOk, GlobalOk;
    assert FutOk(st, i);
    hide Inv;
    if !Arriving(st.At(i)) { LeavingSeat(st, i); }
  }

  lemma LeavingSeat(st: State, i: nat)
    requires Shape(st) && FutReady(st, i) && !FutFaults(st, i) && !Arriving(st.At(i))
    ensures Seated(FutNext(st, i), i)
  {
  }

  lemma ArrivingPhase(st: State, i: nat, s: nat)
    requires Shape(st) && FutReady(st, i) && !FutFaults(st, i) && Arriving(st.At(i)) && FutOk(st, i)
    requires s < |st.slots| && st.At(i) != ClaimScan(s)
    ensures Occupant(FutNext(st, i).phase[s]) == Occupant(st.phase[s])
  {
  }

  lemma ClaimPhase(st: State, i: nat, s: nat)
    requires Shape(st) && FutReady(st, i) && !FutFaults(st, i) && st.At(i) == ClaimScan(s) && s < |st.slots|
    ensures var r := FutNext(st, i);
      if st.slots[s].state == Free then Occupant(r.phase[s]) == Some(i) && Seated(r, i)
      else r.phase[s] == st.phase[s]
  {
  }

  lemma LeavingPhase(st: State, i: nat, s: nat)
    requires Shape(st) && FutReady(st, i) && !FutFaults(st, i) && !Arriving(st.At(i)) && FutOk(st, i)
    requires s < |st.slots|
    ensures Occupant(FutNext(st, i).phase[s]) == Occupant(st.phase[s]) || FutNext(st, i).phase[s].PFree?
  {
  }

  lemma FutSeats(st: State, i: nat)
    requires Inv(st) && FutReady(st, i) && !FutFaults(st, i)
    ensures SeatFrame(st, FutNext(st, i), FutStep(i))
  {
    hide FutFaults, FutNext, WorkOk, SlotOk, GlobalOk, FutOk;
    assert FutOk(st, i);
    Frames(st, FutStep(i));
    if Seated(st, i) { SeatStays(st, i); }
    forall s | 0 <= s < |st.slots|
      ensures var p, p' := st.phase[s], FutNext(st, i).phase[s];
        || Occupant(p') == Occupant(p)
        || p'.PFree?
        || (Claims(st, FutStep(i), s) && Occupant(p') == Some(i) && Seated(FutNext(st, i), i))
    {
      if st.At(i) == ClaimScan(s) { ClaimPhase(st, i, s); }
      else if Arriving(st.At(i)) { ArrivingPhase(st, i, s); }
      else { LeavingPhase(st, i, s); }
    }
  }

  lemma EarlyPhase(st: State, k: nat, v: int, keep: bool, s: nat)
    requires Shape(st) && WorkReady(st, k) && !WorkFaults(st, k) && Early(st.workers[k]) && s < |st.slots|
    ensures Occupant(WorkNext(st, k, v, keep).phase[s]) == Occupant(st.phase[s])
  {
  }

  lemma LatePhase(st: State, k: nat, v: int, keep: bool, s: nat)
    requires Shape(st) && WorkReady(st, k) && !WorkFaults(st, k) && !Early(st.workers[k]) && s < |st.slots|
    ensures var p, p' := st.phase[s], WorkNext(st, k, v, keep).phase[s];
      Occupant(p') == Occupant(p) || p'.PFree?
  {
  }

  lemma WorkSeats(st: State, k: nat, v: int, keep: bool)
    requires Shape(st) && WorkReady(st, k) && !WorkFaults(st, k)
    ensures SeatFrame(st, WorkNext(st, k, v, keep), WorkStep(k, v, keep))
  {
    hide WorkFaults, WorkNext;
    Frames(st, WorkStep(k, v, keep));
    forall s | 0 <= s < |st.slots|
      ensures var p, p' := st.phase[s], WorkNext(st, k, v, keep).phase[s];
        Occupant(p') == Occupant(p) || p'.PFree?
    {
      if Early(st.workers[k]) { EarlyPhase(st, k, v, keep, s); } else { LatePhase(st, k, v, keep, s); }
    }
  }

  lemma SeatsFrame(st: State, a: Action)
    requires Inv(st) && Enabled(st, a) && !Faults(st, a)
    ensures SeatFrame(st, Next(st, a), a)
  {
    hide FutFaults, WorkFaults, FutNext, WorkNext, FutOk, SlotOk, WorkOk, GlobalOk;
    match a
    case Poll(i, _) =>
    case Drop(i) =>
    case FutStep(i) => FutSeats(st, i);
    case WorkStep(k, v, keep) => WorkSeats(st, k, v, keep);
  }

  // Every occupant is seated and occupies one slot only.
  ghost predicate OneSeat(st: State)
    requires Shape(st)
  {
    && (forall s :: 0 <= s < |st.slots| && Occupant(st.phase[s]).Some? ==> Seated(st, Occupant(st.phase[s]).value))
    && (forall s, t :: 0 <= s < t < |st.slots| && Occupant(st.phase[s]).Some? ==>
          Occupant(st.phase[s]) != Occupant(st.phase[t]))
  }

  // ---------------------------------------------------------------- what waits

  // The tasks of the futures outside `o`, when future `i` is polled by task `of[i]`.
  function TasksWithout(of: seq<Task>, o: set<nat>): set<Task> {
    set i | 0 <= i < |of| && i !in o :: of[i]
  }

  // The list holds only tasks of futures outside `o`.
  ghost predicate ListedBy(st: State, of: seq<Task>, o: set<nat>) {
    AllSeated(st, o) && |o| == |st.slots| && st.waiters <= TasksWithout(of, o)
  }

  // The first `j` slots were passed by a scan when `o` occupied them.
  ghost predicate PassedBy(st: State, j: nat, o: set<nat>)
    requires Shape(st)
  {
    && AllSeated(st, o) && |o| == j
    && forall s :: j <= s < |st.slots| && Occupant(st.phase[s]).Some? ==> Occupant(st.phase[s]).value !in o
  }

  // What a scan has passed was occupied, one future for each slot.
  ghost predicate Scans(st: State)
    requires Shape(st)
  {
    && OneSeat(st)
    && forall i :: 0 <= i < |st.futs| && st.At(i).ClaimScan? ==> exists o :: PassedBy(st, st.At(i).j, o)
  }

  ghost predicate Waiting(st: State, of: seq<Task>)
    requires Shape(st)
  {
    && |of| == |st.futs| && Scans(st)
    && (forall i :: 0 <= i < |st.futs| && (st.At(i).ClaimLock? || st.At(i).ClaimScan?) ==>
          st.futs[i].task == of[i])
    && (st.waiters == {} || exists o :: ListedBy(st, of, o))
  }

  // Future `i` is polled by task `of[i]`.
  predicate Follows(a: Action, of: seq<Task>) {
    a.Poll? ==> a.i < |of| && a.t == of[a.i]
  }

  lemma OneSeatKeeps(st: State, a: Action)
    requires Inv(st) && OneSeat(st) && Enabled(st, a) && !Faults(st, a)
    ensures OneSeat(Next(st, a))
  {
    hide FutFaults, WorkFaults, FutNext, WorkNext, SlotOk, WorkOk, GlobalOk;
    SeatsFrame(st, a);
    if a.FutStep? && st.At(a.i).ClaimScan? { assert FutOk(st, a.i); }
    hide FutOk, Inv, Next, Enabled, Faults;
  }

  // The task of a future that looks for a slot is that of its poll.
  lemma ScanTask(st: State, a: Action, i: nat)
    requires Shape(st) && Enabled(st, a) && !Faults(st, a)
    requires i < |Next(st, a).futs| && (Next(st, a).At(i).ClaimLock? || Next(st, a).At(i).ClaimScan?)
    ensures || (a.Poll? && a.i == i && Next(st, a).futs[i].task == a.t)
            || ((st.At(i).ClaimLock? || st.At(i).ClaimScan?) && Next(st, a).futs[i].task == st.futs[i].task)
  {
    hide FutFaults, WorkFaults, FutNext, WorkNext;
    Frames(st, a);
    if a == FutStep(i) { ScanEntry(st, i); }
  }

  lemma ScanEntry(st: State, i: nat)
    requires Shape(st) && FutReady(st, i) && !FutFaults(st, i)
    requires FutNext(st, i).At(i).ClaimLock? || FutNext(st, i).At(i).ClaimScan?
    ensures st.At(i).ClaimLock? || st.At(i).ClaimScan?
    ensures FutNext(st, i).futs[i].task == st.futs[i].task && FutNext(st, i).phase == st.phase
  {
  }

  lemma OneScan(st: State, i: nat, j: nat)
    requires Inv(st) && i < |st.futs| && j < |st.futs| && st.At(i).ClaimScan? && st.At(j).ClaimScan?
    ensures i == j
  {
    hide WorkOk, SlotOk, GlobalOk;
    assert FutOk(st, i) && FutOk(st, j);
  }

  lemma PassedKeeps(st: State, a: Action, i: nat)
    requires Inv(st) && Scans(st) && Enabled(st, a) && !Faults(st, a)
    requires i < |Next(st, a).futs| && Next(st, a).At(i).ClaimScan?
    ensures Shape(Next(st, a)) && exists o :: PassedBy(Next(st, a), Next(st, a).At(i).j, o)
  {
    hide FutFaults, WorkFaults, FutNext, WorkNext, FutOk, SlotOk, WorkOk, GlobalOk;
    Frames(st, a);
    SeatsFrame(st, a);
    var st' := Next(st, a);
    if a == FutStep(i) {
      ScanEntry(st, i);
      ScanSource(st, i);
      var j := st'.At(i).j;
      if j == 0 {
        assert PassedBy(st', j, {});
      } else {
        var o :| PassedBy(st, j - 1, o);
        NotFreePhase(st, j - 1);
        var f := Occupant(st.phase[j - 1]).value;
        assert PassedBy(st', j, o + {f});
      }
    } else {
      var j := st.At(i).j;
      var o :| PassedBy(st, j, o);
      if a.FutStep? && st.At(a.i).ClaimScan? { OneScan(st, i, a.i); }
      assert PassedBy(st', j, o);
    }
  }

  lemma ListStep(st: State, i: nat)
    requires Shape(st) && FutReady(st, i) && !FutFaults(st, i) && st.At(i).ClaimScan? && st.At(i).j >= |st.slots|
    ensures var r := FutNext(st, i);
      && r.waiters <= st.waiters + {st.futs[i].task}
      && (T.Overflows(st, FutStep(i)) ==> r.waiters == {st.futs[i].task})
  {
  }

  lemma ListedKeeps(st: State, a: Action, of: seq<Task>)
    requires Inv(st) && Waiting(st, of) && Enabled(st, a) && !Faults(st, a)
    ensures Next(st, a).waiters == {} || exists o :: ListedBy(Next(st, a), of, o)
  {
    hide FutFaults, WorkFaults, FutNext, WorkNext, FutOk, SlotOk, WorkOk, GlobalOk, OneSeat, TasksWithout;
    Frames(st, a);
    SeatsFrame(st, a);
    var st' := Next(st, a);
    if st'.waiters != {} {
      if st'.waiters == st.waiters {
        var o :| ListedBy(st, of, o);
        assert ListedBy(st', of, o);
      } else {
        var i := a.i;
        ListStep(st, i);
        var o := ListOrScan(st, i, of);
        assert ListedBy(st', of, o);
      }
    }
  }

  // The futures whose tasks are not on the list before a registration are not on it afterwards.
  lemma ListOrScan(st: State, i: nat, of: seq<Task>) returns (o: set<nat>)
    requires Inv(st) && Waiting(st, of) && i < |st.futs|
    requires st.At(i).ClaimScan? && st.At(i).j >= |st.slots|
    ensures ListedBy(st, of, o) && of[i] == st.futs[i].task && of[i] in TasksWithout(of, o)
  {
    hide SlotOk, WorkOk, GlobalOk, OneSeat;
    assert FutOk(st, i);
    if st.waiters == {} {
      o :| PassedBy(st, st.At(i).j, o);
    } else {
      o :| ListedBy(st, of, o);
    }
    assert i !in o;
  }

  lemma ScansKeep(st: State, a: Action)
    requires Inv(st) && Scans(st) && Enabled(st, a) && !Faults(st, a)
    ensures Scans(Next(st, a))
  {
    hide FutFaults, WorkFaults, FutNext, WorkNext, FutOk, SlotOk, WorkOk, GlobalOk, OneSeat, PassedBy;
    OneSeatKeeps(st, a);
    var st' := Next(st, a);
    forall i | 0 <= i < |st'.futs| && st'.At(i).ClaimScan?
      ensures exists o :: PassedBy(st', st'.At(i).j, o)
    {
      PassedKeeps(st, a, i);
    }
  }

  lemma WaitingKeeps(st: State, a: Action, of: seq<Task>)
    requires Inv(st) && Waiting(st, of) && Enabled(st, a) && !Faults(st, a) && Follows(a, of)
    ensures Waiting(Next(st, a), of)
  {
    hide FutFaults, WorkFaults, FutNext, WorkNext, FutOk, SlotOk, WorkOk, GlobalOk, Scans, ListedBy;
    ScansKeep(st, a);
    ListedKeeps(st, a, of);
    var st' := Next(st, a);
    forall i | 0 <= i < |st'.futs| && (st'.At(i).ClaimLock? || st'.At(i).ClaimScan?)
      ensures st'.futs[i].task == of[i]
    {
      ScanTask(st, a, i);
    }
  }

  // ---------------------------------------------------------------- enough room

  ghost predicate Among(o: set<nat>, n: nat) { forall i :: i in o ==> i < n }

  // Whichever futures occupy the slots, the others have no more tasks than the list has room for.
  ghost predicate Fits(of: seq<Task>, slots: nat, cap: nat) {
    forall o: set<nat> :: |o| == slots && Among(o, |of|) ==> |TasksWithout(of, o)| <= cap
  }

  lemma FitsHasRoom(st: State, a: Action, of: seq<Task>)
    requires Inv(st) && Waiting(st, of) && Enabled(st, a) && Fits(of, |st.slots|, st.cap)
    ensures !T.Overflows(st, a)
  {
    hide FutOk, SlotOk, WorkOk, OneSeat, PassedBy;
    if T.Overflows(st, a) {
      var o := ListOrScan(st, a.i, of);
      assert Among(o, |of|);
      T.Room(st.waiters, TasksWithout(of, o), of[a.i]);
      assert false;
    }
  }

  lemma {:induction false} RunWaits(r: Run, of: seq<Task>, n: nat)
    requires Execution(r) && |of| == |r.states[0].futs| && n <= |r.actions|
    requires forall m :: 0 <= m < |r.actions| ==> Follows(r.actions[m], of)
    ensures Sound(r.states[n]) && Waiting(r.states[n], of)
    ensures SameSize(r.states[0], r.states[n]) && r.states[n].cap == r.states[0].cap
  {
    InitSound(r.states[0]);
    RunSound(r, n);
    if n > 0 {
      RunWaits(r, of, n - 1);
      hide Waiting, Inv, StartOk, WaitersOk;
      assert Step(r.states[n - 1], r.actions[n - 1], r.states[n]);
      WaitingKeeps(r.states[n - 1], r.actions[n - 1], of);
      CapStays(r.states[n - 1], r.actions[n - 1]);
    }
  }

  lemma CapStays(st: State, a: Action)
    requires Shape(st) && Enabled(st, a) && !Faults(st, a)
    ensures Next(st, a).cap == st.cap
  {
    Frames(st, a);
    hide FutNext, WorkNext, FutFaults, WorkFaults;
  }

  // When the tasks fit, no execution overflows the list.
  lemma FitsIsRoomy(r: Run, of: seq<Task>)
    requires Execution(r) && |of| == |r.states[0].futs|
    requires forall m :: 0 <= m < |r.actions| ==> Follows(r.actions[m], of)
    requires Fits(of, |r.states[0].slots|, r.states[0].cap)
    ensures T.Roomy(r, |r.actions|)
  {
    forall m | 0 <= m < |r.actions| ensures !T.Overflows(r.states[m], r.actions[m]) {
      RunWaits(r, of, m);
      hide Waiting, Inv, StartOk, WaitersOk, Init, Fits;
      assert Step(r.states[m], r.actions[m], r.states[m + 1]);
      FitsHasRoom(r.states[m], r.actions[m], of);
    }
  }
}
