/**
 What no step takes back: started workers, submissions, finished closures and results on their way to the
 future; and what a future that has orphaned its slot leaves behind until it lets go of the slot's lock.
 */
module BlockingHistory {
  import opened Prelude
  import opened BlockingPool
  import opened BlockingInvariant
  import opened BlockingRuns

  // ---------------------------------------------------------------- what only grows

  // The future is about to return `o`, or has returned it.
  predicate Returning(pc: FutPc, o: Outcome) {
    match pc
    case RelFree(_, next) => next == Some(o)
    case RelLock(next) => next == Some(o)
    case RelWake(next) => next == Some(o)
    case RelUnlock(next) => next == Some(o)
    case Finished(out) => out == o
    case _ => false
  }

  // Closure `c` returned `o`, and `o` is in the future's cell, or on its way out, or the future is gone.
  ghost predicate Delivered(st: State, c: nat, o: Outcome) {
    && c < |st.futs| && c < |st.lives| && st.lives[c].ran == Some(o)
    && (st.futs[c].result == Some(o) || Returning(st.At(c), o) || st.At(c).Gone?)
  }

  ghost predicate Grows(st: State, st': State) {
    && SameSize(st, st')
    && (st.started ==> st'.started && st'.starter == st.starter)
    && (forall k :: 0 <= k < |st.workers| && st'.workers[k].Off? ==> st.workers[k].Off?)
    && (forall c :: 0 <= c < |st.lives| && st.lives[c].ran.Some? ==> st'.lives[c] == st.lives[c])
    && (forall c: nat, o :: Delivered(st, c, o) ==> Delivered(st', c, o))
    && st.sent <= st'.sent
  }

  lemma GrowsOn(a: State, b: State, c: State)
    requires Grows(a, b) && Grows(b, c)
    ensures Grows(a, c)
  {
    hide Delivered;
  }

  lemma FutCells(st: State, i: nat)
    requires Shape(st) && FutReady(st, i) && !FutFaults(st, i)
    ensures var r := FutNext(st, i);
      && r.lives == st.lives && st.sent <= r.sent
      && (forall c :: 0 <= c < |st.futs| && c != i ==> r.futs[c].result == st.futs[c].result)
      && (r.futs[i].result != st.futs[i].result ==>
            && st.futs[i].result.Some? && r.futs[i].result.None?
            && Returning(r.At(i), st.futs[i].result.value))
  {
    if Arriving(st.At(i)) { FutArrivingCells(st, i); }
  }

  lemma FutArrivingCells(st: State, i: nat)
    requires Shape(st) && FutReady(st, i) && !FutFaults(st, i) && Arriving(st.At(i))
    ensures var r := FutNext(st, i);
      && r.lives == st.lives && st.sent <= r.sent
      && (forall c :: 0 <= c < |st.futs| && c != i ==> r.futs[c].result == st.futs[c].result)
      && r.futs[i].result == st.futs[i].result
  {
  }

  lemma ReturningStays(st: State, i: nat, o: Outcome)
    requires Shape(st) && FutReady(st, i) && !FutFaults(st, i) && Returning(st.At(i), o)
    ensures Returning(FutNext(st, i).At(i), o)
  {
  }

  lemma WorkCells(st: State, k: nat, v: int, keep: bool, c: nat)
    requires Inv(st) && WorkReady(st, k) && !WorkFaults(st, k) && c < |st.futs|
    ensures var r := WorkNext(st, k, v, keep);
      && r.sent == st.sent
      && (st.lives[c].ran.Some? ==>
            && r.lives[c] == st.lives[c]
            && (st.futs[c].result.Some? ==> r.futs[c].result == st.futs[c].result))
  {
    hide FutOk, SlotOk;
    assert WorkOk(st, k);
    hide Inv;
    var pc := st.workers[k];
    if !(pc.TakeOp? || pc.Call? || pc.Running? || pc.WriteResult?) {
      if Early(pc) { EarlyCells(st, k, v, keep, c); } else { LateCells(st, k, v, keep, c); }
    }
  }

  lemma EarlyCells(st: State, k: nat, v: int, keep: bool, c: nat)
    requires Shape(st) && WorkReady(st, k) && !WorkFaults(st, k) && c < |st.futs| && Early(st.workers[k])
    requires !st.workers[k].TakeOp? && !st.workers[k].Call? && !st.workers[k].Running?
    ensures var r := WorkNext(st, k, v, keep);
      r.sent == st.sent && r.lives == st.lives && r.futs[c].result == st.futs[c].result
  {
  }

  lemma LateCells(st: State, k: nat, v: int, keep: bool, c: nat)
    requires Shape(st) && WorkReady(st, k) && !WorkFaults(st, k) && c < |st.futs| && !Early(st.workers[k])
    requires !st.workers[k].WriteResult?
    ensures var r := WorkNext(st, k, v, keep);
      r.sent == st.sent && r.lives == st.lives && r.futs[c].result == st.futs[c].result
  {
  }

  lemma StartGrows(st: State, a: Action)
    requires Inv(st) && StartOk(st) && Enabled(st, a) && !Faults(st, a)
    ensures var st' := Next(st, a);
      && (st.started ==> st'.started && st'.starter == st.starter)
      && (forall k :: 0 <= k < |st.workers| && st'.workers[k].Off? ==> st.workers[k].Off?)
  {
    hide FutFaults, WorkFaults, FutNext, WorkNext, FutOk, SlotOk, WorkOk, GlobalOk, FreeFrame;
    Frames(st, a);
    if a.FutStep? { SpawnSource(st, a.i); }
  }

  lemma DeliveredStays(st: State, a: Action, c: nat, o: Outcome)
    requires Inv(st) && Enabled(st, a) && !Faults(st, a) && Delivered(st, c, o)
    ensures Delivered(Next(st, a), c, o)
  {
    hide FutFaults, WorkFaults, FutNext, WorkNext, FutOk, SlotOk, WorkOk, GlobalOk, FreeFrame;
    Frames(st, a);
    match a
    case Poll(i, t) =>
    case Drop(i) => if i == c && st.At(i).Finished? { FinishedHasNoSlot(st, i); }
    case FutStep(i) =>
      FutCells(st, i);
      if i == c && Returning(st.At(i), o) { ReturningStays(st, i, o); }
    case WorkStep(k, v, keep) => WorkCells(st, k, v, keep, c);
  }

  lemma FinishedHasNoSlot(st: State, i: nat)
    requires Inv(st) && i < |st.futs| && st.At(i).Finished?
    ensures st.futs[i].slot.None?
  {
    assert FutOk(st, i);
  }

  lemma ActionGrows(st: State, a: Action)
    requires Inv(st) && StartOk(st) && Enabled(st, a) && !Faults(st, a)
    ensures Grows(st, Next(st, a))
  {
    hide FutFaults, WorkFaults, FutNext, WorkNext, FutOk, SlotOk, WorkOk, GlobalOk, StartOk, Delivered;
    StartGrows(st, a);
    var st' := Next(st, a);
    forall c: nat, o | Delivered(st, c, o) ensures Delivered(st', c, o) {
      DeliveredStays(st, a, c, o);
    }
    if a.FutStep? { FutCells(st, a.i); }
    if a.WorkStep? {
      assert |st.futs| == 0 ==> |st.lives| == 0;
      forall c | 0 <= c < |st.lives| && st.lives[c].ran.Some? ensures st'.lives[c] == st.lives[c] {
        WorkCells(st, a.k, a.v, a.keep, c);
      }
      SentStays(st, a.k, a.v, a.keep);
    }
  }

  lemma SentStays(st: State, k: nat, v: int, keep: bool)
    requires Shape(st) && WorkReady(st, k) && !WorkFaults(st, k)
    ensures WorkNext(st, k, v, keep).sent == st.sent
  {
  }

  // ---------------------------------------------------------------- an orphaned slot

  // A future that has orphaned slot `s` and still holds its lock: a worker has the slot and cannot have given
  // it back yet, and nobody can follow the pointer.
  ghost predicate Leaves(st: State, i: nat, s: nat) {
    && i < |st.futs| && s < |st.slots| && s < |st.phase|
    && st.phase[s].PDetached? && st.phase[s].f == i && st.slots[s].shared.None?
    && (st.phase[s].k < |st.workers| ==> st.workers[st.phase[s].k] != FreeSlot(s))
  }

  ghost predicate OrphansOk(st: State) {
    forall i :: 0 <= i < |st.futs| && st.At(i).DropUnlock? && st.At(i).orphaned ==> Leaves(st, i, st.At(i).s)
  }

  lemma OrphanSource(st: State, i: nat)
    requires Shape(st) && FutReady(st, i) && !FutFaults(st, i)
    requires FutNext(st, i).At(i).DropUnlock? && FutNext(st, i).At(i).orphaned
    ensures st.At(i).DropOrphan? && FutNext(st, i).At(i).s == st.At(i).s
    ensures FutNext(st, i).workers == st.workers
    ensures var s, r := st.At(i).s, FutNext(st, i);
      && r.slots[s].shared == st.slots[s].shared
      && (st.phase[s].PWork? ==> r.phase[s] == PDetached(st.phase[s].k, i))
  {
  }

  lemma OrphanStored(st: State, i: nat)
    requires Inv(st) && FutReady(st, i) && !FutFaults(st, i) && st.At(i).DropOrphan?
    ensures var s := st.At(i).s;
      && st.phase[s].PWork? && st.slots[s].shared.None?
      && st.phase[s].k < |st.workers| && st.workers[st.phase[s].k] != FreeSlot(s)
  {
    assert FutOk(st, i);
    assert SlotOk(st, st.At(i).s);
    assert WorkOk(st, st.phase[st.At(i).s].k);
  }

  lemma OrphanLeaves(st: State, i: nat)
    requires Inv(st) && FutReady(st, i) && !FutFaults(st, i)
    requires FutNext(st, i).At(i).DropUnlock? && FutNext(st, i).At(i).orphaned
    ensures Leaves(FutNext(st, i), i, FutNext(st, i).At(i).s)
  {
    hide FutNext;
    OrphanSource(st, i);
    OrphanStored(st, i);
    hide Inv;
  }

  // A step of another future leaves an orphaned slot alone.
  lemma FutAvoids(st: State, j: nat, s: nat)
    requires Shape(st) && FutReady(st, j) && !FutFaults(st, j) && FutOk(st, j)
    requires s < |st.slots| && st.phase[s].PDetached? && st.slots[s].state == Orphaned
    ensures FutNext(st, j).phase[s] == st.phase[s] && FutNext(st, j).slots[s].shared == st.slots[s].shared
  {
    if Arriving(st.At(j)) { ArrivingAvoids(st, j, s); }
  }

  lemma ArrivingAvoids(st: State, j: nat, s: nat)
    requires Shape(st) && FutReady(st, j) && !FutFaults(st, j) && FutOk(st, j) && Arriving(st.At(j))
    requires s < |st.slots| && st.phase[s].PDetached? && st.slots[s].state == Orphaned
    ensures FutNext(st, j).phase[s] == st.phase[s] && FutNext(st, j).slots[s].shared == st.slots[s].shared
  {
  }

  // So does a step of a worker, as long as the future holds the lock.
  lemma WorkAvoids(st: State, k: nat, v: int, keep: bool, i: nat, s: nat)
    requires Shape(st) && WorkReady(st, k) && !WorkFaults(st, k) && WorkOk(st, k)
    requires Leaves(st, i, s) && st.slots[s].lock == Some(Fut(i)) && (s in st.queue ==> st.phase[s].PQueued?)
    ensures Leaves(WorkNext(st, k, v, keep), i, s)
  {
    var pc := st.workers[k];
    if pc.Idle? { assert st.queue[0] in st.queue; }
    else if Early(pc) { EarlyAvoids(st, k, v, keep, i, s); }
    else { LateAvoids(st, k, v, keep, i, s); }
  }

  lemma EarlyAvoids(st: State, k: nat, v: int, keep: bool, i: nat, s: nat)
    requires Shape(st) && WorkReady(st, k) && !WorkFaults(st, k) && WorkOk(st, k)
    requires Leaves(st, i, s) && st.slots[s].lock == Some(Fut(i)) && Early(st.workers[k]) && !st.workers[k].Idle?
    ensures Leaves(WorkNext(st, k, v, keep), i, s)
  {
  }

  lemma LateAvoids(st: State, k: nat, v: int, keep: bool, i: nat, s: nat)
    requires Shape(st) && WorkReady(st, k) && !WorkFaults(st, k) && WorkOk(st, k)
    requires Leaves(st, i, s) && st.slots[s].lock == Some(Fut(i)) && !Early(st.workers[k])
    ensures Leaves(WorkNext(st, k, v, keep), i, s)
  {
  }

  lemma LeavesStays(st: State, a: Action, i: nat, s: nat)
    requires Inv(st) && StartOk(st) && Enabled(st, a) && !Faults(st, a) && Doer(a) != Fut(i)
    requires Leaves(st, i, s) && st.At(i) == DropUnlock(s, true)
    ensures Leaves(Next(st, a), i, s)
  {
    hide FutFaults, WorkFaults, FutNext, WorkNext, WorkOk, GlobalOk, FreeFrame;
    assert FutOk(st, i) && SlotOk(st, s);
    hide FutOk, SlotOk;
    match a
    case Poll(_, _) =>
    case Drop(_) =>
    case FutStep(j) =>
      Frames(st, a);
      FutAvoids(st, j, s);
      assert st.At(j).Spawn? ==> Up(st) == st.At(j).w;
    case WorkStep(k, v, keep) => WorkAvoids(st, k, v, keep, i, s);
  }

  lemma OrphansKeep(st: State, a: Action)
    requires Inv(st) && StartOk(st) && OrphansOk(st) && Enabled(st, a) && !Faults(st, a)
    ensures OrphansOk(Next(st, a))
  {
    hide FutFaults, WorkFaults, FutNext, WorkNext, FutOk, SlotOk, WorkOk, GlobalOk, FreeFrame;
    Frames(st, a);
    var st' := Next(st, a);
    forall i | 0 <= i < |st'.futs| && st'.At(i).DropUnlock? && st'.At(i).orphaned
      ensures Leaves(st', i, st'.At(i).s)
    {
      if Doer(a) == Fut(i) {
        if a.FutStep? { OrphanLeaves(st, i); }
      } else {
        LeavesStays(st, a, i, st.At(i).s);
      }
    }
  }

  lemma {:induction false} RunOrphans(r: Run, n: nat)
    requires Execution(r) && n <= |r.actions|
    ensures Sound(r.states[n]) && OrphansOk(r.states[n])
  {
    InitSound(r.states[0]);
    RunSound(r, n);
    if n > 0 {
      RunOrphans(r, n - 1);
      hide Inv, StartOk, WaitersOk, OrphansOk;
      assert Step(r.states[n - 1], r.actions[n - 1], r.states[n]);
      OrphansKeep(r.states[n - 1], r.actions[n - 1]);
    }
  }

  // ---------------------------------------------------------------- the result of an orphaned operation

  ghost predicate OwnResults(st: State) {
    forall i :: 0 <= i < |st.futs| && st.futs[i].result.Some? ==> st.futs[i].result.value.closure == i
  }

  // The future has let its slot go to a worker and has no result.
  ghost predicate Deserted(st: State, i: nat) {
    && i < |st.futs| && st.futs[i].result.None?
    && (st.At(i).Gone? || (st.At(i).DropUnlock? && st.At(i).orphaned))
  }

  // No future has, or is about to return, or has returned, what closure `c` returned.
  ghost predicate Nowhere(st: State, c: nat) {
    forall j, o: Outcome :: 0 <= j < |st.futs| && o.closure == c ==>
      st.futs[j].result != Some(o) && !Returning(st.At(j), o)
  }

  lemma WorkResults(st: State, k: nat, v: int, keep: bool, i: nat)
    requires Inv(st) && WorkReady(st, k) && !WorkFaults(st, k) && i < |st.futs|
    ensures var f, f' := st.futs[i], WorkNext(st, k, v, keep).futs[i];
      || f'.result == f.result
      || (f'.result.Some? && f'.result.value.closure == i && !st.At(i).Gone? && !st.At(i).DropUnlock?)
  {
    hide FutOk, GlobalOk;
    var pc := st.workers[k];
    if pc.WriteResult? {
      assert WorkOk(st, k);
      assert SlotOk(st, pc.s);
    } else if Early(pc) {
      EarlyResults(st, k, v, keep, i);
    } else {
      LateCells(st, k, v, keep, i);
    }
    hide Inv;
  }

  lemma EarlyResults(st: State, k: nat, v: int, keep: bool, i: nat)
    requires Shape(st) && WorkReady(st, k) && !WorkFaults(st, k) && i < |st.futs| && Early(st.workers[k])
    ensures WorkNext(st, k, v, keep).futs[i].result == st.futs[i].result
  {
  }

  lemma ResultsKeep(st: State, a: Action)
    requires Inv(st) && OwnResults(st) && Enabled(st, a) && !Faults(st, a)
    ensures OwnResults(Next(st, a))
  {
    hide FutFaults, WorkFaults, FutNext, WorkNext, FutOk, SlotOk, WorkOk, GlobalOk;
    if a.FutStep? { FutCells(st, a.i); }
    if a.WorkStep? {
      forall i | 0 <= i < |st.futs| && Next(st, a).futs[i].result.Some?
        ensures Next(st, a).futs[i].result.value.closure == i
      {
        WorkResults(st, a.k, a.v, a.keep, i);
      }
    }
  }

  lemma DesertedStays(st: State, a: Action, i: nat)
    requires Inv(st) && Deserted(st, i) && Enabled(st, a) && !Faults(st, a)
    ensures Deserted(Next(st, a), i)
  {
    hide FutFaults, WorkFaults, FutNext, WorkNext, FutOk, SlotOk, WorkOk, GlobalOk, FreeFrame;
    Frames(st, a);
    match a
    case Poll(_, _) =>
    case Drop(_) =>
    case FutStep(j) =>
      FutCells(st, j);
      if j == i { DesertedGoes(st, i); }
    case WorkStep(k, v, keep) => WorkResults(st, k, v, keep, i);
  }

  lemma DesertedGoes(st: State, i: nat)
    requires Shape(st) && FutReady(st, i) && !FutFaults(st, i) && Deserted(st, i)
    ensures Deserted(FutNext(st, i), i)
  {
  }

  // Until the worker takes the slot's lock again there is no result.
  lemma NoResultYet(st: State, i: nat)
    requires Inv(st) && i < |st.futs| && st.At(i).DropOrphan?
    ensures st.futs[i].result.None?
  {
    assert FutOk(st, i);
    var s := st.At(i).s;
    assert SlotOk(st, s);
    assert WorkOk(st, st.phase[s].k);
  }

  lemma OrphanDeserts(st: State, i: nat)
    requires Inv(st) && FutReady(st, i) && !FutFaults(st, i) && st.At(i).DropOrphan?
    ensures Deserted(FutNext(st, i), i)
  {
    NoResultYet(st, i);
    hide Inv;
  }

  lemma {:induction false} RunResults(r: Run, n: nat)
    requires Execution(r) && n <= |r.actions|
    ensures Sound(r.states[n]) && OwnResults(r.states[n])
  {
    InitSound(r.states[0]);
    RunSound(r, n);
    if n > 0 {
      RunResults(r, n - 1);
      hide Inv, StartOk, WaitersOk, OwnResults;
      assert Step(r.states[n - 1], r.actions[n - 1], r.states[n]);
      ResultsKeep(r.states[n - 1], r.actions[n - 1]);
    }
  }

  lemma {:induction false} RunDeserted(r: Run, m: nat, n: nat, i: nat)
    requires Execution(r) && m <= n <= |r.actions| && Deserted(r.states[m], i)
    ensures Deserted(r.states[n], i)
    decreases n - m
  {
    hide Inv, StartOk, WaitersOk, OwnResults, Deserted, Init, Enabled, Faults, Next;
    if m < n {
      RunDeserted(r, m, n - 1, i);
      RunResults(r, n - 1);
      assert Step(r.states[n - 1], r.actions[n - 1], r.states[n]);
      DesertedStays(r.states[n - 1], r.actions[n - 1], i);
    }
  }

  lemma DesertedNowhere(st: State, i: nat)
    requires Inv(st) && OwnResults(st) && Deserted(st, i)
    ensures Nowhere(st, i)
  {
    hide WorkOk, SlotOk, GlobalOk;
    forall j, o: Outcome | 0 <= j < |st.futs| && o.closure == i
      ensures st.futs[j].result != Some(o) && !Returning(st.At(j), o)
    {
      assert FutOk(st, j);
    }
  }

  // Once a future has stored Orphaned, the result of its closure never gets anywhere, then or later.
  lemma OrphanDiscarded(r: Run, m: nat, n: nat, i: nat)
    requires Execution(r) && m < n <= |r.actions|
    requires r.actions[m] == FutStep(i) && i < |r.states[m].futs| && r.states[m].At(i).DropOrphan?
    ensures Nowhere(r.states[n], i)
  {
    RunResults(r, m);
    RunResults(r, n);
    hide Inv, StartOk, WaitersOk, OwnResults, Deserted, Init, Nowhere, FutFaults, FutNext;
    assert Step(r.states[m], r.actions[m], r.states[m + 1]);
    OrphanDeserts(r.states[m], i);
    RunDeserted(r, m + 1, n, i);
    DesertedNowhere(r.states[n], i);
  }
}
