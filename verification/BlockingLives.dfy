/**
 The life of a closure over whole runs: it runs at most once, a future returns what its own closure
 returned, a closure not taken before its future was gone never runs, and workers take operations in the
 order they were submitted, apart from those removed.
 */
module BlockingLives {
  import opened Prelude
  import opened BlockingPool
  import opened BlockingInvariant
  import opened BlockingFrame
  import opened BlockingSafety
  import opened BlockingRuns

  ghost predicate LifeOk(st: State, c: nat)
    requires Shape(st) && c < |st.futs|
  {
    var f, l := st.futs[c], st.lives[c];
    && l.runs <= 1
    && (f.op.Some? ==> f.op == Some(c) && l == Life(None, 0, None))
    && (f.op.None? ==> l.taker.Some?)
    && (c in st.removed ==> f.op.Some? && Withdrawn(f.pc))
    && (l.ran.Some? ==> l.runs == 1)
    && (l.taker.Some? && l.ran.None? ==>
         l.taker.value < |st.workers| && InHand(st.workers[l.taker.value], c, l.runs))
  }

  // The worker has taken closure `c` and has yet to call it, or is running it.
  predicate InHand(pc: WorkPc, c: nat, runs: nat) {
    match pc
    case Unlock1(_, _, op) => runs == 0 && op == Some(c)
    case Call(_, _, c') => runs == 0 && c' == c
    case Running(_, _, c') => runs == 1 && c' == c
    case _ => false
  }

  // The future left after taking its slot back from the queue.
  predicate Withdrawn(pc: FutPc) {
    match pc
    case RelFree(_, next) => next.None?
    case RelLock(next) => next.None?
    case RelWake(next) => next.None?
    case RelUnlock(next) => next.None?
    case Gone => true
    case _ => false
  }

  ghost predicate LivesOk(st: State)
    requires Shape(st)
  {
    forall c :: 0 <= c < |st.futs| ==> LifeOk(st, c)
  }

  // A step of a future runs, takes or returns no closure; only a removal adds to the removed.
  ghost predicate SameLives(st: State, st': State, i: nat)
    requires SameSize(st, st') && i < |st.futs|
  {
    && st'.lives == st.lives
    && (forall c :: 0 <= c < |st.futs| ==> st'.futs[c].op == st.futs[c].op)
    && (forall c :: 0 <= c < |st.futs| && c != i ==> st'.futs[c].pc == st.futs[c].pc)
    && (st'.removed == st.removed ||
        (st.At(i).DropRemove? && st.At(i).s in st.queue && st'.removed == st.removed + {i} && Withdrawn(st'.At(i))))
    && (Withdrawn(st.At(i)) ==> Withdrawn(st'.At(i)))
  }

  lemma FutSameLives(st: State, i: nat)
    requires Shape(st) && FutReady(st, i) && !FutFaults(st, i)
    ensures SameLives(st, FutNext(st, i), i)
  {
    if Arriving(st.At(i)) { FutArrivingLives(st, i); }
  }

  lemma FutArrivingLives(st: State, i: nat)
    requires Shape(st) && FutReady(st, i) && !FutFaults(st, i) && Arriving(st.At(i))
    ensures SameLives(st, FutNext(st, i), i)
  {
  }

  lemma FutLives(st: State, i: nat, c: nat)
    requires Sound(st) && FutReady(st, i) && !FutFaults(st, i) && c < |st.futs| && LifeOk(st, c)
    ensures LifeOk(FutNext(st, i), c)
  {
    hide FutFaults, FutNext, FutOk, SlotOk, WorkOk, GlobalOk, WaitersOk, FreeFrame;
    Frames(st, FutStep(i));
    FutSameLives(st, i);
    assert st.At(i).Spawn? ==> Up(st) == st.At(i).w;
    if st.At(i).DropRemove? && st.At(i).s in st.queue { RemovedUntaken(st, i); }
  }

  lemma RemovedUntaken(st: State, i: nat)
    requires Inv(st) && i < |st.futs| && st.At(i).DropRemove? && st.At(i).s in st.queue
    ensures Untaken(st, i)
  {
    assert FutOk(st, i) && SlotOk(st, st.At(i).s);
  }

  // A worker takes a closure only from a future that is still there.
  lemma TakenAlive(st: State, k: nat)
    requires Inv(st) && k < |st.workers| && st.workers[k].TakeOp?
    ensures var r := st.workers[k].r;
            r < |st.futs| && !Withdrawn(st.At(r)) && st.workers[k].s < |st.slots| &&
            st.slots[st.workers[k].s].shared == Some(r)
  {
    W.ServedBy(st, k);
    assert SlotOk(st, st.workers[k].s);
  }

  lemma WorkTakes(st: State, k: nat, v: int, keep: bool, c: nat)
    requires Inv(st) && WorkReady(st, k) && !WorkFaults(st, k) && c < |st.futs| && LifeOk(st, c)
    requires st.workers[k].TakeOp? || st.workers[k].Call? || st.workers[k].Running?
    ensures LifeOk(WorkNext(st, k, v, keep), c)
  {
    hide FutOk, SlotOk, GlobalOk;
    assert WorkOk(st, k);
    if st.workers[k].TakeOp? { TakenAlive(st, k); }
  }

  lemma WorkEarlyLives(st: State, k: nat, v: int, keep: bool, c: nat)
    requires Shape(st) && WorkReady(st, k) && !WorkFaults(st, k) && c < |st.futs| && LifeOk(st, c)
    requires Early(st.workers[k]) && !st.workers[k].TakeOp? && !st.workers[k].Call? && !st.workers[k].Running?
    ensures LifeOk(WorkNext(st, k, v, keep), c)
  {
  }

  lemma WorkLateLives(st: State, k: nat, v: int, keep: bool, c: nat)
    requires Shape(st) && WorkReady(st, k) && !WorkFaults(st, k) && c < |st.futs| && LifeOk(st, c)
    requires !Early(st.workers[k])
    ensures LifeOk(WorkNext(st, k, v, keep), c)
  {
  }

  lemma WorkLives(st: State, k: nat, v: int, keep: bool, c: nat)
    requires Inv(st) && WorkReady(st, k) && !WorkFaults(st, k) && c < |st.futs| && LifeOk(st, c)
    ensures LifeOk(WorkNext(st, k, v, keep), c)
  {
    hide LifeOk, WorkNext, WorkFaults;
    if st.workers[k].TakeOp? || st.workers[k].Call? || st.workers[k].Running? { WorkTakes(st, k, v, keep, c); }
    else if Early(st.workers[k]) { WorkEarlyLives(st, k, v, keep, c); }
    else { WorkLateLives(st, k, v, keep, c); }
  }

  lemma LivesKeeps(st: State, a: Action)
    requires Sound(st) && LivesOk(st) && Enabled(st, a) && !Faults(st, a)
    ensures LivesOk(Next(st, a))
  {
    hide FutFaults, WorkFaults, FutNext, WorkNext, FutOk, SlotOk, WorkOk, GlobalOk, LifeOk;
    forall c | 0 <= c < |st.futs| ensures LifeOk(Next(st, a), c) {
      assert LifeOk(st, c);
      match a
      case Poll(i, t) => IdleLives(st, a, i, c);
      case Drop(i) => IdleLives(st, a, i, c);
      case FutStep(i) => FutLives(st, i, c);
      case WorkStep(k, v, keep) => WorkLives(st, k, v, keep, c);
    }
  }

  lemma IdleLives(st: State, a: Action, i: nat, c: nat)
    requires Shape(st) && Enabled(st, a) && (a == Drop(i) || (a.Poll? && a.i == i)) && c < |st.futs| && LifeOk(st, c)
    ensures LifeOk(Next(st, a), c)
  {
  }

  // ---------------------------------------------------------------- exactly once

  ghost predicate LivelyRun(r: Run, n: nat)
    requires n < |r.states|
  {
    Sound(r.states[n]) && LivesOk(r.states[n])
  }

  lemma {:induction false} RunLives(r: Run, n: nat)
    requires Execution(r) && n <= |r.actions|
    ensures LivelyRun(r, n)
  {
    InitSound(r.states[0]);
    RunSound(r, n);
    if n > 0 {
      RunLives(r, n - 1);
      assert Step(r.states[n - 1], r.actions[n - 1], r.states[n]);
      LivesKeeps(r.states[n - 1], r.actions[n - 1]);
    }
  }

  lemma ReachableLives(st: State)
    requires Reachable(st)
    ensures Sound(st) && LivesOk(st)
  {
    var r: Run :| Execution(r) && r.states[|r.actions|] == st;
    RunLives(r, |r.actions|);
  }

  // No closure runs twice; a result a future returned is what one execution of its own closure returned.
  lemma ExactlyOnce(st: State, i: nat)
    requires Reachable(st) && i < |st.futs|
    ensures Shape(st) && st.lives[i].runs <= 1
    ensures st.At(i).Finished? ==>
              && st.At(i).out.closure == i
              && st.lives[i].runs == 1 && st.lives[i].ran == Some(st.At(i).out)
  {
    ReachableLives(st);
    assert LifeOk(st, i) && FutOk(st, i);
  }

  // ---------------------------------------------------------------- cancellation

  lemma GoneStays(st: State, a: Action, i: nat)
    requires Inv(st) && Enabled(st, a) && !Faults(st, a) && i < |st.futs| && st.At(i).Gone?
    ensures Next(st, a).At(i).Gone? && Next(st, a).futs[i].op == st.futs[i].op
  {
    hide FutFaults, WorkFaults, FutNext, WorkNext, FutOk, SlotOk, WorkOk, GlobalOk;
    Frames(st, a);
    match a
    case Poll(_, _) =>
    case Drop(_) =>
    case FutStep(j) => FutSameLives(st, j);
    case WorkStep(k, v, keep) => WorkKeepsGone(st, k, v, keep, i);
  }

  lemma WorkKeepsGone(st: State, k: nat, v: int, keep: bool, i: nat)
    requires Inv(st) && WorkReady(st, k) && !WorkFaults(st, k) && i < |st.futs| && st.At(i).Gone?
    ensures WorkNext(st, k, v, keep).futs[i].op == st.futs[i].op
  {
    hide Inv;
  }

  lemma {:induction false} GoneForever(r: Run, m: nat, n: nat, i: nat)
    requires Execution(r) && m <= n <= |r.actions|
    requires i < |r.states[m].futs| && r.states[m].At(i).Gone?
    ensures i < |r.states[n].futs| && r.states[n].At(i).Gone? && r.states[n].futs[i].op == r.states[m].futs[i].op
    decreases n - m
  {
    if m < n {
      GoneForever(r, m, n - 1, i);
      RunLives(r, n - 1);
      assert Step(r.states[n - 1], r.actions[n - 1], r.states[n]);
      GoneStays(r.states[n - 1], r.actions[n - 1], i);
    }
  }

  // A future that is gone before a worker took its closure: the closure never runs.
  lemma CancelledBeforeTaken(r: Run, m: nat, n: nat, i: nat)
    requires Execution(r) && m <= n <= |r.actions|
    requires i < |r.states[m].futs| && r.states[m].At(i).Gone? && r.states[m].futs[i].op.Some?
    ensures Shape(r.states[n]) && i < |r.states[n].futs| && r.states[n].lives[i].runs == 0
  {
    GoneForever(r, m, n, i);
    RunLives(r, n);
    assert LifeOk(r.states[n], i);
  }

  // A future that took its slot back from the queue: the closure never runs.
  lemma RemovedNeverRuns(st: State, i: nat)
    requires Reachable(st) && i < |st.futs| && i in st.removed
    ensures Shape(st) && st.lives[i].runs == 0 && st.futs[i].op == Some(i)
  {
    ReachableLives(st);
    assert LifeOk(st, i);
  }
}
