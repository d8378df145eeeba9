/**
 What the invariant means for slots, memory and wakers, in terms of the pool's own fields.
 */
module BlockingOwnership {
  import opened Prelude
  import opened BlockingPool
  import opened BlockingInvariant
  import opened BlockingFrame
  import opened BlockingSafety
  import opened BlockingRuns

  // ---------------------------------------------------------------- slot ownership

  // Where a slot stands, without reference to the bookkeeping.
  datatype Situation =
    | Available              // free, nobody refers to it
    | Reserved(i: nat)       // claimed by future i, which sets it up and has not sent it yet
    | Waiting(i: nat)        // in the queue, once, for the live future i
    | Served(k: nat, i: nat) // held by worker k for the live future i
    | Orphan(k: nat)         // held by worker k, its future is gone
    | Answered(i: nat)       // future i alone holds it and has to release it

  // Future `i` is alive and refers to the slot.
  ghost predicate Holds(st: State, i: nat, s: nat) {
    && i < |st.futs| && RefOf(st.futs[i]) == Some(s)
    && st.At(i) != DropUnlock(s, true)
  }

  ghost predicate Handles(st: State, k: nat, s: nat) {
    k < |st.workers| && Handling(st.workers[k], s)
  }

  ghost predicate HeldOnlyBy(st: State, s: nat, owner: Option<nat>) {
    forall i: nat :: Holds(st, i, s) <==> owner == Some(i)
  }

  ghost predicate HandledOnlyBy(st: State, s: nat, worker: Option<nat>) {
    forall k: nat :: Handles(st, k, s) <==> worker == Some(k)
  }

  ghost predicate Stands(st: State, s: nat, w: Situation)
    requires s < |st.slots|
  {
    var state := st.slots[s].state;
    match w
    case Available =>
      state == Free && s !in st.queue && HeldOnlyBy(st, s, None) && HandledOnlyBy(st, s, None)
    case Reserved(i) =>
      && (state == Claimed || state == Queued) && s !in st.queue
      && HeldOnlyBy(st, s, Some(i)) && HandledOnlyBy(st, s, None) && Claiming(st, i, s)
    case Waiting(i) =>
      state == Queued && s in st.queue && HeldOnlyBy(st, s, Some(i)) && HandledOnlyBy(st, s, None)
    case Served(k, i) =>
      state == Queued && s !in st.queue && HeldOnlyBy(st, s, Some(i)) && HandledOnlyBy(st, s, Some(k))
    case Orphan(k) =>
      state == Orphaned && s !in st.queue && HeldOnlyBy(st, s, None) && HandledOnlyBy(st, s, Some(k))
    case Answered(i) =>
      && state != Free && s !in st.queue
      && HeldOnlyBy(st, s, Some(i)) && HandledOnlyBy(st, s, None) && !Claiming(st, i, s)
  }

  function SituationOf(p: Phase): Situation {
    match p
    case PFree(_) => Available
    case PClaimed(i) => Reserved(i)
    case PQueued(i) => Waiting(i)
    case PWork(k, i) => Served(k, i)
    case PDetached(k, _) => Orphan(k)
    case PDone(i, _) => Answered(i)
    case PReleasing(i) => Answered(i)
  }

  lemma PhaseHolders(st: State, s: nat)
    requires Inv(st) && s < |st.slots|
    ensures HeldOnlyBy(st, s, PhaseFut(st.phase[s])) && HandledOnlyBy(st, s, PhaseWork(st.phase[s]))
  {
    hide FutOk, WorkOk, SlotOk;
    assert SlotOk(st, s);
    SlotNames(st, s);
    forall i: nat ensures Holds(st, i, s) <==> PhaseFut(st.phase[s]) == Some(i) {
      if Holds(st, i, s) { assert FutOk(st, i); FutOwns(st, i); }
      if PhaseFut(st.phase[s]) == Some(i) { NotLeaving(st, i, s); }
    }
    forall k: nat ensures Handles(st, k, s) <==> PhaseWork(st.phase[s]) == Some(k) {
      if Handles(st, k, s) { assert WorkOk(st, k); WorkOwns(st, k); }
    }
  }

  lemma NotLeaving(st: State, i: nat, s: nat)
    requires Inv(st) && s < |st.slots| && PhaseFut(st.phase[s]) == Some(i) && i < |st.futs|
    ensures st.At(i) != DropUnlock(s, true)
  {
    assert SlotOk(st, s);
  }

  // In every reachable state each slot is in exactly one situation.
  lemma SlotOwnership(st: State, s: nat)
    requires Reachable(st) && s < |st.slots|
    ensures Shape(st) && Stands(st, s, SituationOf(st.phase[s]))
    ensures forall w :: Stands(st, s, w) ==> w == SituationOf(st.phase[s])
    ensures NoDup(st.queue)
  {
    hide FutOk, WorkOk, HeldOnlyBy, HandledOnlyBy;
    ReachableSound(st);
    PhaseHolders(st, s);
    assert SlotOk(st, s);
    forall w | Stands(st, s, w) ensures w == SituationOf(st.phase[s]) {
      OneSituation(st, s, w, SituationOf(st.phase[s]));
    }
  }

  // The situations exclude each other.
  lemma OneSituation(st: State, s: nat, w: Situation, w': Situation)
    requires s < |st.slots| && Stands(st, s, w) && Stands(st, s, w')
    ensures w == w'
  {
    forall o, o' | HeldOnlyBy(st, s, o) && HeldOnlyBy(st, s, o') ensures o == o' {
      if o.Some? { assert Holds(st, o.value, s); }
      if o'.Some? { assert Holds(st, o'.value, s); }
    }
    forall o, o' | HandledOnlyBy(st, s, o) && HandledOnlyBy(st, s, o') ensures o == o' {
      if o.Some? { assert Handles(st, o.value, s); }
      if o'.Some? { assert Handles(st, o'.value, s); }
    }
  }

  // ---------------------------------------------------------------- memory

  // The cells that plain, unsynchronised accesses touch.
  datatype Cell = SharedCell(s: nat) | RunnerCell(s: nat) | OpCell(i: nat) | ResultCell(i: nat)

  // Cells the actor's next operation writes; the last step of a drop frees the future's cells, and a drop of a
  // future without a slot may begin, and end, at any time.
  function Writes(st: State, a: Actor): set<Cell> {
    match a
    case Fut(i) =>
      if i >= |st.futs| then {} else (
        match st.At(i)
        case Parked => if st.futs[i].slot.None? then {OpCell(i), ResultCell(i)} else {}
        case Finished(_) => {OpCell(i), ResultCell(i)}
        case WriteShared(s) => {SharedCell(s)}
        case WriteRunner(s) => {RunnerCell(s)}
        case TakeResult(_) => {ResultCell(i)}
        case DropNull(s) => {SharedCell(s)}
        case DropUnlock(_, orphaned) => if orphaned then {OpCell(i), ResultCell(i)} else {}
        case RelUnlock(next) => if next.None? then {OpCell(i), ResultCell(i)} else {}
        case _ => {})
    case Wrk(k) =>
      if k >= |st.workers| then {} else (
        match st.workers[k]
        case TakeOp(s, _) =>
          if s < |st.slots| && st.slots[s].shared.Some? then {OpCell(st.slots[s].shared.value)} else {}
        case WriteResult(s, _, _) =>
          if s < |st.slots| && st.slots[s].shared.Some? then {ResultCell(st.slots[s].shared.value)} else {}
        case _ => {})
  }

  function Reads(st: State, a: Actor): set<Cell> {
    match a
    case Fut(_) => {}
    case Wrk(k) =>
      if k >= |st.workers| then {} else (
        match st.workers[k]
        case ReadRunner(s) => {RunnerCell(s)}
        case TakeOp(s, _) => {SharedCell(s)}
        case WriteResult(s, _, _) => {SharedCell(s)}
        case _ => {})
  }

  // Why an actor may touch a cell: it sets the slot up, it holds the slot's lock, the slot was handed to
  // it, or the cell is its own.
  ghost predicate Entitled(st: State, a: Actor, c: Cell)
    requires Shape(st)
  {
    match c
    case SharedCell(s) =>
      && s < |st.slots|
      && (if st.phase[s].PClaimed? then a == Fut(st.phase[s].f) else st.slots[s].lock == Some(a))
    case RunnerCell(s) =>
      && s < |st.slots|
      && (if st.phase[s].PClaimed? then a == Fut(st.phase[s].f)
          else a.Wrk? && PhaseWork(st.phase[s]) == Some(a.k))
    case OpCell(i) => i < |st.futs| && (if Busy(st.futs[i]) then a == Fut(i) else ServesLive(st, a, i))
    case ResultCell(i) => i < |st.futs| && (if Busy(st.futs[i]) then a == Fut(i) else ServesLive(st, a, i))
  }

  // The future is at an operation on its own cells, or has no slot and may be freed at once.
  predicate Busy(f: Future) {
    || f.pc.TakeResult? || f.pc.RelUnlock? || (f.pc.DropUnlock? && f.pc.orphaned)
    || (f.pc.Parked? && f.slot.None?) || f.pc.Finished?
  }

  ghost predicate ServesLive(st: State, a: Actor, i: nat)
    requires Shape(st) && i < |st.futs|
  {
    && a.Wrk? && RefOf(st.futs[i]).Some?
    && RefOf(st.futs[i]).value < |st.slots| && st.phase[RefOf(st.futs[i]).value] == PWork(a.k, i)
  }

  lemma AccessEntitled(st: State, a: Actor, c: Cell)
    requires Inv(st) && (c in Writes(st, a) || c in Reads(st, a))
    ensures Entitled(st, a, c)
  {
    match a
    case Fut(i) =>
      assert FutOk(st, i);
      if RefOf(st.futs[i]).Some? { assert SlotOk(st, RefOf(st.futs[i]).value); }
    case Wrk(k) =>
      assert WorkOk(st, k);
      assert SlotOk(st, st.workers[k].s);
      SlotNames(st, st.workers[k].s);
  }

  // No two actors are ever about to touch the same cell when one of them writes it.
  lemma NoDataRace(st: State, a: Actor, b: Actor, c: Cell)
    requires Reachable(st) && a != b && c in Writes(st, a)
    ensures c !in Writes(st, b) && c !in Reads(st, b)
  {
    ReachableSound(st);
    AccessEntitled(st, a, c);
    if c in Writes(st, b) || c in Reads(st, b) {
      AccessEntitled(st, b, c);
    }
  }

  // A worker follows `shared` only while the future that wrote it is alive and of the runner's type.
  lemma SharedIsLive(st: State, k: nat)
    requires Reachable(st) && k < |st.workers|
    requires st.workers[k].TakeOp? || st.workers[k].WriteResult?
    ensures var pc := st.workers[k];
            && pc.s < |st.slots| && st.slots[pc.s].shared == Some(pc.r)
            && pc.r < |st.futs| && !st.At(pc.r).Gone? && RefOf(st.futs[pc.r]) == Some(pc.s)
            && st.slots[pc.s].lock == Some(Wrk(k))
  {
    ReachableSound(st);
    W.ServedBy(st, k);
    assert WorkOk(st, k);
    assert SlotOk(st, st.workers[k].s);
  }

  // ---------------------------------------------------------------- wakers

  // No lost completion: a parked future whose slot is Done has been woken, or the worker that stored Done
  // has still to wake the waker the future registered.  Before that, the waker is there to be woken.
  lemma NoLostCompletion(st: State, i: nat)
    requires Reachable(st) && i < |st.futs| && st.At(i).Parked? && st.futs[i].slot.Some?
    ensures var s := st.futs[i].slot.value;
            && s < |st.slots|
            && (st.futs[i].woken || st.slots[s].waker == Some(st.futs[i].task))
            && (st.slots[s].state == Done ==> st.futs[i].woken || exists k: nat :: AboutToWake(st, k, s))
  {
    ReachableSound(st);
    assert FutOk(st, i);
    assert SlotOk(st, st.futs[i].slot.value);
  }

  // The wake that is still to come reaches the future, whatever else happened to the slot in between.
  lemma WakeReaches(st: State, i: nat, k: nat, v: int, keep: bool)
    requires Reachable(st) && i < |st.futs| && st.At(i).Parked? && st.futs[i].slot.Some? && !st.futs[i].woken
    requires WorkReady(st, k) && st.workers[k] == Wake(st.futs[i].slot.value)
    ensures Shape(st) && !WorkFaults(st, k) && i < |WorkNext(st, k, v, keep).futs|
    ensures WorkNext(st, k, v, keep).futs[i].woken
  {
    ReachableSound(st);
    W.WorkSafe(st, k);
    assert FutOk(st, i);
  }

  // No lost slot waiter: a parked future without a slot is woken or on the list, and while a slot is
  // free somebody is still on the way to wake everybody on the list.
  lemma NoLostSlotWaiter(st: State, i: nat, s: nat)
    requires Reachable(st) && i < |st.futs| && st.At(i).Parked? && st.futs[i].slot.None?
    requires s < |st.slots| && st.slots[s].state == Free && !st.futs[i].woken
    ensures st.futs[i].task in st.waiters && exists a :: StillToWake(st, a)
  {
    ReachableSound(st);
    assert FutOk(st, i) && SlotOk(st, s);
    assert FreedByWaker(st, s);
  }

  // Once the list is drained, every future that waited on it is woken.
  lemma DrainReaches(st: State, a: Action, i: nat)
    requires Reachable(st) && Enabled(st, a) && Draining(st, Doer(a)) && (a.FutStep? || a.WorkStep?)
    requires i < |st.futs| && st.futs[i].task in st.waiters
    ensures Shape(st) && !Faults(st, a) && i < |Next(st, a).futs| && Next(st, a).futs[i].woken
    ensures Next(st, a).waiters == {}
  {
    ReachableSound(st);
    NoFault(st, a);
  }
}
