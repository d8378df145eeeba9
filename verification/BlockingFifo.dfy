/**
 Workers take operations in the order they were submitted, apart from those removed by a cancelled future.
 */
module BlockingFifo {
  import opened Prelude
  import opened BlockingPool
  import opened BlockingInvariant
  import opened BlockingFrame
  import opened BlockingSafety
  import opened BlockingRuns

  // The elements of `q` outside `r`, in order.
  function Kept(q: seq<nat>, r: set<nat>): seq<nat> {
    if q == [] then [] else if q[0] in r then Kept(q[1..], r) else [q[0]] + Kept(q[1..], r)
  }

  // The futures whose slots are queued, in queue order.
  function Owners(q: seq<nat>, phase: seq<Phase>): seq<nat> {
    if q == [] then []
    else (if q[0] < |phase| && phase[q[0]].PQueued? then [phase[q[0]].f] else []) + Owners(q[1..], phase)
  }

  // The future has not submitted its operation yet.
  predicate Unsent(f: Future) {
    match f.pc
    case Parked => f.slot.None?
    case ClaimLock => true
    case ClaimScan(_) => true
    case ClaimUnlock(_) => true
    case SetWaker(_) => true
    case WriteShared(_) => true
    case WriteRunner(_) => true
    case StartCas(_) => true
    case Spawn(_, _) => true
    case StoreQueued(_) => true
    case Send(_) => true
    case _ => false
  }

  ghost predicate FifoOk(st: State) {
    && Kept(st.sent, st.removed) == st.got + Owners(st.queue, st.phase)
    && NoDup(st.sent)
    && (forall i :: i in st.sent ==> i < |st.futs| && !Unsent(st.futs[i]))
    && (forall i :: i in st.removed ==> i in st.sent)
  }

  // ---------------------------------------------------------------- sequences

  lemma {:induction false} KeptAppend(a: seq<nat>, b: seq<nat>, r: set<nat>)
    ensures Kept(a + b, r) == Kept(a, r) + Kept(b, r)
  {
    if a == [] {
      assert a + b == b;
    } else {
      KeptAppend(a[1..], b, r);
      assert (a + b)[1..] == a[1..] + b && (a + b)[0] == a[0];
      if a[0] !in r {
        var x, y := Kept(a[1..], r), Kept(b, r);
        assert [a[0]] + (x + y) == ([a[0]] + x) + y;
      }
    }
  }

  lemma {:induction false} KeptMore(q: seq<nat>, r: set<nat>, i: nat)
    ensures Kept(q, r + {i}) == Kept(Kept(q, r), {i})
  {
    if q != [] {
      KeptMore(q[1..], r, i);
      if q[0] !in r { assert ([q[0]] + Kept(q[1..], r))[1..] == Kept(q[1..], r); }
    }
  }

  lemma {:induction false} KeptFrom(q: seq<nat>, r: set<nat>)
    requires NoDup(q)
    ensures NoDup(Kept(q, r)) && (forall x :: x in Kept(q, r) ==> x in q)
  {
    if q != [] {
      KeptFrom(q[1..], r);
      assert q == [q[0]] + q[1..];
      assert q[0] !in q[1..];
    }
  }

  lemma {:induction false} KeptAll(q: seq<nat>, i: nat)
    requires i !in q
    ensures Kept(q, {i}) == q
  {
    if q != [] {
      assert q == [q[0]] + q[1..];
      KeptAll(q[1..], i);
    }
  }

  lemma {:induction false} OwnersAppend(q: seq<nat>, s: nat, phase: seq<Phase>)
    ensures Owners(q + [s], phase) == Owners(q, phase) + Owners([s], phase)
  {
    if q == [] {
      assert q + [s] == [s];
    } else {
      OwnersAppend(q[1..], s, phase);
      assert (q + [s])[1..] == q[1..] + [s] && (q + [s])[0] == q[0];
      var h := if q[0] < |phase| && phase[q[0]].PQueued? then [phase[q[0]].f] else [];
      var x, y := Owners(q[1..], phase), Owners([s], phase);
      assert Owners(q, phase) == h + x;
      assert h + (x + y) == (h + x) + y;
    }
  }

  lemma {:induction false} OwnersSame(q: seq<nat>, phase: seq<Phase>, phase': seq<Phase>)
    requires |phase'| == |phase|
    requires forall s :: s in q && s < |phase| ==> phase'[s] == phase[s]
    ensures Owners(q, phase') == Owners(q, phase)
  {
    if q != [] {
      assert q == [q[0]] + q[1..];
      OwnersSame(q[1..], phase, phase');
    }
  }

  // Every queued slot has its owner among the owners.
  lemma {:induction false} OwnersFull(q: seq<nat>, phase: seq<Phase>)
    requires forall n :: 0 <= n < |q| ==> q[n] < |phase| && phase[q[n]].PQueued?
    ensures |Owners(q, phase)| == |q|
    ensures forall n :: 0 <= n < |q| ==> Owners(q, phase)[n] == phase[q[n]].f
  {
    if q != [] {
      OwnersFull(q[1..], phase);
    }
  }

  lemma QueuedPhases(st: State)
    requires Inv(st)
    ensures forall n :: 0 <= n < |st.queue| ==> st.queue[n] < |st.phase| && st.phase[st.queue[n]].PQueued?
  {
    hide FutOk, WorkOk;
    forall n | 0 <= n < |st.queue| ensures st.queue[n] < |st.phase| && st.phase[st.queue[n]].PQueued? {
      assert st.queue[n] in st.queue;
      assert SlotOk(st, st.queue[n]);
    }
  }

  // Unlinking a slot takes its owner out of the owners.
  lemma {:induction false} OwnersWithout(q: seq<nat>, s: nat, phase: seq<Phase>, i: nat)
    requires s in q && s < |phase| && phase[s] == PQueued(i)
    requires NoDup(Owners(q, phase))
    ensures Owners(Without(q, s), phase) == Kept(Owners(q, phase), {i})
  {
    assert q == [q[0]] + q[1..];
    var rest := Owners(q[1..], phase);
    if q[0] == s {
      assert Owners(q, phase) == [i] + rest;
      assert Owners(q, phase)[0] == i;
      assert forall x :: 0 <= x < |rest| ==> Owners(q, phase)[x + 1] == rest[x];
      KeptAll(rest, i);
      assert Kept([i] + rest, {i}) == rest by { assert ([i] + rest)[1..] == rest; }
    } else {
      OwnerIn(q[1..], s, phase, i);
      var head := if q[0] < |phase| && phase[q[0]].PQueued? then [phase[q[0]].f] else [];
      assert Owners(q, phase) == head + rest;
      assert NoDup(rest) by {
        forall x, y | 0 <= x < y < |rest| ensures rest[x] != rest[y] {
          assert rest[x] == (head + rest)[|head| + x] && rest[y] == (head + rest)[|head| + y];
        }
      }
      OwnersWithout(q[1..], s, phase, i);
      KeptAppend(head, rest, {i});
      if head != [] {
        assert (head + rest)[0] == head[0];
        assert head[0] != i;
        KeptAll(head, i);
      }
      assert Without(q, s) == [q[0]] + Without(q[1..], s);
    }
  }

  lemma {:induction false} OwnerIn(q: seq<nat>, s: nat, phase: seq<Phase>, i: nat)
    requires s in q && s < |phase| && phase[s] == PQueued(i)
    ensures i in Owners(q, phase)
  {
    assert q == [q[0]] + q[1..];
    if q[0] != s { OwnerIn(q[1..], s, phase, i); }
  }

  // ---------------------------------------------------------------- steps

  // Steps other than sending, removing and receiving leave the queue and its owners alone.
  ghost predicate QueueFrame(st: State, st': State)
    requires SameSize(st, st')
  {
    && st'.queue == st.queue && st'.sent == st.sent && st'.got == st.got && st'.removed == st.removed
    && (forall s :: 0 <= s < |st.slots| && st.phase[s].PQueued? ==> st'.phase[s] == st.phase[s])
    && (forall j :: 0 <= j < |st.futs| && !Unsent(st.futs[j]) ==> !Unsent(st'.futs[j]))
  }

  lemma ArrivingQueue(st: State, i: nat)
    requires Shape(st) && FutReady(st, i) && !FutFaults(st, i) && Arriving(st.At(i)) && !st.At(i).Send?
    requires st.At(i).ClaimScan? && st.At(i).j < |st.slots| && st.slots[st.At(i).j].state == Free ==>
      st.phase[st.At(i).j].PFree?
    requires st.At(i).LoadState? ==> st.futs[i].slot.Some?
    ensures QueueFrame(st, FutNext(st, i))
  {
  }

  lemma FutArrivingQueue(st: State, i: nat)
    requires Inv(st) && FutReady(st, i) && !FutFaults(st, i) && Arriving(st.At(i)) && !st.At(i).Send?
    ensures QueueFrame(st, FutNext(st, i))
  {
    hide WorkOk, GlobalOk, QueueFrame;
    if st.At(i).ClaimScan? && st.At(i).j < |st.slots| { assert SlotOk(st, st.At(i).j); }
    assert FutOk(st, i);
    ArrivingQueue(st, i);
  }

  lemma LeavingQueue(st: State, i: nat)
    requires Shape(st) && FutReady(st, i) && !FutFaults(st, i) && !Arriving(st.At(i))
    requires !(st.At(i).DropRemove? && st.At(i).s in st.queue)
    requires st.At(i).TakeResult? || st.At(i).RelFree? || st.At(i).DropLoad? || st.At(i).DropOrphan? ==>
      !st.phase[st.At(i).s].PQueued?
    ensures QueueFrame(st, FutNext(st, i))
  {
    if st.At(i).TakeResult? || st.At(i).RelFree? || st.At(i).DropLoad? || st.At(i).DropOrphan? {
      LeavingSlot(st, i);
    }
  }

  lemma LeavingSlot(st: State, i: nat)
    requires Shape(st) && FutReady(st, i) && !FutFaults(st, i)
    requires st.At(i).TakeResult? || st.At(i).RelFree? || st.At(i).DropLoad? || st.At(i).DropOrphan?
    requires !st.phase[st.At(i).s].PQueued?
    ensures QueueFrame(st, FutNext(st, i))
  {
  }

  lemma FutLeavingQueue(st: State, i: nat)
    requires Inv(st) && FutReady(st, i) && !FutFaults(st, i) && !Arriving(st.At(i))
    requires !(st.At(i).DropRemove? && st.At(i).s in st.queue)
    ensures QueueFrame(st, FutNext(st, i))
  {
    hide WorkOk, SlotOk, GlobalOk, QueueFrame;
    assert FutOk(st, i);
    LeavingQueue(st, i);
  }

  lemma WorkQueueFrame(st: State, k: nat, v: int, keep: bool)
    requires Inv(st) && WorkReady(st, k) && !WorkFaults(st, k) && !st.workers[k].Idle?
    ensures QueueFrame(st, WorkNext(st, k, v, keep))
  {
    hide FutOk, GlobalOk, SlotOk;
    assert WorkOk(st, k);
    assert st.workers[k].FreeSlot? ==> !st.phase[st.workers[k].s].PQueued?;
    hide Inv, WorkOk;
    if Early(st.workers[k]) { EarlyQueueFrame(st, k, v, keep); }
  }

  lemma EarlyQueueFrame(st: State, k: nat, v: int, keep: bool)
    requires Shape(st) && WorkReady(st, k) && !WorkFaults(st, k) && !st.workers[k].Idle? && Early(st.workers[k])
    ensures QueueFrame(st, WorkNext(st, k, v, keep))
  {
  }

  lemma FrameFifo(st: State, st': State)
    requires Inv(st) && FifoOk(st) && SameSize(st, st') && QueueFrame(st, st')
    ensures FifoOk(st')
  {
    hide FutOk, WorkOk;
    forall s | s in st.queue && s < |st.phase| ensures st'.phase[s] == st.phase[s] { assert SlotOk(st, s); }
    OwnersSame(st.queue, st.phase, st'.phase);
  }

  lemma SendFifo(st: State, i: nat)
    requires Inv(st) && FifoOk(st) && FutReady(st, i) && !FutFaults(st, i) && st.At(i).Send?
    ensures FifoOk(FutNext(st, i))
  {
    hide WorkOk, FifoOk;
    var s := st.At(i).s;
    assert FutOk(st, i) && SlotOk(st, s);
    SentFifo(st, i, s);
  }

  lemma SentFifo(st: State, i: nat, s: nat)
    requires Shape(st) && FifoOk(st) && FutReady(st, i) && !FutFaults(st, i)
    requires st.At(i) == Send(s) && s < |st.slots| && s !in st.queue && st.futs[i].slot == Some(s)
    ensures FifoOk(FutNext(st, i))
  {
    var st' := FutNext(st, i);
    KeptAppend(st.sent, [i], st.removed);
    OwnersSame(st.queue, st.phase, st'.phase);
    OwnersAppend(st.queue, s, st'.phase);
    assert i !in st.sent;
    assert Kept([i], st.removed) == [i];
    assert Owners([s], st'.phase) == [i];
    assert Kept(st'.sent, st'.removed) == st.got + (Owners(st.queue, st.phase) + [i]);
  }

  // Taking one submission back, seen on the sequences alone.
  lemma Withdraw(sent: seq<nat>, removed: set<nat>, got: seq<nat>, queue: seq<nat>, phase: seq<Phase>, s: nat, i: nat)
    requires Kept(sent, removed) == got + Owners(queue, phase) && NoDup(sent)
    requires s in queue && s < |phase| && phase[s] == PQueued(i)
    ensures Kept(sent, removed + {i}) == got + Owners(Without(queue, s), phase)
    ensures i in sent
  {
    var owners := Owners(queue, phase);
    KeptMore(sent, removed, i);
    KeptFrom(sent, removed);
    KeptAppend(got, owners, {i});
    OwnerIn(queue, s, phase, i);
    SplitNoDup(got, owners, i);
    KeptAll(got, i);
    OwnersWithout(queue, s, phase, i);
    assert i in Kept(sent, removed);
  }

  lemma RemoveFifo(st: State, i: nat)
    requires Inv(st) && FifoOk(st) && FutReady(st, i) && !FutFaults(st, i)
    requires st.At(i).DropRemove? && st.At(i).s in st.queue
    ensures FifoOk(FutNext(st, i))
  {
    hide WorkOk, FifoOk;
    var s := st.At(i).s;
    assert FutOk(st, i) && SlotOk(st, s);
    RemovedFifo(st, i, s);
  }

  lemma RemovedFifo(st: State, i: nat, s: nat)
    requires Shape(st) && FifoOk(st) && FutReady(st, i) && !FutFaults(st, i)
    requires st.At(i) == DropRemove(s) && s in st.queue && s < |st.slots|
    requires st.phase[s] == PQueued(i) && NoDup(st.queue)
    ensures FifoOk(FutNext(st, i))
  {
    Withdraw(st.sent, st.removed, st.got, st.queue, st.phase, s, i);
    WithoutGone(st.queue, s);
    OwnersSame(Without(st.queue, s), st.phase, FutNext(st, i).phase);
  }

  lemma {:induction false} WithoutGone(q: seq<nat>, s: nat)
    requires NoDup(q)
    ensures s !in Without(q, s)
  {
    WithoutOne(q, s);
  }

  lemma SplitNoDup(a: seq<nat>, b: seq<nat>, i: nat)
    requires NoDup(a + b) && i in b
    ensures i !in a && NoDup(b)
  {
    assert forall x :: 0 <= x < |b| ==> (a + b)[|a| + x] == b[x];
    assert forall x :: 0 <= x < |a| ==> (a + b)[x] == a[x];
  }

  lemma ReceiveFifo(st: State, k: nat, v: int, keep: bool)
    requires Inv(st) && FifoOk(st) && WorkReady(st, k) && !WorkFaults(st, k) && st.workers[k].Idle?
    ensures FifoOk(WorkNext(st, k, v, keep))
  {
    hide WorkOk, FutOk;
    var s := st.queue[0];
    assert s in st.queue;
    assert SlotOk(st, s);
    hide SlotOk;
    var st' := WorkNext(st, k, v, keep);
    var f := st.phase[s].f;
    assert st.queue == [s] + st.queue[1..];
    assert s !in st.queue[1..];
    OwnersSame(st.queue[1..], st.phase, st'.phase);
    assert st'.got + Owners(st'.queue, st'.phase) == st.got + ([f] + Owners(st.queue[1..], st.phase));
  }

  lemma FifoKeeps(st: State, a: Action)
    requires Sound(st) && FifoOk(st) && Enabled(st, a) && !Faults(st, a)
    ensures FifoOk(Next(st, a))
  {
    hide FutFaults, WorkFaults, FutNext, WorkNext, FutOk, SlotOk, WorkOk, GlobalOk, FifoOk;
    match a
    case Poll(i, t) => FrameFifo(st, Next(st, a));
    case Drop(i) => FrameFifo(st, Next(st, a));
    case FutStep(i) =>
      if st.At(i).Send? { SendFifo(st, i); }
      else if st.At(i).DropRemove? && st.At(i).s in st.queue { RemoveFifo(st, i); }
      else {
        if Arriving(st.At(i)) { FutArrivingQueue(st, i); } else { FutLeavingQueue(st, i); }
        FrameFifo(st, Next(st, a));
      }
    case WorkStep(k, v, keep) =>
      if st.workers[k].Idle? { ReceiveFifo(st, k, v, keep); }
      else {
        WorkQueueFrame(st, k, v, keep);
        FrameFifo(st, Next(st, a));
      }
  }

  lemma InitFifo(st: State)
    requires Init(st)
    ensures FifoOk(st)
  {
  }

  lemma {:induction false} RunFifo(r: Run, n: nat)
    requires Execution(r) && n <= |r.actions|
    ensures Sound(r.states[n]) && FifoOk(r.states[n])
  {
    InitFifo(r.states[0]);
    InitSound(r.states[0]);
    RunSound(r, n);
    hide Inv, StartOk, WaitersOk, FifoOk, Init, Enabled, Faults, Next;
    if n > 0 {
      RunFifo(r, n - 1);
      assert Step(r.states[n - 1], r.actions[n - 1], r.states[n]);
      FifoKeeps(r.states[n - 1], r.actions[n - 1]);
    }
  }

  // What workers have dequeued so far is the submissions in order, without the removed ones, up to the
  // ones that are still queued; the queue holds exactly the rest, in the same order, a slot for each.
  lemma DequeuedInOrder(st: State)
    requires Reachable(st)
    ensures Kept(st.sent, st.removed) == st.got + Owners(st.queue, st.phase)
    ensures NoDup(st.sent) && st.got <= Kept(st.sent, st.removed)
    ensures |Owners(st.queue, st.phase)| == |st.queue|
    ensures forall n :: 0 <= n < |st.queue| ==>
      st.queue[n] < |st.phase| && st.phase[st.queue[n]] == PQueued(Owners(st.queue, st.phase)[n])
  {
    var r: Run :| Execution(r) && r.states[|r.actions|] == st;
    RunFifo(r, |r.actions|);
    QueuedPhases(st);
    OwnersFull(st.queue, st.phase);
    hide Inv, FifoOk, Owners;
  }
}
