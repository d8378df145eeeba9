/**
 `SlotPool::claim` and `SlotPool::release` of zephyr/src/blocking.rs as the in-place operations they are, for
 one thread that nobody interrupts, and the agreement of their scan with the steps of the machine.
 */
module BlockingSlots {
  import opened Prelude
  import opened BlockingPool

  // The first free slot at or above `j`.
  function FirstFree(states: seq<SlotState>, j: nat): (r: Option<nat>)
    requires j <= |states|
    ensures r.Some? ==> j <= r.value < |states| && states[r.value] == Free
    ensures forall k :: j <= k < (if r.Some? then r.value else |states|) ==> states[k] != Free
    decreases |states| - j
  {
    if j == |states| then None else if states[j] == Free then Some(j) else FirstFree(states, j + 1)
  }

  // `MultiWakerRegistration::register`: the waiters, and the tasks woken to make room.
  function Registered(waiters: set<Task>, cap: nat, t: Task): (r: (set<Task>, set<Task>))
    ensures t in r.0
    ensures |waiters| <= cap && cap >= 1 ==> |r.0| <= cap
    // a task that no longer waits was woken
    ensures waiters <= r.0 + r.1
    // nobody is woken while there is room, and nobody but the caller is added
    ensures t in waiters || |waiters| < cap ==> r.1 == {}
    ensures r.0 <= waiters + {t} && r.1 <= waiters
  {
    if t in waiters then (waiters, {})
    else if |waiters| < cap then (waiters + {t}, {})
    else ({t}, waiters)
  }

  class SlotPool {
    const states: array<SlotState>
    const cap: nat
    var waiters: set<Task>
    var woken: set<Task>

    constructor (slots: nat, cap: nat)
      ensures fresh(states) && states[..] == seq(slots, _ => Free)
      ensures this.cap == cap && waiters == {} && woken == {}
    {
      states := new SlotState[slots](_ => Free);
      this.cap, waiters, woken := cap, {}, {};
      new;
      assert states[..] == seq(slots, _ => Free);
    }

    method CompareExchange(j: nat, expected: SlotState, value: SlotState) returns (ok: bool)
      requires j < states.Length
      modifies states
      ensures ok == (old(states[j]) == expected)
      ensures states[..] == if ok then old(states[..])[j := value] else old(states[..])
    {
      ok := states[j] == expected;
      if ok { states[j] := value; }
    }

    // The first free slot becomes the caller's; without one the caller is registered.
    method Claim(waker: Task) returns (slot: Option<nat>)
      modifies this`waiters, this`woken, states
      ensures slot == FirstFree(old(states[..]), 0)
      ensures states[..] == match slot case Some(s) => old(states[..])[s := Claimed] case None => old(states[..])
      ensures slot.Some? ==> waiters == old(waiters) && woken == old(woken)
      ensures slot.None? ==>
        && waiters == Registered(old(waiters), cap, waker).0
        && woken == old(woken) + Registered(old(waiters), cap, waker).1
    {
      slot := None;
      var j := 0;
      while j < states.Length
        invariant j <= states.Length && slot.None?
        invariant states[..] == old(states[..]) && waiters == old(waiters) && woken == old(woken)
        invariant FirstFree(old(states[..]), 0) == FirstFree(old(states[..]), j)
      {
        var ok := CompareExchange(j, Free, Claimed);
        if ok {
          return Some(j);
        }
        j := j + 1;
      }
      var r := Registered(waiters, cap, waker);
      waiters, woken := r.0, woken + r.1;
    }

    // The slot is free again and every waiting task is woken.
    method Release(s: nat)
      requires s < states.Length
      modifies this`waiters, this`woken, states
      ensures states[..] == old(states[..])[s := Free]
      ensures waiters == {} && woken == old(woken) + old(waiters)
    {
      states[s] := Free;
      woken := woken + waiters;
      waiters := {};
    }
  }

  // ---------------------------------------------------------------- the machine's scan

  function States(st: State): (r: seq<SlotState>)
    ensures |r| == |st.slots| && forall s :: 0 <= s < |r| ==> r[s] == st.slots[s].state
  {
    seq(|st.slots|, s requires 0 <= s < |st.slots| => st.slots[s].state)
  }

  // The steps of a scan by future `i` from slot `j` on, with nobody in between.
  function Scan(st: State, i: nat, j: nat): (r: State)
    requires Shape(st) && i < |st.futs| && j <= |st.slots|
    ensures SameSize(st, r)
    decreases |st.slots| - j
  {
    var st1 := ClaimNext(st, i, j);
    if j < |st.slots| && st.slots[j].state != Free then Scan(st1, i, j + 1) else st1
  }

  // One compare-exchange of the scan, or its end.
  lemma ScanStep(st: State, i: nat, j: nat)
    requires Shape(st) && i < |st.futs| && j <= |st.slots|
    ensures var st' := ClaimNext(st, i, j);
      if j < |st.slots| && st.slots[j].state == Free then
        && st'.At(i) == ClaimUnlock(Some(j)) && States(st') == States(st)[j := Claimed]
        && st'.waiters == st.waiters
      else if j < |st.slots| then
        && States(st') == States(st) && st'.waiters == st.waiters && st'.cap == st.cap
        && Tasks(st') == Tasks(st)
      else
        && st'.At(i) == ClaimUnlock(None) && States(st') == States(st)
        && st'.waiters == Registered(st.waiters, st.cap, st.futs[i].task).0
        && AllTold(st, st')
  {
    var st' := ClaimNext(st, i, j);
    assert j < |st.slots| && st.slots[j].state == Free ==> States(st') == States(st)[j := Claimed];
    assert !(j < |st.slots| && st.slots[j].state == Free) ==> States(st') == States(st);
  }

  function Tasks(st: State): seq<Task> {
    seq(|st.futs|, k requires 0 <= k < |st.futs| => st.futs[k].task)
  }

  // Whoever was waiting waits still or has been woken.
  ghost predicate AllTold(st: State, st': State)
    requires |st'.futs| == |st.futs|
  {
    forall k :: 0 <= k < |st.futs| && st.futs[k].task in st.waiters ==>
      st'.futs[k].woken || st.futs[k].task in st'.waiters
  }

  // The steps do what `Claim` does: the same slot, the same states, the same waiters.
  lemma {:induction false} ScanIsClaim(st: State, i: nat, j: nat)
    requires Shape(st) && i < |st.futs| && j <= |st.slots|
    ensures var st', found := Scan(st, i, j), FirstFree(States(st), j);
      && st'.At(i) == ClaimUnlock(found)
      && States(st') == (match found case Some(s) => States(st)[s := Claimed] case None => States(st))
      && st'.waiters == (if found.Some? then st.waiters
                         else Registered(st.waiters, st.cap, st.futs[i].task).0)
      && AllTold(st, st')
    decreases |st.slots| - j
  {
    var st1 := ClaimNext(st, i, j);
    ScanStep(st, i, j);
    if j < |st.slots| && st.slots[j].state != Free {
      ScanIsClaim(st1, i, j + 1);
      assert forall k :: 0 <= k < |st.futs| ==> Tasks(st1)[k] == Tasks(st)[k];
      hide ClaimNext, States, Registered;
    } else {
      hide States, Registered;
    }
  }
}
