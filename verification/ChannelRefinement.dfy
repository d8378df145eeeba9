/**
 The bounded channel with any number of threads.  Each step is one queue operation or one access to a
 slot; threads interleave freely.  The machine refines a FIFO whose operations take effect at a single
 moment, and a message is untouched between its dequeue and its being read.
 */
module ChannelRefinement {
  import opened Prelude
  import opened ChannelModel

  // What a thread is about to do.  `n` numbers the dequeued messages.
  datatype Thread<T> =
    | Idle
    | WantSlot(msg: T)              // in `free.recv`
    | HasSlot(s: nat, msg: T)       // about to write the slot
    | Written(s: nat, msg: T)       // about to append it to the message queue
    | SendDone(sr: SendResult<T>)
    | WantMsg                       // in `chan.recv`
    | HasMsg(s: nat, n: nat)        // about to read the slot
    | HasRead(s: nat, n: nat, msg: T) // about to give the slot back
    | RecvDone(rr: RecvResult<T>, n: nat)

  datatype Place = InFree | InChan | InHand(t: nat)

  // `sent` and `got` record the messages appended and dequeued; `place` says where each slot is.
  datatype Chan<T> = Chan(
    cells: seq<Option<T>>,
    free: seq<nat>,
    chan: seq<nat>,
    threads: seq<Thread<T>>,
    // bookkeeping
    place: seq<Place>,
    sent: seq<T>,
    got: seq<T>)
  {
    function Go(t: nat, x: Thread<T>): Chan<T> requires t < |threads| { this.(threads := threads[t := x]) }

    function Put(s: nat, p: Place): Chan<T> requires s < |place| { this.(place := place[s := p]) }

    function Write(s: nat, v: Option<T>): Chan<T> requires s < |cells| { this.(cells := cells[s := v]) }
  }

  datatype Action<T> =
    | Send(t: nat, msg: T)  // a thread calls send
    | Recv(t: nat)          // a thread calls recv
    | Advance(t: nat)       // its next operation
    | TimeOut(t: nat)       // its wait for a queue runs out
    | Return(t: nat)        // its call returns

  predicate Enabled<T>(c: Chan<T>, a: Action<T>) {
    match a
    case Send(t, _) => t < |c.threads| && c.threads[t].Idle?
    case Recv(t) => t < |c.threads| && c.threads[t].Idle?
    case Advance(t) =>
      && t < |c.threads|
      && (match c.threads[t]
          case WantSlot(_) => c.free != []
          case WantMsg => c.chan != []
          case HasSlot(_, _) => true
          case Written(_, _) => true
          case HasMsg(_, _) => true
          case HasRead(_, _, _) => true
          case _ => false)
    case TimeOut(t) =>
      && t < |c.threads|
      && ((c.threads[t].WantSlot? && c.free == []) || (c.threads[t].WantMsg? && c.chan == []))
    case Return(t) => t < |c.threads| && (c.threads[t].SendDone? || c.threads[t].RecvDone?)
  }

  // The slots a step touches exist, and a slot that is read holds a message.
  predicate Safe<T>(c: Chan<T>, a: Action<T>)
    requires Enabled(c, a)
  {
    && |c.place| == |c.cells|
    && (a.Advance? ==>
         match c.threads[a.t]
         case WantSlot(_) => c.free[0] < |c.cells|
         case HasSlot(s, _) => s < |c.cells|
         case Written(s, _) => s < |c.cells|
         case WantMsg => c.chan[0] < |c.cells| && c.cells[c.chan[0]].Some?
         case HasMsg(s, _) => s < |c.cells| && c.cells[s].Some?
         case HasRead(s, _, _) => s < |c.cells|
         case _ => true)
  }

  function Next<T>(c: Chan<T>, a: Action<T>): Chan<T>
    requires Enabled(c, a) && Safe(c, a)
  {
    match a
    case Send(t, msg) => c.Go(t, WantSlot(msg))
    case Recv(t) => c.Go(t, WantMsg)
    case Advance(t) => (
      match c.threads[t]
      case WantSlot(msg) =>
        c.(free := c.free[1..]).Put(c.free[0], InHand(t)).Go(t, HasSlot(c.free[0], msg))
      case HasSlot(s, msg) => c.Write(s, Some(msg)).Go(t, Written(s, msg))
      case Written(s, msg) =>
        c.(chan := c.chan + [s], sent := c.sent + [msg]).Put(s, InChan).Go(t, SendDone(Sent))
      case WantMsg =>
        c.(chan := c.chan[1..], got := c.got + [c.cells[c.chan[0]].value])
          .Put(c.chan[0], InHand(t)).Go(t, HasMsg(c.chan[0], |c.got|))
      case HasMsg(s, n) => c.Write(s, None).Go(t, HasRead(s, n, c.cells[s].value))
      case HasRead(s, n, msg) => c.(free := c.free + [s]).Put(s, InFree).Go(t, RecvDone(Received(msg), n)))
    case TimeOut(t) =>
      if c.threads[t].WantSlot? then c.Go(t, SendDone(SendError(c.threads[t].msg)))
      else c.Go(t, RecvDone(RecvError, 0))
    case Return(t) => c.Go(t, Idle)
  }

  ghost predicate Init<T(!new)>(c: Chan<T>) {
    && |c.place| == |c.cells| && 0 < |c.cells|
    && c.free == seq(|c.cells|, i => i) && c.chan == []
    && (forall s :: 0 <= s < |c.place| ==> c.place[s] == InFree)
    && (forall t :: 0 <= t < |c.threads| ==> c.threads[t].Idle?)
    && c.sent == [] && c.got == []
  }

  datatype Run<T> = Run(states: seq<Chan<T>>, actions: seq<Action<T>>)

  ghost predicate Step<T(!new)>(c: Chan<T>, a: Action<T>, c': Chan<T>) {
    Enabled(c, a) && Safe(c, a) && c' == Next(c, a)
  }

  ghost predicate Execution<T(!new)>(r: Run<T>) {
    && |r.states| == |r.actions| + 1
    && Init(r.states[0])
    && forall n :: 0 <= n < |r.actions| ==> Step(r.states[n], r.actions[n], r.states[n + 1])
  }

  ghost predicate Reachable<T(!new)>(c: Chan<T>) {
    exists r: Run<T> :: Execution(r) && r.states[|r.actions|] == c
  }

  // ---------------------------------------------------------------- the invariant

  function HandOf<T>(x: Thread<T>): Option<nat> {
    match x
    case HasSlot(s, _) => Some(s)
    case Written(s, _) => Some(s)
    case HasMsg(s, _) => Some(s)
    case HasRead(s, _, _) => Some(s)
    case _ => None
  }

  ghost predicate ThreadOk<T(!new)>(c: Chan<T>, t: nat)
    requires t < |c.threads| && |c.place| == |c.cells|
  {
    var x := c.threads[t];
    && (HandOf(x).Some? ==> HandOf(x).value < |c.cells| && c.place[HandOf(x).value] == InHand(t))
    && match x
       case Written(s, msg) => c.cells[s] == Some(msg)
       case HasMsg(s, n) => n < |c.got| && c.cells[s] == Some(c.got[n])
       case HasRead(_, n, msg) => n < |c.got| && msg == c.got[n]
       case RecvDone(rr, n) => rr.Received? ==> n < |c.got| && rr.msg == c.got[n]
       case _ => true
  }

  ghost predicate SlotOk<T(!new)>(c: Chan<T>, s: nat)
    requires s < |c.cells| && |c.place| == |c.cells|
  {
    && (s in c.free <==> c.place[s] == InFree)
    && (s in c.chan <==> c.place[s] == InChan)
    && (c.place[s] == InChan ==> c.cells[s].Some?)
    && (c.place[s].InHand? ==> c.place[s].t < |c.threads| && HandOf(c.threads[c.place[s].t]) == Some(s))
  }

  ghost predicate Inv<T(!new)>(c: Chan<T>) {
    && |c.place| == |c.cells| && 0 < |c.cells|
    && NoDup(c.free) && NoDup(c.chan)
    && (forall s :: s in c.free ==> s < |c.cells|) && (forall s :: s in c.chan ==> s < |c.cells|)
    && (forall t :: 0 <= t < |c.threads| ==> ThreadOk(c, t))
    && (forall s :: 0 <= s < |c.cells| ==> SlotOk(c, s))
    && c.sent == c.got + Payloads(c.chan, c.cells)
  }

  // ---------------------------------------------------------------- the atomic FIFO

  datatype Call<T> =
    | Quiet
    | Sending(msg: T)               // called, no effect yet
    | Answer(sr: SendResult<T>)      // took effect, about to return
    | Receiving
    | Delivery(rr: RecvResult<T>)

  datatype Fifo<T> = Fifo(queue: seq<T>, calls: seq<Call<T>>, cap: nat)

  // What an action of a thread does to the atomic FIFO: a call begins with the message it was given, takes
  // effect at some moment, or times out, and returns.
  ghost predicate FifoStep<T(!new)>(f: Fifo<T>, f': Fifo<T>, a: Action<T>) {
    && a.t < |f.calls| && f'.cap == f.cap
    && |f'.calls| == |f.calls| && f'.calls == f.calls[a.t := f'.calls[a.t]]
    && var c, c' := f.calls[a.t], f'.calls[a.t];
       match a
       case Send(_, msg) => c == Quiet && c' == Sending(msg) && f'.queue == f.queue
       case Recv(_) => c == Quiet && c' == Receiving && f'.queue == f.queue
       case Advance(_) =>
         || (c.Sending? && c' == Answer(Sent) && |f.queue| < f.cap && f'.queue == f.queue + [c.msg])
         || (c.Receiving? && f.queue != [] && c' == Delivery(Received(f.queue[0])) && f'.queue == f.queue[1..])
       case TimeOut(_) =>
         || (c.Sending? && c' == Answer(SendError(c.msg)) && f'.queue == f.queue)
         || (c.Receiving? && f.queue == [] && c' == Delivery(RecvError) && f'.queue == [])
       case Return(_) => (c.Answer? || c.Delivery?) && c' == Quiet && f'.queue == f.queue
  }

  // Where a concrete thread stands in the atomic FIFO: a send takes effect when the slot is appended, a
  // receive when it is dequeued.
  function CallOf<T>(x: Thread<T>, cells: seq<Option<T>>): Call<T> {
    match x
    case Idle => Quiet
    case WantSlot(msg) => Sending(msg)
    case HasSlot(_, msg) => Sending(msg)
    case Written(_, msg) => Sending(msg)
    case SendDone(r) => Answer(r)
    case WantMsg => Receiving
    case HasMsg(s, _) => if s < |cells| && cells[s].Some? then Delivery(Received(cells[s].value)) else Receiving
    case HasRead(_, _, msg) => Delivery(Received(msg))
    case RecvDone(r, _) => Delivery(r)
  }

  function Abs<T>(c: Chan<T>): Fifo<T> {
    Fifo(Payloads(c.chan, c.cells),
         seq(|c.threads|, t requires 0 <= t < |c.threads| => CallOf(c.threads[t], c.cells)),
         |c.cells|)
  }

  // ---------------------------------------------------------------- every step

  lemma Never<T(!new)>(c: Chan<T>, a: Action<T>)
    requires Inv(c) && Enabled(c, a)
    ensures Safe(c, a)
  {
    if a.Advance? {
      assert ThreadOk(c, a.t);
      if c.threads[a.t].WantMsg? {
        assert c.chan[0] in c.chan;
        assert SlotOk(c, c.chan[0]);
      }
      if c.threads[a.t].WantSlot? { assert c.free[0] in c.free; }
    }
  }

  // Only an append or a dequeue changes the messages in flight.
  lemma QueueMoves<T(!new)>(c: Chan<T>, a: Action<T>)
    requires Inv(c) && Enabled(c, a) && Safe(c, a)
    ensures var q, q' := Payloads(c.chan, c.cells), Payloads(Next(c, a).chan, Next(c, a).cells);
      if a.Advance? && c.threads[a.t].Written? then q' == q + [c.threads[a.t].msg]
      else if a.Advance? && c.threads[a.t].WantMsg? then q == [c.cells[c.chan[0]].value] + q'
      else q' == q
  {
    var c' := Next(c, a);
    if a.Advance? {
      assert ThreadOk(c, a.t);
      match c.threads[a.t] {
        case HasSlot(s, msg) =>
          assert SlotOk(c, s);
          PayloadsSame(c.chan, c.cells, c'.cells);
        case HasMsg(s, n) =>
          assert SlotOk(c, s);
          PayloadsSame(c.chan, c.cells, c'.cells);
        case Written(s, msg) =>
          PayloadsAppend(c.chan, s, c.cells);
          assert Payloads([s], c.cells) == [msg];
        case _ =>
      }
    }
  }

  // The messages in flight are those sent and not yet received, in order.
  lemma OrderKeeps<T(!new)>(c: Chan<T>, a: Action<T>)
    requires Inv(c) && Enabled(c, a) && Safe(c, a)
    ensures Next(c, a).sent == Next(c, a).got + Payloads(Next(c, a).chan, Next(c, a).cells)
  {
    QueueMoves(c, a);
    var q, q' := Payloads(c.chan, c.cells), Payloads(Next(c, a).chan, Next(c, a).cells);
    if a.Advance? && c.threads[a.t].Written? {
      assert (c.got + q) + [c.threads[a.t].msg] == c.got + (q + [c.threads[a.t].msg]);
    } else if a.Advance? && c.threads[a.t].WantMsg? {
      assert c.got + ([c.cells[c.chan[0]].value] + q') == (c.got + [c.cells[c.chan[0]].value]) + q';
    }
  }

  // What a step does to membership of the two queues.
  lemma QueuesKeep<T(!new)>(c: Chan<T>, a: Action<T>)
    requires Inv(c) && Enabled(c, a) && Safe(c, a)
    ensures NoDup(Next(c, a).free) && NoDup(Next(c, a).chan)
    ensures forall s :: s in Next(c, a).free <==>
      (s in c.free && !(a.Advance? && c.threads[a.t].WantSlot? && s == c.free[0]))
      || (a.Advance? && c.threads[a.t].HasRead? && s == c.threads[a.t].s)
    ensures forall s :: s in Next(c, a).chan <==>
      (s in c.chan && !(a.Advance? && c.threads[a.t].WantMsg? && s == c.chan[0]))
      || (a.Advance? && c.threads[a.t].Written? && s == c.threads[a.t].s)
  {
    if a.Advance? {
      hide NoDup, Payloads;
      assert ThreadOk(c, a.t);
      var x := c.threads[a.t];
      if x.WantSlot? { TailOf(c.free); }
      if x.WantMsg? { TailOf(c.chan); }
      if x.Written? { assert SlotOk(c, x.s); Appended(c.chan, x.s); }
      if x.HasRead? { assert SlotOk(c, x.s); Appended(c.free, x.s); }
    }
  }

  lemma ThreadKeeps<T(!new)>(c: Chan<T>, a: Action<T>, t: nat)
    requires Inv(c) && Enabled(c, a) && Safe(c, a) && t < |c.threads|
    ensures ThreadOk(Next(c, a), t)
  {
    hide NoDup, Payloads;
    assert ThreadOk(c, a.t) && ThreadOk(c, t);
    if a.Advance? && c.threads[a.t].WantSlot? { assert SlotOk(c, c.free[0]); }
    if a.Advance? && c.threads[a.t].WantMsg? { assert SlotOk(c, c.chan[0]); }
  }

  lemma SlotKeeps<T(!new)>(c: Chan<T>, a: Action<T>, s: nat)
    requires Inv(c) && Enabled(c, a) && Safe(c, a) && s < |c.cells|
    ensures SlotOk(Next(c, a), s)
  {
    QueuesKeep(c, a);
    hide NoDup, Payloads;
    assert ThreadOk(c, a.t) && SlotOk(c, s);
  }

  lemma StepKeeps<T(!new)>(c: Chan<T>, a: Action<T>)
    requires Inv(c) && Enabled(c, a) && Safe(c, a)
    ensures Inv(Next(c, a))
  {
    var c' := Next(c, a);
    OrderKeeps(c, a);
    QueuesKeep(c, a);
    assert ThreadOk(c, a.t);
    forall t | 0 <= t < |c'.threads| ensures ThreadOk(c', t) { ThreadKeeps(c, a, t); }
    forall s | 0 <= s < |c'.cells| ensures SlotOk(c', s) { SlotKeeps(c, a, s); }
    hide NoDup, Payloads, SlotOk, ThreadOk;
  }

  lemma InitOk<T(!new)>(c: Chan<T>)
    requires Init(c)
    ensures Inv(c)
  {
    forall s | 0 <= s < |c.cells| ensures SlotOk(c, s) {
      assert c.free[s] == s;
    }
  }

  lemma {:induction false} RunKeeps<T(!new)>(r: Run<T>, n: nat)
    requires Execution(r) && n <= |r.actions|
    ensures Inv(r.states[n])
  {
    if n == 0 {
      InitOk(r.states[0]);
    } else {
      RunKeeps(r, n - 1);
      assert Step(r.states[n - 1], r.actions[n - 1], r.states[n]);
      StepKeeps(r.states[n - 1], r.actions[n - 1]);
    }
  }

  lemma ReachableOk<T(!new)>(c: Chan<T>)
    requires Reachable(c)
    ensures Inv(c)
  {
    var r: Run<T> :| Execution(r) && r.states[|r.actions|] == c;
    RunKeeps(r, |r.actions|);
  }

  // ---------------------------------------------------------------- where the slots are

  // The slots in threads' hands, in thread order.
  function Hands<T>(threads: seq<Thread<T>>): seq<nat> {
    if threads == [] then []
    else
      var k := |threads| - 1;
      Hands(threads[..k]) + match HandOf(threads[k]) case Some(s) => [s] case None => []
  }

  lemma {:induction false} HandsHold<T(!new)>(threads: seq<Thread<T>>, s: nat)
    ensures s in Hands(threads) <==> exists t :: 0 <= t < |threads| && HandOf(threads[t]) == Some(s)
  {
    if threads != [] {
      var k := |threads| - 1;
      HandsHold(threads[..k], s);
      assert HandOf(threads[k]) == Some(s) ==> HandOf(threads[k]) == Some(s) && 0 <= k < |threads|;
    }
  }

  lemma {:induction false} HandsDistinct<T(!new)>(threads: seq<Thread<T>>)
    requires forall t, u ::
      0 <= t < u < |threads| && HandOf(threads[t]).Some? ==> HandOf(threads[t]) != HandOf(threads[u])
    ensures NoDup(Hands(threads))
  {
    if threads != [] {
      var k := |threads| - 1;
      HandsDistinct(threads[..k]);
      match HandOf(threads[k]) {
        case None =>
          assert Hands(threads) == Hands(threads[..k]);
        case Some(s) =>
          HandsHold(threads[..k], s);
          Appended(Hands(threads[..k]), s);
      }
    }
  }

  lemma Joined(a: seq<nat>, b: seq<nat>)
    requires NoDup(a) && NoDup(b) && forall s: nat :: s in a ==> s !in b
    ensures NoDup(a + b)
  {
    forall i, j | 0 <= i < j < |a + b| ensures (a + b)[i] != (a + b)[j] {
      if i < |a| <= j {
        assert (a + b)[i] in a && (a + b)[j] in b;
      }
    }
  }

  // Every slot is in exactly one of the free queue, the message queue and one thread's hands, so none is
  // ever lost.
  lemma Conservation<T(!new)>(c: Chan<T>)
    requires Inv(c)
    ensures NoDup(c.free + c.chan + Hands(c.threads))
    ensures forall s: nat :: s in c.free + c.chan + Hands(c.threads) <==> s < |c.cells|
    ensures |c.free| + |c.chan| + |Hands(c.threads)| == |c.cells|
  {
    var h := Hands(c.threads);
    forall t, u | 0 <= t < u < |c.threads| && HandOf(c.threads[t]).Some?
      ensures HandOf(c.threads[t]) != HandOf(c.threads[u])
    {
      assert ThreadOk(c, t) && ThreadOk(c, u);
    }
    HandsDistinct(c.threads);
    forall s: nat ensures s in h <==> s < |c.cells| && c.place[s].InHand? {
      HandsHold(c.threads, s);
      if s < |c.cells| { assert SlotOk(c, s); }
      if t :| 0 <= t < |c.threads| && HandOf(c.threads[t]) == Some(s) { assert ThreadOk(c, t); }
    }
    forall s: nat ensures s in c.free <==> s < |c.cells| && c.place[s] == InFree {
      if s < |c.cells| { assert SlotOk(c, s); }
    }
    forall s: nat ensures s in c.chan <==> s < |c.cells| && c.place[s] == InChan {
      if s < |c.cells| { assert SlotOk(c, s); }
    }
    Joined(c.free, c.chan);
    Joined(c.free + c.chan, h);
    Count(c.free + c.chan + h, |c.cells|);
  }

  // A send gives up exactly when the queued messages and the slots in hand fill the channel, a receive
  // exactly when no message is queued.
  lemma GivesUpExactly<T(!new)>(c: Chan<T>, t: nat)
    requires Inv(c) && t < |c.threads|
    ensures Enabled(c, TimeOut(t)) <==>
      || (c.threads[t].WantSlot? && |Abs(c).queue| + |Hands(c.threads)| == |c.cells|)
      || (c.threads[t].WantMsg? && Abs(c).queue == [])
  {
    Conservation(c);
    forall s | s in c.chan ensures s < |c.cells| && c.cells[s].Some? { assert SlotOk(c, s); }
    PayloadsLength(c.chan, c.cells);
  }

  // ---------------------------------------------------------------- refinement

  // Each step is what its action does to the atomic FIFO; only a thread's advance may be invisible.
  lemma StepRefines<T(!new)>(c: Chan<T>, a: Action<T>)
    requires Inv(c) && Enabled(c, a) && Safe(c, a)
    ensures (a.Advance? && Abs(Next(c, a)) == Abs(c)) || FifoStep(Abs(c), Abs(Next(c, a)), a)
  {
    var c' := Next(c, a);
    var f, f' := Abs(c), Abs(c');
    assert ThreadOk(c, a.t);
    forall t | 0 <= t < |c.threads| && t != a.t ensures f'.calls[t] == f.calls[t] {
      CallKeeps(c, a, t);
    }
    assert f'.calls == f.calls[a.t := f'.calls[a.t]];
    QueueMoves(c, a);
    Room(c);
    if a.Advance? && (c.threads[a.t].HasSlot? || c.threads[a.t].HasMsg? || c.threads[a.t].WantSlot?
                      || c.threads[a.t].HasRead?) {
      assert f'.calls == f.calls;
    }
  }

  // The stages another thread's call goes through are not disturbed.
  lemma CallKeeps<T(!new)>(c: Chan<T>, a: Action<T>, t: nat)
    requires Inv(c) && Enabled(c, a) && Safe(c, a) && t < |c.threads| && t != a.t
    ensures CallOf(Next(c, a).threads[t], Next(c, a).cells) == CallOf(c.threads[t], c.cells)
  {
    hide NoDup, Payloads;
    assert ThreadOk(c, a.t) && ThreadOk(c, t);
  }

  // There is room in the FIFO for what is appended, and it is empty just when the queue is.
  lemma Room<T(!new)>(c: Chan<T>)
    requires Inv(c)
    ensures (Payloads(c.chan, c.cells) == []) == (c.chan == [])
    ensures forall t :: 0 <= t < |c.threads| && c.threads[t].Written? ==> |Payloads(c.chan, c.cells)| < |c.cells|
  {
    forall s | s in c.chan ensures s < |c.cells| && c.cells[s].Some? { assert SlotOk(c, s); }
    PayloadsLength(c.chan, c.cells);
    forall t | 0 <= t < |c.threads| && c.threads[t].Written? ensures |c.chan| < |c.cells| {
      var s := c.threads[t].s;
      assert ThreadOk(c, t) && SlotOk(c, s);
      Appended(c.chan, s);
      DistinctBound(c.chan + [s], |c.cells|);
    }
  }

  // Over a whole run the channel behaves as an atomic FIFO that starts empty.
  lemma Refines<T(!new)>(r: Run<T>)
    requires Execution(r)
    ensures Abs(r.states[0]).queue == []
    ensures forall t :: 0 <= t < |r.states[0].threads| ==> Abs(r.states[0]).calls[t] == Quiet
    ensures forall n :: 0 <= n < |r.actions| ==>
      || (r.actions[n].Advance? && Abs(r.states[n + 1]) == Abs(r.states[n]))
      || FifoStep(Abs(r.states[n]), Abs(r.states[n + 1]), r.actions[n])
  {
    forall n | 0 <= n < |r.actions|
      ensures
        || (r.actions[n].Advance? && Abs(r.states[n + 1]) == Abs(r.states[n]))
        || FifoStep(Abs(r.states[n]), Abs(r.states[n + 1]), r.actions[n])
    {
      RunKeeps(r, n);
      assert Step(r.states[n], r.actions[n], r.states[n + 1]);
      StepRefines(r.states[n], r.actions[n]);
    }
  }

  // The n-th message dequeued is the n-th one appended, and a receiver returns just the message it dequeued.
  lemma InOrder<T(!new)>(c: Chan<T>, t: nat)
    requires Reachable(c) && t < |c.threads|
    ensures |c.got| <= |c.sent| && c.got == c.sent[..|c.got|]
    ensures c.threads[t].HasMsg? ==>
      && c.threads[t].n < |c.sent| && c.threads[t].s < |c.cells|
      && c.cells[c.threads[t].s] == Some(c.sent[c.threads[t].n])
    ensures c.threads[t].RecvDone? && c.threads[t].rr.Received? ==>
      c.threads[t].n < |c.sent| && c.threads[t].rr.msg == c.sent[c.threads[t].n]
  {
    ReachableOk(c);
    assert ThreadOk(c, t);
  }

  // ---------------------------------------------------------------- what was sent

  // The message of the latest send among the actions of thread `t`.
  function LastSend<T>(actions: seq<Action<T>>, t: nat): Option<T> {
    if actions == [] then None
    else
      var a := actions[|actions| - 1];
      if a.Send? && a.t == t then Some(a.msg) else LastSend(actions[..|actions| - 1], t)
  }

  // The moments, before the n-th, at which a message was put into the queue.
  function Appends<T>(r: Run<T>, n: nat): seq<nat>
    requires n <= |r.actions| <= |r.states|
  {
    if n == 0 then []
    else
      var a := r.actions[n - 1];
      Appends(r, n - 1) +
      if a.Advance? && a.t < |r.states[n - 1].threads| && r.states[n - 1].threads[a.t].Written? then [n - 1] else []
  }

  // The message a thread has still to send, or could not send.
  function Carried<T>(x: Thread<T>): Option<T> {
    match x
    case WantSlot(msg) => Some(msg)
    case HasSlot(_, msg) => Some(msg)
    case Written(_, msg) => Some(msg)
    case SendDone(SendError(msg)) => Some(msg)
    case _ => None
  }

  lemma StepCarries<T(!new)>(c: Chan<T>, a: Action<T>, t: nat)
    requires Enabled(c, a) && Safe(c, a) && t < |c.threads| && Carried(Next(c, a).threads[t]).Some?
    ensures if a.Send? && a.t == t then Carried(Next(c, a).threads[t]) == Some(a.msg)
            else Carried(c.threads[t]) == Carried(Next(c, a).threads[t])
  {
  }

  lemma StepSent<T(!new)>(c: Chan<T>, a: Action<T>)
    requires Enabled(c, a) && Safe(c, a)
    ensures Next(c, a).sent ==
      if a.Advance? && c.threads[a.t].Written? then c.sent + [c.threads[a.t].msg] else c.sent
    ensures |Next(c, a).threads| == |c.threads|
  {
  }

  lemma {:induction false} CarriesItsOwn<T(!new)>(r: Run<T>, n: nat, t: nat)
    requires Execution(r) && n <= |r.actions| && t < |r.states[n].threads| && Carried(r.states[n].threads[t]).Some?
    ensures LastSend(r.actions[..n], t) == Carried(r.states[n].threads[t])
  {
    if n > 0 {
      assert r.actions[..n][..n - 1] == r.actions[..n - 1];
      assert Step(r.states[n - 1], r.actions[n - 1], r.states[n]);
      hide Enabled, Safe, Next;
      StepSent(r.states[n - 1], r.actions[n - 1]);
      StepCarries(r.states[n - 1], r.actions[n - 1], t);
      if !(r.actions[n - 1].Send? && r.actions[n - 1].t == t) { CarriesItsOwn(r, n - 1, t); }
    }
  }

  // The n-th message put into the queue is the one its thread's send was given.
  lemma {:induction false} SentAreGiven<T(!new)>(r: Run<T>, n: nat)
    requires Execution(r) && n <= |r.actions|
    ensures |Appends(r, n)| == |r.states[n].sent|
    ensures forall k :: 0 <= k < |Appends(r, n)| ==>
      var m := Appends(r, n)[k];
      m < n && LastSend(r.actions[..m], r.actions[m].t) == Some(r.states[n].sent[k])
  {
    if n > 0 {
      SentAreGiven(r, n - 1);
      var c, a := r.states[n - 1], r.actions[n - 1];
      assert Step(c, a, r.states[n]);
      assert a.t < |c.threads|;
      hide Safe, Next;
      StepSent(c, a);
      if a.Advance? && c.threads[a.t].Written? { CarriesItsOwn(r, n - 1, a.t); }
      hide Enabled, LastSend;
    }
  }

  // What a receiver returns is what the send that was given the matching place in the queue was called with.
  lemma ReceivedWasGiven<T(!new)>(r: Run<T>, n: nat, t: nat)
    requires Execution(r) && n <= |r.actions| && t < |r.states[n].threads|
    requires r.states[n].threads[t].RecvDone? && r.states[n].threads[t].rr.Received?
    ensures var x := r.states[n].threads[t];
      && x.n < |Appends(r, n)|
      && var m := Appends(r, n)[x.n];
         m < n && LastSend(r.actions[..m], r.actions[m].t) == Some(x.rr.msg)
  {
    RunKeeps(r, n);
    assert ThreadOk(r.states[n], t);
    SentAreGiven(r, n);
    hide LastSend, Payloads;
  }

  // A send that gives up hands back the message it was called with.
  lemma RefusedWasGiven<T(!new)>(r: Run<T>, n: nat, t: nat)
    requires Execution(r) && n <= |r.actions| && t < |r.states[n].threads|
    requires r.states[n].threads[t].SendDone? && r.states[n].threads[t].sr.SendError?
    ensures LastSend(r.actions[..n], t) == Some(r.states[n].threads[t].sr.msg)
  {
    CarriesItsOwn(r, n, t);
  }

  lemma NeverFaults<T(!new)>(c: Chan<T>, a: Action<T>)
    requires Reachable(c) && Enabled(c, a)
    ensures Safe(c, a)
  {
    ReachableOk(c);
    Never(c, a);
  }

  // ---------------------------------------------------------------- a refused send

  // Once no thread is between two of its operations, a send gives up only on a full channel.
  lemma RefusedWhenFull<T(!new)>(c: Chan<T>, t: nat)
    requires Reachable(c) && t < |c.threads| && c.threads[t].WantSlot?
    requires forall u :: 0 <= u < |c.threads| ==> HandOf(c.threads[u]).None?
    ensures Enabled(c, TimeOut(t)) <==> |Abs(c).queue| == |c.cells|
  {
    ReachableOk(c);
    GivesUpExactly(c, t);
    if Hands(c.threads) != [] {
      var s := Hands(c.threads)[0];
      assert s in Hands(c.threads);
      HandsHold(c.threads, s);
    }
  }

  function Witness(n: nat): Chan<int>
    requires n <= 8
  {
    var x: Thread<int> := [Idle, WantSlot(7), HasSlot(0, 7), Written(0, 7), SendDone(Sent), SendDone(Sent),
                           SendDone(Sent), Idle, WantSlot(8)][n];
    var y: Thread<int> := if n < 5 then Idle else if n == 5 then WantMsg else HasMsg(0, 0);
    Chan(
      if n < 3 then [None] else [Some(7)],
      if n < 2 then [0] else [],
      if n == 4 || n == 5 then [0] else [],
      [x, y],
      [if n < 2 then InFree else if n < 4 then InHand(0) else if n < 6 then InChan else InHand(1)],
      if n < 4 then [] else [7],
      if n < 6 then [] else [7])
  }

  const WITNESS_ACTIONS: seq<Action<int>> :=
    [Send(0, 7), Advance(0), Advance(0), Advance(0), Recv(1), Advance(1), Return(0), Send(0, 8)]

  // Otherwise a send can give up on an empty channel: here one receiver still holds the only slot.
  lemma RefusedWhenEmpty() returns (c: Chan<int>)
    ensures Reachable(c) && |c.threads| == 2 && c.threads[0] == WantSlot(8) && Enabled(c, TimeOut(0))
    ensures Abs(c).queue == []
  {
    var r := Run(seq(9, n requires 0 <= n < 9 => Witness(n)), WITNESS_ACTIONS);
    c := Witness(8);
    forall n | 0 <= n < 8 ensures Step(r.states[n], r.actions[n], r.states[n + 1]) {
      WitnessStep(n);
    }
    assert Init(r.states[0]);
    assert Execution(r) && r.states[|r.actions|] == c;
  }

  lemma WitnessStep(n: nat)
    requires n < 8
    ensures Step(Witness(n), WITNESS_ACTIONS[n], Witness(n + 1))
  {
    if n < 4 { WitnessSends(n); } else { WitnessReceives(n); }
  }

  lemma WitnessSends(n: nat)
    requires n < 4
    ensures Step(Witness(n), WITNESS_ACTIONS[n], Witness(n + 1))
  {
    var d, c' := Next(Witness(n), WITNESS_ACTIONS[n]), Witness(n + 1);
    assert d.cells == c'.cells && d.free == c'.free && d.chan == c'.chan;
    assert d.threads == c'.threads && d.place == c'.place;
    assert d.sent == c'.sent && d.got == c'.got;
  }

  lemma WitnessReceives(n: nat)
    requires 4 <= n < 8
    ensures Step(Witness(n), WITNESS_ACTIONS[n], Witness(n + 1))
  {
    var d, c' := Next(Witness(n), WITNESS_ACTIONS[n]), Witness(n + 1);
    assert d.cells == c'.cells && d.free == c'.free && d.chan == c'.chan;
    assert d.threads == c'.threads && d.place == c'.place;
    assert d.sent == c'.sent && d.got == c'.got;
  }
}
