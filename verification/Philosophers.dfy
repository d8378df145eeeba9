/**
 The dining philosophers of samples/philosophers (lib.rs and channel.rs) for any number of philosophers.

 Each philosopher loops through take, take, eat, release, release; one server thread owns the forks and
 is reached through one command channel and one reply channel for each philosopher.  A step is one
 channel operation at the granularity of the bounded channel's slots (take a free slot, append it;
 dequeue a slot, give it back), one assignment to a fork, or one change of a philosopher's activity.
 */
module Philosophers {
  import opened Prelude

  // ---------------------------------------------------------------- forks

  datatype Fork = Free | InUse | InUseWait(waiter: nat)

  datatype Command = Acquire(fork: nat, client: nat) | Release(fork: nat)

  // What the server does with a command for a fork in a given state.
  datatype Verdict = Keep(fork: Fork) | Reply(to: nat) | Panic

  function OnAcquire(fork: Fork, client: nat): Verdict {
    match fork
    case Free => Reply(client)
    case InUse => Keep(InUseWait(client))
    case InUseWait(_) => Panic
  }

  function OnRelease(fork: Fork): Verdict {
    match fork
    case Free => Panic
    case InUse => Keep(Free)
    case InUseWait(waiter) => Reply(waiter)
  }

  datatype Turn = First | Second

  // The two forks of philosopher `p` of `n`; the last philosopher takes them in the other order.
  function ForkOf(n: nat, p: nat, turn: Turn): (f: nat)
    requires p < n
    ensures n >= 2 ==> f < n
  {
    match turn
    case First => if p == n - 1 then 0 else p
    case Second => if p == n - 1 then p else p + 1
  }

  predicate Uses(n: nat, p: nat, f: nat) {
    p < n && (f == ForkOf(n, p, First) || f == ForkOf(n, p, Second))
  }

  // Forks are taken in increasing order.
  lemma Ordered(n: nat, p: nat)
    requires p < n && n >= 2
    ensures ForkOf(n, p, First) < ForkOf(n, p, Second)
  {
  }

  // The philosophers sit in a ring: each shares the fork on its right with the next one, and a fork has no other
  // users.
  lemma UsersAre(n: nat, f: nat, p: nat)
    requires n >= 2 && f < n && p < n
    ensures Uses(n, p, f) <==> p == f || p == (f + n - 1) % n
  {
    if f > 0 {
      assert (f + n - 1) % n == f - 1 by { Wrap(f - 1, n); }
    }
  }

  lemma Wrap(x: nat, n: nat)
    requires x < n
    ensures (x + n) % n == x && x % n == x
  {
  }

  lemma NeighboursShare(n: nat, p: nat)
    requires n >= 2 && p < n
    ensures (p + 1) % n < n && (p + 1) % n != p
    ensures Uses(n, p, (p + 1) % n) && Uses(n, (p + 1) % n, (p + 1) % n)
  {
    if p < n - 1 { Wrap(p + 1, n); }
  }

  // A fork has two users.
  lemma TwoUsers(n: nat, f: nat, p: nat, q: nat, r: nat)
    requires n >= 2 && Uses(n, p, f) && Uses(n, q, f) && Uses(n, r, f)
    ensures p == q || q == r || p == r
  {
  }

  // ---------------------------------------------------------------- threads

  datatype Phil =
    | Thinking
    | Asking(turn: Turn)    // in `command.send(Acquire)`, waiting for a free slot
    | Posting(turn: Turn)   // has the slot
    | Waiting(turn: Turn)   // in `reply_recv.recv`
    | Taking(turn: Turn)    // has the reply's slot
    | Eating
    | Giving(turn: Turn)    // in `command.send(Release)`
    | Returning(turn: Turn) // has the slot

  datatype Server =
    | Idle
    | Holding(cmd: Command)   // has dequeued a command's slot
    | Handling(cmd: Command)  // about to look at the fork
    | Replying(to: nat, fork: nat) // in `reply.send`, waiting for a free slot
    | Sending(to: nat, fork: nat)  // has the slot
    | Settling(fork: nat)     // about to store InUse

  // Bookkeeping: where a philosopher's call, and where a fork's release, is.
  datatype Call = NoCall | InQueue | InServer | Recorded | Granted | Answered
  datatype Giveback = NoRelease | RelQueued | RelServed

  // Capacities are None for unbounded channels.  `call`, `back` and `owner` are bookkeeping; no step
  // depends on them.
  datatype State = State(
    commandCap: Option<nat>,
    replyCap: Option<nat>,
    phils: seq<Phil>,
    forks: seq<Fork>,
    queue: seq<Command>,
    server: Server,
    replies: seq<nat>,
    meals: seq<nat>,
    call: seq<Call>,
    back: seq<Giveback>,
    owner: seq<Option<nat>>)
  {
    predicate Sized() {
      && |phils| >= 2
      && |forks| == |replies| == |meals| == |call| == |back| == |owner| == |phils|
      && (commandCap.Some? ==> commandCap.value >= 1)
      && (replyCap.Some? ==> replyCap.value >= 1)
    }

    function ForkAt(p: nat, turn: Turn): (f: nat)
      requires Sized() && p < |phils|
      ensures f < |phils|
    {
      ForkOf(|phils|, p, turn)
    }

    // Who holds a slot of the command channel; the server goes by |phils|.
    function Holders(): set<nat> {
      (set p: nat | p < |phils| && (phils[p].Posting? || phils[p].Returning?))
      + if server.Holding? then {|phils|} else {}
    }

    predicate CommandRoom() {
      commandCap.Some? ==> |queue| + |Holders()| < commandCap.value
    }

    // The slots of a reply channel that are not free.
    function ReplyBusy(p: nat): nat
      requires Sized() && p < |phils|
    {
      replies[p] + (if phils[p].Taking? then 1 else 0) + (if server.Sending? && server.to == p then 1 else 0)
    }

    predicate ReplyRoom(p: nat)
      requires Sized() && p < |phils|
    {
      replyCap.Some? ==> ReplyBusy(p) < replyCap.value
    }

    function Go(p: nat, pc: Phil): State requires p < |phils| { this.(phils := phils[p := pc]) }
    function Serve(s: Server): State { this.(server := s) }
    function SetFork(f: nat, x: Fork): State requires f < |forks| { this.(forks := forks[f := x]) }
    function SetCall(p: nat, c: Call): State requires p < |call| { this.(call := call[p := c]) }
    function SetBack(f: nat, b: Giveback): State requires f < |back| { this.(back := back[f := b]) }
    function SetOwner(f: nat, o: Option<nat>): State requires f < |owner| { this.(owner := owner[f := o]) }
  }

  // ---------------------------------------------------------------- a philosopher's steps

  predicate PhilReady(st: State, p: nat)
    requires st.Sized() && p < |st.phils|
  {
    match st.phils[p]
    case Asking(_) => st.CommandRoom()
    case Giving(_) => st.CommandRoom()
    case Waiting(_) => st.replies[p] > 0
    case _ => true
  }

  // What a philosopher does next.
  function PcNext(pc: Phil): Phil {
    match pc
    case Thinking => Asking(First)
    case Asking(turn) => Posting(turn)
    case Posting(turn) => Waiting(turn)
    case Waiting(turn) => Taking(turn)
    case Taking(turn) => if turn == First then Asking(Second) else Eating
    case Eating => Giving(Second)
    case Giving(turn) => Returning(turn)
    case Returning(turn) => if turn == Second then Giving(First) else Thinking
  }

  function PhilNext(st: State, p: nat): (st': State)
    requires st.Sized() && p < |st.phils| && PhilReady(st, p)
    ensures st'.Sized() && st'.phils == st.phils[p := PcNext(st.phils[p])]
    ensures st'.forks == st.forks && st'.server == st.server && st'.owner == st.owner
  {
    var st1 := st.Go(p, PcNext(st.phils[p]));
    match st.phils[p]
    case Posting(turn) =>
      st1.(queue := st.queue + [Acquire(st.ForkAt(p, turn), p)]).SetCall(p, InQueue)
    case Waiting(_) => st1.(replies := st.replies[p := st.replies[p] - 1]).SetCall(p, NoCall)
    case Eating => st1.(meals := st.meals[p := st.meals[p] + 1])
    case Returning(turn) =>
      st1.(queue := st.queue + [Release(st.ForkAt(p, turn))]).SetBack(st.ForkAt(p, turn), RelQueued)
    case _ => st1
  }

  // ---------------------------------------------------------------- the server's steps

  predicate ServerReady(st: State)
    requires st.Sized()
  {
    match st.server
    case Idle => st.queue != []
    case Replying(to, _) => to < |st.phils| ==> st.ReplyRoom(to)
    case _ => true
  }

  // A step that would panic, or index the forks or the clients out of range.
  predicate ServerFaults(st: State)
    requires st.Sized()
  {
    match st.server
    case Handling(Acquire(f, p)) =>
      f >= |st.forks| || p >= |st.phils| || OnAcquire(st.forks[f], p).Panic?
    case Handling(Release(f)) =>
      f >= |st.forks| || (match OnRelease(st.forks[f])
                          case Panic => true
                          case Reply(to) => to >= |st.phils|
                          case Keep(_) => false)
    case Holding(Acquire(_, p)) => p >= |st.phils|
    case Idle => st.queue != [] && (match st.queue[0]
                                    case Acquire(_, p) => p >= |st.phils|
                                    case Release(f) => f >= |st.forks|)
    case Replying(to, _) => to >= |st.phils|
    case Sending(to, _) => to >= |st.phils|
    case Settling(f) => f >= |st.forks|
    case _ => false
  }

  function ServerNext(st: State): (st': State)
    requires st.Sized() && ServerReady(st) && !ServerFaults(st)
    ensures st'.Sized() && st'.phils == st.phils
  {
    match st.server
    case Idle =>
      var st1 := st.(queue := st.queue[1..]).Serve(Holding(st.queue[0]));
      if st.queue[0].Acquire? then st1.SetCall(st.queue[0].client, InServer)
      else st1.SetBack(st.queue[0].fork, RelServed)
    case Holding(cmd) => st.Serve(Handling(cmd))
    case Handling(Acquire(f, p)) => (
      match OnAcquire(st.forks[f], p)
      case Reply(_) => st.SetOwner(f, Some(p)).SetCall(p, Granted).Serve(Replying(p, f))
      case Keep(x) => st.SetFork(f, x).SetCall(p, Recorded).Serve(Idle))
    case Handling(Release(f)) => (
      match OnRelease(st.forks[f])
      case Reply(w) =>
        st.SetOwner(f, Some(w)).SetBack(f, NoRelease).SetCall(w, Granted).Serve(Replying(w, f))
      case Keep(x) => st.SetFork(f, x).SetOwner(f, None).SetBack(f, NoRelease).Serve(Idle))
    case Replying(to, f) => st.Serve(Sending(to, f))
    case Sending(to, f) =>
      st.(replies := st.replies[to := st.replies[to] + 1]).SetCall(to, Answered).Serve(Settling(f))
    case Settling(f) => st.SetFork(f, InUse).Serve(Idle)
  }

  // ---------------------------------------------------------------- runs

  datatype Action = PhilStep(p: nat) | ServerStep

  predicate Enabled(st: State, a: Action)
    requires st.Sized()
  {
    match a
    case PhilStep(p) => p < |st.phils| && PhilReady(st, p)
    case ServerStep => ServerReady(st)
  }

  predicate Faults(st: State, a: Action)
    requires st.Sized()
  {
    a.ServerStep? && ServerFaults(st)
  }

  function Next(st: State, a: Action): (st': State)
    requires st.Sized() && Enabled(st, a) && !Faults(st, a)
    ensures st'.Sized() && |st'.phils| == |st.phils|
  {
    match a
    case PhilStep(p) => PhilNext(st, p)
    case ServerStep => ServerNext(st)
  }

  // A philosopher stops thinking: the only step that makes new work.
  predicate Hungry(st: State, a: Action) {
    a.PhilStep? && a.p < |st.phils| && st.phils[a.p].Thinking?
  }

  ghost predicate Init(st: State) {
    && st.Sized()
    && (forall p :: 0 <= p < |st.phils| ==> st.phils[p] == Thinking)
    && (forall f :: 0 <= f < |st.forks| ==> st.forks[f] == Free)
    && st.queue == [] && st.server == Idle
    && (forall p :: 0 <= p < |st.replies| ==> st.replies[p] == 0)
    && (forall p :: 0 <= p < |st.meals| ==> st.meals[p] == 0)
    && (forall p :: 0 <= p < |st.call| ==> st.call[p] == NoCall)
    && (forall f :: 0 <= f < |st.back| ==> st.back[f] == NoRelease)
    && (forall f :: 0 <= f < |st.owner| ==> st.owner[f] == None)
  }

  datatype Run = Run(states: seq<State>, actions: seq<Action>)

  ghost predicate Step(st: State, a: Action, st': State) {
    st.Sized() && Enabled(st, a) && !Faults(st, a) && st' == Next(st, a)
  }

  ghost predicate ValidRun(r: Run) {
    && |r.states| == |r.actions| + 1
    && forall n :: 0 <= n < |r.actions| ==> Step(r.states[n], r.actions[n], r.states[n + 1])
  }

  ghost predicate Execution(r: Run) { ValidRun(r) && Init(r.states[0]) }

  ghost predicate Reachable(st: State) {
    st.Sized() && exists r: Run :: Execution(r) && r.states[|r.actions|] == st
  }
}
