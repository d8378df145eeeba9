/**
 The invariant of the dining philosophers: who owns which fork, and where every command is.
 */
module PhilosophersSafety {
  import opened Prelude
  import opened Philosophers

  // Fork `f` is in the philosopher's hands: the reply was received and the release not yet sent.
  predicate Has(phils: seq<Phil>, p: nat, f: nat)
    requires p < |phils|
  {
    var first, second := ForkOf(|phils|, p, First), ForkOf(|phils|, p, Second);
    match phils[p]
    case Thinking => false
    case Asking(turn) => turn == Second && f == first
    case Posting(turn) => turn == Second && f == first
    case Waiting(turn) => turn == Second && f == first
    case Taking(turn) => f == first || (turn == Second && f == second)
    case Eating => f == first || f == second
    case Giving(turn) => f == first || (turn == Second && f == second)
    case Returning(turn) => f == first || (turn == Second && f == second)
  }

  // The philosopher's call asks for fork `f`.
  predicate Wants(phils: seq<Phil>, p: nat, f: nat)
    requires p < |phils|
  {
    phils[p].Waiting? && f == ForkOf(|phils|, p, phils[p].turn)
  }

  // The fork was granted to the philosopher, who does not know yet.
  predicate Promised(st: State, p: nat, f: nat)
    requires st.Sized() && p < |st.phils|
  {
    (st.call[p].Granted? || st.call[p].Answered?) && Wants(st.phils, p, f)
  }

  // The command the server works on.
  function Current(s: Server): Option<Command> {
    if s.Holding? || s.Handling? then Some(s.cmd) else None
  }

  // The fork the server is about to store InUse into.
  function Serving(s: Server): Option<nat> {
    if s.Replying? || s.Sending? || s.Settling? then Some(s.fork) else None
  }

  // The client the server is about to reply to.
  function Client(s: Server): Option<nat> {
    if s.Replying? || s.Sending? then Some(s.to) else None
  }

  ghost predicate CallOk(st: State, p: nat)
    requires st.Sized() && p < |st.phils|
  {
    && (st.phils[p].Waiting? <==> !st.call[p].NoCall?)
    && st.replies[p] == (if st.call[p].Answered? then 1 else 0)
    && (st.phils[p].Waiting? ==>
          var f := st.ForkAt(p, st.phils[p].turn);
          match st.call[p]
          case NoCall => true
          case InQueue => Acquire(f, p) in st.queue
          case InServer => Current(st.server) == Some(Acquire(f, p))
          case Recorded => st.forks[f] == InUseWait(p) && st.owner[f] != Some(p)
          case Granted => Client(st.server) == Some(p) && Serving(st.server) == Some(f)
          case Answered => true)
  }

  ghost predicate HandOk(st: State, p: nat, f: nat)
    requires st.Sized() && p < |st.phils| && f < |st.phils|
  {
    Has(st.phils, p, f) || Promised(st, p, f) ==> st.owner[f] == Some(p) && st.back[f].NoRelease?
  }

  ghost predicate OwnerOk(st: State, f: nat)
    requires st.Sized() && f < |st.phils|
  {
    && (st.owner[f].Some? ==>
          var o := st.owner[f].value;
          o < |st.phils| && Uses(|st.phils|, o, f)
          && (st.back[f].NoRelease? ==> Has(st.phils, o, f) || Promised(st, o, f)))
    && (!st.back[f].NoRelease? ==> st.owner[f].Some?)
    && (st.back[f].RelQueued? ==> Release(f) in st.queue)
    && (st.back[f].RelServed? ==> Current(st.server) == Some(Release(f)))
  }

  ghost predicate ForkOk(st: State, f: nat)
    requires st.Sized() && f < |st.phils|
  {
    var x := st.forks[f];
    && (x.InUseWait? ==> x.waiter < |st.phils|)
    && if Serving(st.server) == Some(f) then
         && st.owner[f].Some?
         && (x.InUseWait? ==> !(st.call[x.waiter].Recorded? && Wants(st.phils, x.waiter, f)))
       else
         && (x.Free? <==> st.owner[f].None?)
         && (x.InUseWait? ==> st.call[x.waiter].Recorded? && Wants(st.phils, x.waiter, f))
  }

  // A command is what its place says.
  ghost predicate CommandOk(st: State, cmd: Command, queued: bool)
    requires st.Sized()
  {
    match cmd
    case Acquire(f, p) =>
      && p < |st.phils| && f < |st.phils| && Wants(st.phils, p, f)
      && st.call[p] == (if queued then InQueue else InServer)
      && (!queued ==> st.owner[f] != Some(p))
    case Release(f) => f < |st.phils| && st.back[f] == (if queued then RelQueued else RelServed)
  }

  ghost predicate QueueOk(st: State)
    requires st.Sized()
  {
    && NoDup(st.queue)
    && (forall i :: 0 <= i < |st.queue| ==> CommandOk(st, st.queue[i], true))
  }

  // A philosopher's own release is ahead of its next request for the same fork.
  ghost predicate Behind(st: State)
    requires st.Sized()
  {
    forall i, j :: (
      && 0 <= i < |st.queue| && 0 <= j < |st.queue|
      && st.queue[i].Acquire? && st.queue[j] == Release(st.queue[i].fork)
      && st.queue[i].fork < |st.owner| && st.owner[st.queue[i].fork] == Some(st.queue[i].client)) ==> j < i
  }

  ghost predicate ServerOk(st: State)
    requires st.Sized()
  {
    match st.server
    case Idle => true
    case Holding(cmd) => CommandOk(st, cmd, false)
    case Handling(cmd) => CommandOk(st, cmd, false)
    case Replying(p, f) => p < |st.phils| && f < |st.phils| && st.call[p].Granted? && Wants(st.phils, p, f)
    case Sending(p, f) => p < |st.phils| && f < |st.phils| && st.call[p].Granted? && Wants(st.phils, p, f)
    case Settling(f) => f < |st.phils|
  }

  ghost predicate Inv(st: State) {
    && st.Sized()
    && (forall p :: 0 <= p < |st.phils| ==> CallOk(st, p))
    && (forall p, f :: 0 <= p < |st.phils| && 0 <= f < |st.phils| ==> HandOk(st, p, f))
    && (forall f :: 0 <= f < |st.phils| ==> OwnerOk(st, f))
    && (forall f :: 0 <= f < |st.phils| ==> ForkOk(st, f))
    && QueueOk(st) && Behind(st)
    && ServerOk(st)
  }

  // ---------------------------------------------------------------- nothing faults

  lemma HeadOk(st: State)
    requires Inv(st) && st.queue != []
    ensures CommandOk(st, st.queue[0], true)
  {
  }

  lemma NoFault(st: State, a: Action)
    requires Inv(st) && Enabled(st, a)
    ensures !Faults(st, a)
  {
    if a.ServerStep? {
      if st.queue != [] { HeadOk(st); }
      if st.server.Handling? {
        var f := st.server.cmd.fork;
        assert ForkOk(st, f) && OwnerOk(st, f);
        if st.server.cmd.Acquire? && st.forks[f].InUseWait? {
          var p, w, o := st.server.cmd.client, st.forks[f].waiter, st.owner[f].value;
          assert CallOk(st, w);
          TwoUsers(|st.phils|, f, p, w, o);
        }
      }
    }
  }

  // ---------------------------------------------------------------- philosophers' steps

  lemma PhilKeepsCalls(st: State, p: nat, q: nat)
    requires st.Sized() && p < |st.phils| && q < |st.phils| && PhilReady(st, p)
    requires CallOk(st, p) && CallOk(st, q)
    ensures CallOk(PhilNext(st, p), q)
  {
    hide ForkOf;
  }

  // What a philosopher's step does to the forks in hand.
  lemma HasMoves(phils: seq<Phil>, p: nat, q: nat, f: nat)
    requires p < |phils| && q < |phils| && |phils| >= 2
    ensures Has(phils[p := PcNext(phils[p])], q, f) <==>
      || (Has(phils, q, f) && !(q == p && phils[p].Returning? && f == ForkOf(|phils|, p, phils[p].turn)))
      || (q == p && Wants(phils, p, f))
  {
    Ordered(|phils|, p);
    hide ForkOf;
  }

  // What is promised to a philosopher is settled by its own receiving of the reply.
  lemma PromisedMoves(st: State, p: nat, q: nat, f: nat)
    requires st.Sized() && p < |st.phils| && q < |st.phils| && PhilReady(st, p)
    requires CallOk(st, p)
    ensures Promised(PhilNext(st, p), q, f) <==> Promised(st, q, f) && q != p
    ensures Wants(st.phils, p, f) ==> Promised(st, p, f)
  {
    hide ForkOf;
  }

  lemma PhilKeepsHands(st: State, p: nat, q: nat, f: nat)
    requires st.Sized() && p < |st.phils| && q < |st.phils| && f < |st.phils| && PhilReady(st, p)
    requires CallOk(st, p) && HandOk(st, q, f)
    requires st.phils[p].Returning? ==> HandOk(st, p, st.ForkAt(p, st.phils[p].turn))
    ensures HandOk(PhilNext(st, p), q, f)
  {
    HasMoves(st.phils, p, q, f);
    PromisedMoves(st, p, q, f);
    hide Promised, Wants, ForkOf, CallOk;
  }

  lemma PhilKeepsOwners(st: State, p: nat, f: nat)
    requires st.Sized() && p < |st.phils| && f < |st.phils| && PhilReady(st, p)
    requires CallOk(st, p) && HandOk(st, p, f) && OwnerOk(st, f)
    ensures OwnerOk(PhilNext(st, p), f)
  {
    if st.owner[f].Some? {
      HasMoves(st.phils, p, st.owner[f].value, f);
      PromisedMoves(st, p, st.owner[f].value, f);
    }
    hide Promised, Wants, ForkOf, Uses, CallOk;
  }

  lemma PhilKeepsForks(st: State, p: nat, f: nat)
    requires st.Sized() && p < |st.phils| && f < |st.phils| && PhilReady(st, p)
    requires CallOk(st, p) && ForkOk(st, f)
    ensures ForkOk(PhilNext(st, p), f)
  {
    hide ForkOf;
  }

  // A command that is somewhere stays what its place says.
  lemma PhilKeepsCommand(st: State, p: nat, cmd: Command, queued: bool)
    requires st.Sized() && p < |st.phils| && PhilReady(st, p) && CommandOk(st, cmd, queued)
    requires CallOk(st, p)
    requires st.phils[p].Returning? ==> HandOk(st, p, st.ForkAt(p, st.phils[p].turn))
    ensures CommandOk(PhilNext(st, p), cmd, queued)
  {
    hide ForkOf;
  }

  lemma PhilKeepsQueue(st: State, p: nat)
    requires Inv(st) && p < |st.phils| && PhilReady(st, p)
    ensures QueueOk(PhilNext(st, p))
  {
    assert CallOk(st, p);
    var st' := PhilNext(st, p);
    if st.phils[p].Returning? {
      var f := st.ForkAt(p, st.phils[p].turn);
      assert HandOk(st, p, f);
      assert Release(f) !in st.queue by {
        if i :| 0 <= i < |st.queue| && st.queue[i] == Release(f) { assert CommandOk(st, st.queue[i], true); }
      }
      Appended(st.queue, Release(f));
    }
    if st.phils[p].Posting? {
      var c := Acquire(st.ForkAt(p, st.phils[p].turn), p);
      assert c !in st.queue by {
        if i :| 0 <= i < |st.queue| && st.queue[i] == c { assert CommandOk(st, st.queue[i], true); }
      }
      Appended(st.queue, c);
    }
    forall i | 0 <= i < |st'.queue| ensures CommandOk(st', st'.queue[i], true) {
      if i < |st.queue| {
        assert CommandOk(st, st.queue[i], true);
        PhilKeepsCommand(st, p, st.queue[i], true);
      }
    }
    hide NoDup, ForkOf;
  }

  lemma PhilKeepsServer(st: State, p: nat)
    requires st.Sized() && p < |st.phils| && PhilReady(st, p) && ServerOk(st)
    requires CallOk(st, p)
    requires st.phils[p].Returning? ==> HandOk(st, p, st.ForkAt(p, st.phils[p].turn))
    ensures ServerOk(PhilNext(st, p))
  {
    if Current(st.server).Some? { PhilKeepsCommand(st, p, st.server.cmd, false); }
    hide ForkOf;
  }

  lemma PhilKeepsOrder(st: State, p: nat)
    requires Inv(st) && p < |st.phils| && PhilReady(st, p)
    ensures Behind(PhilNext(st, p))
  {
    hide Uses, NoDup;
    assert CallOk(st, p);
    if st.phils[p].Returning? {
      assert HandOk(st, p, st.ForkAt(p, st.phils[p].turn));
      forall i | 0 <= i < |st.queue| && st.queue[i].Acquire? ensures st.queue[i].client != p {
        assert CommandOk(st, st.queue[i], true);
      }
    }
  }

  lemma PhilKeeps(st: State, p: nat)
    requires Inv(st) && p < |st.phils| && PhilReady(st, p)
    ensures Inv(PhilNext(st, p))
  {
    var st' := PhilNext(st, p);
    assert CallOk(st, p);
    if st.phils[p].Returning? { assert HandOk(st, p, st.ForkAt(p, st.phils[p].turn)); }
    forall q | 0 <= q < |st.phils| ensures CallOk(st', q) { PhilKeepsCalls(st, p, q); }
    forall q, f | 0 <= q < |st.phils| && 0 <= f < |st.phils| ensures HandOk(st', q, f) {
      PhilKeepsHands(st, p, q, f);
    }
    forall f | 0 <= f < |st.phils| ensures OwnerOk(st', f) && ForkOk(st', f) {
      PhilKeepsOwners(st, p, f);
      PhilKeepsForks(st, p, f);
    }
    PhilKeepsQueue(st, p);
    PhilKeepsOrder(st, p);
    PhilKeepsServer(st, p);
    hide CallOk, HandOk, OwnerOk, ForkOk, QueueOk, Behind, ServerOk, PhilNext;
  }

  // ---------------------------------------------------------------- the server's steps

  // A request reaches the server only after the client's own release of the fork.
  lemma HeadNotOwner(st: State)
    requires Inv(st) && st.server.Idle? && st.queue != [] && st.queue[0].Acquire?
    ensures var c := st.queue[0]; c.fork < |st.phils| && st.owner[c.fork] != Some(c.client)
  {
    HeadOk(st);
    assert CallOk(st, st.queue[0].client) && OwnerOk(st, st.queue[0].fork);
    Ordered(|st.phils|, st.queue[0].client);
    assert Behind(st);
  }

  lemma ServerKeepsCalls(st: State, q: nat)
    requires Inv(st) && q < |st.phils| && ServerReady(st) && !ServerFaults(st)
    ensures CallOk(ServerNext(st), q)
  {
    assert CallOk(st, q);
    match st.server {
      case Idle => HeadOk(st); TailOf(st.queue); IdleKeepsCalls(st, q);
      case Holding(_) => HoldingKeepsCalls(st, q);
      case Handling(c) => assert ForkOk(st, c.fork); assert OwnerOk(st, c.fork); HandlingKeepsCalls(st, q);
      case Replying(_, _) => HoldingKeepsCalls(st, q);
      case Sending(to, _) => assert CallOk(st, to); HoldingKeepsCalls(st, q);
      case Settling(f) => assert ForkOk(st, f); HoldingKeepsCalls(st, q);
    }
  }

  lemma IdleKeepsCalls(st: State, q: nat)
    requires st.Sized() && q < |st.phils| && ServerReady(st) && !ServerFaults(st) && st.server.Idle?
    requires CallOk(st, q) && CommandOk(st, st.queue[0], true)
    requires forall c :: c in st.queue[1..] <==> c in st.queue && c != st.queue[0]
    ensures CallOk(ServerNext(st), q)
  {
    hide ForkOf;
  }

  lemma HoldingKeepsCalls(st: State, q: nat)
    requires st.Sized() && q < |st.phils| && ServerReady(st) && !ServerFaults(st)
    requires !st.server.Idle? && !st.server.Handling?
    requires CallOk(st, q) && ServerOk(st)
    requires st.server.Sending? ==> CallOk(st, st.server.to)
    requires st.server.Settling? ==> ForkOk(st, st.server.fork)
    ensures CallOk(ServerNext(st), q)
  {
    hide ForkOf;
  }

  lemma HandlingKeepsCalls(st: State, q: nat)
    requires st.Sized() && q < |st.phils| && !ServerFaults(st) && st.server.Handling?
    requires CallOk(st, q) && ServerOk(st)
    requires st.server.cmd.fork < |st.phils| && ForkOk(st, st.server.cmd.fork) && OwnerOk(st, st.server.cmd.fork)
    ensures CallOk(ServerNext(st), q)
  {
    hide ForkOf;
  }

  lemma IdleKeeps(st: State, q: nat, f: nat)
    requires st.Sized() && q < |st.phils| && f < |st.phils| && ServerReady(st) && st.server.Idle?
    requires CommandOk(st, st.queue[0], true)
    requires forall c :: c in st.queue[1..] <==> c in st.queue && c != st.queue[0]
    requires HandOk(st, q, f) && OwnerOk(st, f) && ForkOk(st, f)
    ensures var st' := ServerNext(st); HandOk(st', q, f) && OwnerOk(st', f) && ForkOk(st', f)
  {
    hide ForkOf, Uses, Has;
  }

  lemma WantsUses(phils: seq<Phil>, p: nat, f: nat)
    requires p < |phils| && Wants(phils, p, f)
    ensures Uses(|phils|, p, f)
  {
    match phils[p].turn
    case First =>
    case Second =>
  }

  lemma RequestKeeps(st: State, q: nat, f: nat)
    requires st.Sized() && q < |st.phils| && f < |st.phils| && !ServerFaults(st)
    requires st.server.Handling? && st.server.cmd.Acquire?
    requires ServerOk(st) && HandOk(st, q, f) && OwnerOk(st, f) && ForkOk(st, f)
    requires ForkOk(st, st.server.cmd.fork)
    requires OwnerOk(st, st.server.cmd.fork)
    ensures var st' := ServerNext(st); HandOk(st', q, f) && OwnerOk(st', f) && ForkOk(st', f)
  {
    WantsUses(st.phils, st.server.cmd.client, st.server.cmd.fork);
    hide ForkOf, Has, Uses;
  }

  lemma ReturnKeeps(st: State, q: nat, f: nat)
    requires st.Sized() && q < |st.phils| && f < |st.phils| && !ServerFaults(st)
    requires st.server.Handling? && st.server.cmd.Release?
    requires ServerOk(st) && HandOk(st, q, f) && OwnerOk(st, f) && ForkOk(st, f)
    requires ForkOk(st, st.server.cmd.fork)
    ensures var st' := ServerNext(st); HandOk(st', q, f) && OwnerOk(st', f) && ForkOk(st', f)
  {
    var x := st.forks[st.server.cmd.fork];
    if x.InUseWait? { WantsUses(st.phils, x.waiter, st.server.cmd.fork); }
    hide ForkOf, Has, Uses;
  }

  lemma ReplyKeeps(st: State, q: nat, f: nat)
    requires st.Sized() && q < |st.phils| && f < |st.phils| && ServerReady(st) && !ServerFaults(st)
    requires !st.server.Idle? && !st.server.Handling?
    requires ServerOk(st) && HandOk(st, q, f) && OwnerOk(st, f) && ForkOk(st, f)
    ensures var st' := ServerNext(st); HandOk(st', q, f) && OwnerOk(st', f) && ForkOk(st', f)
  {
    hide ForkOf, Uses, Has;
  }

  lemma ServerKeepsForks(st: State, q: nat, f: nat)
    requires Inv(st) && q < |st.phils| && f < |st.phils| && ServerReady(st) && !ServerFaults(st)
    ensures var st' := ServerNext(st); HandOk(st', q, f) && OwnerOk(st', f) && ForkOk(st', f)
  {
    assert HandOk(st, q, f) && OwnerOk(st, f) && ForkOk(st, f);
    if st.server.Idle? {
      HeadOk(st);
      TailOf(st.queue);
      IdleKeeps(st, q, f);
    } else if st.server.Handling? {
      assert ForkOk(st, st.server.cmd.fork) && OwnerOk(st, st.server.cmd.fork);
      if st.server.cmd.Acquire? { RequestKeeps(st, q, f); } else { ReturnKeeps(st, q, f); }
    } else {
      ReplyKeeps(st, q, f);
    }
  }

  lemma ServerKeepsQueue(st: State)
    requires Inv(st) && ServerReady(st) && !ServerFaults(st)
    ensures QueueOk(ServerNext(st))
  {
    var st' := ServerNext(st);
    if st.queue != [] { HeadOk(st); TailOf(st.queue); }
    if st.server.Handling? { assert ForkOk(st, st.server.cmd.fork); }
    assert NoDup(st.queue);
    forall i | 0 <= i < |st'.queue| ensures CommandOk(st', st'.queue[i], true) {
      if st.server.Idle? { assert st.queue[0] != st.queue[i + 1]; }
      ServerKeepsCommand(st, if st.server.Idle? then i + 1 else i);
    }
    hide ForkOf, Uses, NoDup;
  }

  lemma ServerKeepsCommand(st: State, i: nat)
    requires Inv(st) && ServerReady(st) && !ServerFaults(st) && i < |st.queue|
    requires st.server.Idle? ==> i > 0
    ensures CommandOk(ServerNext(st), st.queue[i], true)
  {
    assert CommandOk(st, st.queue[i], true);
    if st.queue != [] { HeadOk(st); }
    assert i > 0 ==> st.queue[0] != st.queue[i];
    if st.server.Handling? { assert ForkOk(st, st.server.cmd.fork); }
    hide ForkOf, Uses;
  }

  lemma ServerKeepsOrder(st: State)
    requires st.Sized() && ServerReady(st) && !ServerFaults(st)
    requires QueueOk(st) && Behind(st) && ServerOk(st)
    requires st.server.Handling? ==> ForkOk(st, st.server.cmd.fork)
    ensures Behind(ServerNext(st))
  {
    var st' := ServerNext(st);
    forall i, j | (
      && 0 <= i < |st'.queue| && 0 <= j < |st'.queue|
      && st'.queue[i].Acquire? && st'.queue[j] == Release(st'.queue[i].fork)
      && st'.queue[i].fork < |st'.owner| && st'.owner[st'.queue[i].fork] == Some(st'.queue[i].client))
      ensures j < i
    {
      var k := if st.server.Idle? then 1 else 0;
      assert st'.queue[i] == st.queue[i + k] && st'.queue[j] == st.queue[j + k];
      assert CommandOk(st, st.queue[i + k], true);
      hide ForkOf, Uses, NoDup;
    }
  }

  lemma ServerKeepsServer(st: State)
    requires st.Sized() && ServerReady(st) && !ServerFaults(st) && ServerOk(st)
    requires st.queue != [] ==> CommandOk(st, st.queue[0], true)
    requires st.server.Idle? && st.queue[0].Acquire? ==> st.owner[st.queue[0].fork] != Some(st.queue[0].client)
    requires st.server.Handling? ==> ForkOk(st, st.server.cmd.fork)
    ensures ServerOk(ServerNext(st))
  {
    hide ForkOf;
  }

  lemma ServerKeeps(st: State)
    requires Inv(st) && ServerReady(st) && !ServerFaults(st)
    ensures Inv(ServerNext(st))
  {
    var st' := ServerNext(st);
    if st.queue != [] {
      HeadOk(st);
      TailOf(st.queue);
      if st.queue[0].Acquire? && st.server.Idle? { HeadNotOwner(st); }
    }
    if st.server.Handling? { assert ForkOk(st, st.server.cmd.fork); assert OwnerOk(st, st.server.cmd.fork); }
    forall q | 0 <= q < |st.phils| ensures CallOk(st', q) { ServerKeepsCalls(st, q); }
    forall q, f | 0 <= q < |st.phils| && 0 <= f < |st.phils|
      ensures HandOk(st', q, f) && OwnerOk(st', f) && ForkOk(st', f)
    {
      ServerKeepsForks(st, q, f);
    }
    forall f | 0 <= f < |st.phils| ensures OwnerOk(st', f) && ForkOk(st', f) {
      ServerKeepsForks(st, 0, f);
    }
    ServerKeepsQueue(st);
    ServerKeepsOrder(st);
    ServerKeepsServer(st);
    hide CallOk, HandOk, OwnerOk, ForkOk, QueueOk, Behind, ServerOk, ServerNext;
  }
}
