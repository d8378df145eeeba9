/**
 The fork server of samples/philosophers/src/channel.rs as the loop it is, and the proof that in every run
 of the philosophers the server thread does what this loop does with the commands it has dequeued.
 */
module PhilosophersServer {
  import opened Prelude
  import opened Philosophers
  import opened PhilosophersSafety
  import opened PhilosophersProgress

  // The forks and the replies sent so far.
  datatype Ledger = Ledger(forks: seq<Fork>, replies: seq<nat>)

  // One command; None is a panic.
  function ServeOne(l: Ledger, cmd: Command): (r: Option<Ledger>)
    ensures r.Some? ==> |r.value.forks| == |l.forks| && l.replies <= r.value.replies
  {
    if cmd.fork >= |l.forks| then None
    else
      var x := l.forks[cmd.fork];
      match (if cmd.Acquire? then OnAcquire(x, cmd.client) else OnRelease(x))
      case Panic => None
      case Keep(y) => Some(Ledger(l.forks[cmd.fork := y], l.replies))
      case Reply(to) => Some(Ledger(l.forks[cmd.fork := InUse], l.replies + [to]))
  }

  function ServeAll(n: nat, cmds: seq<Command>): (r: Option<Ledger>)
    ensures r.Some? ==> |r.value.forks| == n
  {
    if cmds == [] then Some(Ledger(seq(n, _ => Free), []))
    else
      var k := |cmds| - 1;
      match ServeAll(n, cmds[..k])
      case None => None
      case Some(l) => ServeOne(l, cmds[k])
  }

  // ---------------------------------------------------------------- the loop

  // `ChannelFork::acquire` on forks[f]; the reply goes to the result.
  method AcquireFork(forks: array<Fork>, f: nat, client: nat) returns (v: Verdict)
    requires f < forks.Length
    modifies forks
    ensures v == OnAcquire(old(forks[f]), client)
    ensures v.Panic? ==> forks[..] == old(forks[..])
    ensures v.Keep? ==> forks[..] == old(forks[..])[f := v.fork]
    ensures v.Reply? ==> forks[..] == old(forks[..])[f := InUse]
  {
    match forks[f] {
      case Free =>
        v := Reply(client);
        forks[f] := InUse;
      case InUse =>
        forks[f] := InUseWait(client);
        v := Keep(forks[f]);
      case InUseWait(_) =>
        v := Panic;
    }
  }

  // `ChannelFork::release` on forks[f].
  method ReleaseFork(forks: array<Fork>, f: nat) returns (v: Verdict)
    requires f < forks.Length
    modifies forks
    ensures v == OnRelease(old(forks[f]))
    ensures v.Panic? ==> forks[..] == old(forks[..])
    ensures v.Keep? ==> forks[..] == old(forks[..])[f := v.fork]
    ensures v.Reply? ==> forks[..] == old(forks[..])[f := InUse]
  {
    match forks[f] {
      case Free =>
        v := Panic;
      case InUse =>
        forks[f] := Free;
        v := Keep(Free);
      case InUseWait(waiter) =>
        v := Reply(waiter);
        forks[f] := InUse;
    }
  }

  // `channel_thread` on a given series of commands: the replies it sends, up to a panic if there is one.
  method ChannelThread(n: nat, commands: seq<Command>) returns (replies: seq<nat>, end: Option<seq<Fork>>)
    ensures end.Some? <==> ServeAll(n, commands).Some?
    ensures end.Some? ==> ServeAll(n, commands) == Some(Ledger(end.value, replies))
    ensures end.None? ==> exists k ::
      && 0 <= k < |commands| && ServeAll(n, commands[..k]).Some?
      && ServeAll(n, commands[..k + 1]).None? && ServeAll(n, commands[..k]).value.replies == replies
  {
    var forks := new Fork[n](_ => Free);
    replies := [];
    assert forks[..] == seq(n, _ => Free);
    var i := 0;
    while i < |commands|
      invariant i <= |commands|
      invariant ServeAll(n, commands[..i]) == Some(Ledger(forks[..], replies))
    {
      assert commands[..i + 1][..i] == commands[..i];
      var cmd := commands[i];
      if cmd.fork >= n {
        StaysNone(n, commands, i + 1);
        return replies, None;
      }
      var v: Verdict;
      match cmd {
        case Acquire(f, reply) => v := AcquireFork(forks, f, reply);
        case Release(f) => v := ReleaseFork(forks, f);
      }
      match v {
        case Panic =>
          StaysNone(n, commands, i + 1);
          return replies, None;
        case Reply(to) => replies := replies + [to];
        case Keep(_) =>
      }
      i := i + 1;
    }
    assert commands[..i] == commands;
    end := Some(forks[..]);
  }

  // A panic ends the loop.
  lemma {:induction false} StaysNone(n: nat, cmds: seq<Command>, k: nat)
    requires k <= |cmds| && ServeAll(n, cmds[..k]).None?
    ensures ServeAll(n, cmds).None?
  {
    if k == |cmds| {
      assert cmds[..k] == cmds;
    } else {
      assert cmds[..|cmds| - 1][..k] == cmds[..k];
      StaysNone(n, cmds[..|cmds| - 1], k);
    }
  }

  // ---------------------------------------------------------------- the server thread in a run

  function Push<T>(s: seq<T>, x: Option<T>): seq<T> {
    match x
    case Some(v) => s + [v]
    case None => s
  }

  // The command a step looks at and the reply it sends, if any.
  function Looks(st: State, a: Action): Option<Command> {
    if a.ServerStep? && st.server.Handling? then Some(st.server.cmd) else None
  }

  function Sends(st: State, a: Action): Option<nat> {
    if a.ServerStep? && st.server.Sending? then Some(st.server.to) else None
  }

  // The commands the server has looked at, and the replies it has sent, in the first `k` steps.
  function Handled(r: Run, k: nat): seq<Command>
    requires k <= |r.actions| && |r.states| == |r.actions| + 1
  {
    if k == 0 then [] else Push(Handled(r, k - 1), Looks(r.states[k - 1], r.actions[k - 1]))
  }

  function Replied(r: Run, k: nat): seq<nat>
    requires k <= |r.actions| && |r.states| == |r.actions| + 1
  {
    if k == 0 then [] else Push(Replied(r, k - 1), Sends(r.states[k - 1], r.actions[k - 1]))
  }

  // The forks and replies of a state, with what the server is in the middle of done.
  function Settled(st: State, replied: seq<nat>): Ledger {
    Ledger(
      match Serving(st.server)
      case Some(f) => if f < |st.forks| then st.forks[f := InUse] else st.forks
      case None => st.forks,
      Push(replied, Client(st.server)))
  }

  lemma SettledStep(st: State, a: Action, st': State, replied: seq<nat>)
    requires Inv(st) && Step(st, a, st')
    ensures var l, l' := Settled(st, replied), Settled(st', Push(replied, Sends(st, a)));
      match Looks(st, a)
      case Some(cmd) => ServeOne(l, cmd) == Some(l')
      case None => l' == l
  {
    hide ForkOf, NoDup, Behind, Has, Uses;
    if st.server.Handling? { assert ForkOk(st, st.server.cmd.fork); }
    if a.ServerStep? && st.server.Settling? {
      assert st'.forks == st.forks[st.server.fork := InUse];
    }
  }

  // Whatever the interleaving, the forks and the replies are those of the sequential loop.
  lemma {:induction false} ServerIsLoop(r: Run, k: nat)
    requires Execution(r) && k <= |r.actions|
    ensures ServeAll(|r.states[0].phils|, Handled(r, k)) == Some(Settled(r.states[k], Replied(r, k)))
  {
    InitOk(r.states[0]);
    if k == 0 {
      assert r.states[0].forks == seq(|r.states[0].phils|, _ => Free);
    } else {
      ServerIsLoop(r, k - 1);
      RunKeeps(r, k - 1);
      var st, a := r.states[k - 1], r.actions[k - 1];
      assert Step(st, a, r.states[k]);
      SettledStep(st, a, r.states[k], Replied(r, k - 1));
      var h := Handled(r, k - 1);
      if Looks(st, a).Some? {
        assert (h + [st.server.cmd])[..|h|] == h;
      }
      hide Settled, Step, Next, Inv;
    }
  }
}
