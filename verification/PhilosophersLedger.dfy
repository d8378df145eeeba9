/**
 What the fork server owes its clients, counted from the commands alone: forks are handed out in the order they are
 asked for, each as soon as the one before gave it back.
 */
module PhilosophersLedger {
  import opened Prelude
  import opened Philosophers
  import opened PhilosophersServer

  // Who asked for fork `f`, in order, and how often it was given back.
  function Asked(cmds: seq<Command>, f: nat): seq<nat> {
    if cmds == [] then []
    else
      var k := |cmds| - 1;
      Asked(cmds[..k], f) + if cmds[k].Acquire? && cmds[k].fork == f then [cmds[k].client] else []
  }

  function Given(cmds: seq<Command>, f: nat): nat {
    if cmds == [] then 0
    else
      var k := |cmds| - 1;
      Given(cmds[..k], f) + if cmds[k].Release? && cmds[k].fork == f then 1 else 0
  }

  // How many have asked for the fork and not given it back.
  function Open(cmds: seq<Command>, f: nat): int { |Asked(cmds, f)| - Given(cmds, f) }

  // A fork is never given back by nobody and never waited for by two.
  ghost predicate Orderly(n: nat, cmds: seq<Command>) {
    forall k :: 0 < k <= |cmds| ==> OrderlyAt(n, cmds[..k])
  }

  predicate OrderlyAt(n: nat, cmds: seq<Command>)
    requires cmds != []
  {
    var f := cmds[|cmds| - 1].fork;
    f < n && 0 <= Open(cmds, f) <= 2
  }

  // Each fork as its commands leave it.
  ghost predicate ForksAre(forks: seq<Fork>, cmds: seq<Command>) {
    forall f :: 0 <= f < |forks| ==>
      && 0 <= Open(cmds, f) <= 2
      && forks[f] == if Open(cmds, f) == 0 then Free else if Open(cmds, f) == 1 then InUse else InUseWait(Last(cmds, f))
  }

  function Last(cmds: seq<Command>, f: nat): nat {
    var a := Asked(cmds, f);
    if a == [] then 0 else a[|a| - 1]
  }

  // The replies for fork `f` alone, each by whom it went to.
  function Served(cmds: seq<Command>, f: nat): seq<nat> {
    var a := Asked(cmds, f);
    if Given(cmds, f) + 1 < |a| then a[..Given(cmds, f) + 1] else a
  }

  // What a command adds to the replies for its fork.
  function NewReply(cmds: seq<Command>): seq<nat>
    requires cmds != []
  {
    var f, before := cmds[|cmds| - 1].fork, |Served(cmds[..|cmds| - 1], cmds[|cmds| - 1].fork)|;
    if before <= |Served(cmds, f)| then Served(cmds, f)[before..] else []
  }

  function AllReplies(cmds: seq<Command>): seq<nat> {
    if cmds == [] then [] else AllReplies(cmds[..|cmds| - 1]) + NewReply(cmds)
  }

  // One more command.
  lemma Counts(cmds: seq<Command>, f: nat)
    requires cmds != []
    ensures var c, before := cmds[|cmds| - 1], cmds[..|cmds| - 1];
      && Asked(cmds, f) == Asked(before, f) + (if c.Acquire? && c.fork == f then [c.client] else [])
      && Given(cmds, f) == Given(before, f) + (if c.Release? && c.fork == f then 1 else 0)
  {
  }

  lemma NewReplyIs(cmds: seq<Command>)
    requires cmds != []
    ensures var c, before := cmds[|cmds| - 1], cmds[..|cmds| - 1];
      0 <= Open(before, c.fork) <= 2 ==>
        NewReply(cmds) ==
          if c.Acquire? && Open(before, c.fork) == 0 then [c.client]
          else if c.Release? && Open(before, c.fork) == 2 then [Last(before, c.fork)]
          else []
  {
    var c, before := cmds[|cmds| - 1], cmds[..|cmds| - 1];
    var f := c.fork;
    Counts(cmds, f);
    hide Asked, Given;
  }

  lemma OneMore(n: nat, cmds: seq<Command>, l: Ledger)
    requires cmds != [] && |l.forks| == n && ForksAre(l.forks, cmds[..|cmds| - 1])
    ensures ServeOne(l, cmds[|cmds| - 1]).Some? <==> OrderlyAt(n, cmds)
    ensures ServeOne(l, cmds[|cmds| - 1]).Some? ==>
      var l' := ServeOne(l, cmds[|cmds| - 1]).value;
      ForksAre(l'.forks, cmds) && l'.replies == l.replies + NewReply(cmds)
  {
    var c, before := cmds[|cmds| - 1], cmds[..|cmds| - 1];
    var f := c.fork;
    forall g: nat ensures Open(cmds, g) == Open(before, g) + (if g != f then 0 else if c.Acquire? then 1 else -1)
             ensures g != f ==> Last(cmds, g) == Last(before, g)
             ensures g == f && c.Acquire? ==> Last(cmds, g) == c.client
    {
      Counts(cmds, g);
    }
    NewReplyIs(cmds);
    if f < n { assert 0 <= Open(before, f) <= 2; }
    hide Asked, Given, Open, Last, NewReply;
    assert l.replies + [] == l.replies;
  }

  lemma OrderlyMore(n: nat, cmds: seq<Command>)
    requires cmds != []
    ensures Orderly(n, cmds) <==> Orderly(n, cmds[..|cmds| - 1]) && OrderlyAt(n, cmds)
  {
    hide OrderlyAt;
    var k := |cmds| - 1;
    var before := cmds[..k];
    assert cmds[..|cmds|] == cmds;
    assert forall m :: 0 < m <= k ==> before[..m] == cmds[..m];
    if Orderly(n, cmds) {
      assert OrderlyAt(n, cmds[..|cmds|]);
      forall m | 0 < m <= k ensures OrderlyAt(n, before[..m]) { assert OrderlyAt(n, cmds[..m]); }
    }
    if Orderly(n, before) && OrderlyAt(n, cmds) {
      forall m | 0 < m <= |cmds| ensures OrderlyAt(n, cmds[..m]) {
        if m <= k { assert OrderlyAt(n, before[..m]); }
      }
    }
  }

  // Main result: the loop gets through a series of commands without a panic exactly when nobody gives back a fork that
  // is not out and nobody waits for one that has a waiter; each fork is then free, in use, or in use with the last who
  // asked as its waiter, and its replies have gone to those who asked, in order, one more than were given back.
  lemma {:induction false} ServesExactly(n: nat, cmds: seq<Command>)
    ensures ServeAll(n, cmds).Some? <==> Orderly(n, cmds)
    ensures ServeAll(n, cmds).Some? ==>
      ForksAre(ServeAll(n, cmds).value.forks, cmds) && ServeAll(n, cmds).value.replies == AllReplies(cmds)
  {
    if cmds == [] {
      assert forall f :: Open(cmds, f) == 0;
    } else {
      var k := |cmds| - 1;
      var before := cmds[..k];
      ServesExactly(n, before);
      if ServeAll(n, before).Some? { OneMore(n, cmds, ServeAll(n, before).value); }
      OrderlyMore(n, cmds);
      hide ForksAre, ServeOne, OrderlyAt, Orderly, NewReply;
    }
  }
}
