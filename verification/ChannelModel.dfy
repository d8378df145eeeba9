/**
 The bounded channel of zephyr/src/sync/channel.rs: `cap` preallocated message slots that move between a
 free queue and a message queue.

 `Bounded` is the channel as one thread at a time uses it.  Module ChannelRefinement runs any number of
 senders and receivers at once, one queue operation or slot access per step.
 */
module ChannelModel {
  import opened Prelude

  datatype SendResult<T> = Sent | SendError(msg: T)
  datatype RecvResult<T> = Received(msg: T) | RecvError

  // ---------------------------------------------------------------- one thread at a time

  // The payloads of the slots in a queue, in order.
  function Payloads<T>(q: seq<nat>, cells: seq<Option<T>>): seq<T> {
    if q == [] then []
    else (if q[0] < |cells| && cells[q[0]].Some? then [cells[q[0]].value] else []) + Payloads(q[1..], cells)
  }

  // Every slot is in exactly one of the two queues, once.
  ghost predicate Partition(free: seq<nat>, chan: seq<nat>, cap: nat) {
    && NoDup(free + chan)
    && (forall s: nat :: s in free + chan <==> s < cap)
  }

  lemma {:induction false} PayloadsAppend<T>(q: seq<nat>, s: nat, cells: seq<Option<T>>)
    ensures Payloads(q + [s], cells) == Payloads(q, cells) + Payloads([s], cells)
  {
    if q == [] {
      assert q + [s] == [s];
    } else {
      PayloadsAppend(q[1..], s, cells);
      assert (q + [s])[1..] == q[1..] + [s] && (q + [s])[0] == q[0];
      var h := if q[0] < |cells| && cells[q[0]].Some? then [cells[q[0]].value] else [];
      var x, y := Payloads(q[1..], cells), Payloads([s], cells);
      assert Payloads(q, cells) == h + x;
      assert h + (x + y) == (h + x) + y;
    }
  }

  lemma {:induction false} PayloadsSame<T>(q: seq<nat>, cells: seq<Option<T>>, cells': seq<Option<T>>)
    requires |cells'| == |cells|
    requires forall s :: s in q && s < |cells| ==> cells'[s] == cells[s]
    ensures Payloads(q, cells') == Payloads(q, cells)
  {
    if q != [] {
      assert q == [q[0]] + q[1..];
      PayloadsSame(q[1..], cells, cells');
    }
  }

  // A queue of distinct slots below `cap` has at most `cap` of them.
  lemma {:induction false} DistinctBound(q: seq<nat>, cap: nat)
    requires NoDup(q) && (forall s :: s in q ==> s < cap)
    ensures |q| <= cap
  {
    if cap == 0 {
      assert forall i :: 0 <= i < |q| ==> q[i] in q;
    } else if cap - 1 in q {
      var i :| 0 <= i < |q| && q[i] == cap - 1;
      var q' := q[..i] + q[i + 1..];
      forall s | s in q' ensures s < cap - 1 {
        assert s in q;
        var j :| 0 <= j < |q'| && q'[j] == s;
        assert s == q[if j < i then j else j + 1];
      }
      assert NoDup(q') by {
        forall x, y | 0 <= x < y < |q'| ensures q'[x] != q'[y] {
          assert q'[x] == q[if x < i then x else x + 1] && q'[y] == q[if y < i then y else y + 1];
        }
      }
      DistinctBound(q', cap - 1);
    } else {
      DistinctBound(q, cap - 1);
    }
  }

  lemma {:induction false} PayloadsLength<T>(q: seq<nat>, cells: seq<Option<T>>)
    requires forall s :: s in q ==> s < |cells| && cells[s].Some?
    ensures |Payloads(q, cells)| == |q|
  {
    if q != [] {
      assert forall s :: s in q[1..] ==> s in q;
      assert q[0] in q;
      PayloadsLength(q[1..], cells);
    }
  }

  class Bounded<T> {
    const slots: array<Option<T>>
    var free: seq<nat>
    var chan: seq<nat>

    ghost predicate Valid()
      reads this, slots
    {
      && Partition(free, chan, slots.Length)
      && (forall s :: s in chan ==> s < slots.Length && slots[s].Some?)
    }

    // The messages sent and not yet received, oldest first.
    ghost function Contents(): seq<T>
      reads this, slots
    {
      Payloads(chan, slots[..])
    }

    constructor (cap: nat)
      requires cap > 0
      ensures Valid() && fresh(slots) && slots.Length == cap && Contents() == []
    {
      slots := new Option<T>[cap](_ => None);
      free, chan := [], [];
      new;
      var s := 0;
      while s < cap
        invariant s <= cap && chan == [] && slots.Length == cap
        invariant |free| == s && forall i :: 0 <= i < s ==> free[i] == i
        invariant fresh(slots)
      {
        free := free + [s];
        s := s + 1;
      }
      assert free + chan == free;
      forall s: nat ensures s in free <==> s < cap {
        if s < cap { assert free[s] == s; }
      }
    }

    // `timeout` has run out by the time the result is an error: the free queue stayed empty.
    method SendTimeout(msg: T) returns (r: SendResult<T>)
      requires Valid()
      modifies this, slots
      ensures Valid()
      ensures r.Sent? <==> |old(Contents())| < slots.Length
      ensures r.Sent? ==> Contents() == old(Contents()) + [msg]
      ensures r.SendError? ==> r.msg == msg && Contents() == old(Contents())
    {
      PayloadsLength(chan, slots[..]);
      Lengths();
      if free == [] {
        return SendError(msg);
      }
      var buf := free[0];
      ghost var rest, was := free[1..], slots[..];
      Handover(free, chan, slots.Length);
      free := free[1..];
      slots[buf] := Some(msg);
      PayloadsSame(chan, was, slots[..]);
      PayloadsAppend(chan, buf, slots[..]);
      chan := chan + [buf];
      r := Sent;
    }

    method RecvTimeout() returns (r: RecvResult<T>)
      requires Valid()
      modifies this, slots
      ensures Valid()
      ensures r.Received? <==> old(Contents()) != []
      ensures r.Received? ==> old(Contents()) == [r.msg] + Contents()
      ensures r.RecvError? ==> Contents() == old(Contents())
    {
      PayloadsLength(chan, slots[..]);
      if chan == [] {
        return RecvError;
      }
      var rawbuf := chan[0];
      ghost var was := slots[..];
      Return(free, chan, slots.Length);
      assert rawbuf in chan && forall s :: s in chan[1..] ==> s in chan;
      chan := chan[1..];
      var msg := slots[rawbuf].value;
      slots[rawbuf] := None;
      free := free + [rawbuf];
      PayloadsSame(chan, was, slots[..]);
      r := Received(msg);
    }

    lemma Lengths()
      requires Valid()
      ensures |free| + |chan| == slots.Length
    {
      Count(free + chan, slots.Length);
    }
  }

  // A queue that holds every slot once has exactly `cap` of them.
  lemma {:induction false} Count(q: seq<nat>, cap: nat)
    requires NoDup(q) && (forall s: nat :: s in q <==> s < cap)
    ensures |q| == cap
  {
    DistinctBound(q, cap);
    if |q| < cap {
      Positions(q, cap);
    }
  }

  // Each of the `cap` slots has a position of its own.
  lemma {:induction false} Positions(q: seq<nat>, cap: nat)
    requires NoDup(q) && (forall s: nat :: s < cap ==> s in q)
    ensures |q| >= cap
  {
    if cap > 0 {
      assert cap - 1 in q;
      var i :| 0 <= i < |q| && q[i] == cap - 1;
      var q' := q[..i] + q[i + 1..];
      forall s: nat | s < cap - 1 ensures s in q' {
        assert s in q;
        var j :| 0 <= j < |q| && q[j] == s;
        assert s == q'[if j < i then j else j - 1];
      }
      assert NoDup(q') by {
        forall x, y | 0 <= x < y < |q'| ensures q'[x] != q'[y] {
          assert q'[x] == q[if x < i then x else x + 1] && q'[y] == q[if y < i then y else y + 1];
        }
      }
      Positions(q', cap - 1);
    }
  }

  // Moving the head of one queue to the end of the other keeps the partition.
  lemma Handover(free: seq<nat>, chan: seq<nat>, cap: nat)
    requires Partition(free, chan, cap) && free != []
    ensures Partition(free[1..], chan + [free[0]], cap) && free[0] < cap && free[0] !in chan
  {
    var a, b := free + chan, free[1..] + (chan + [free[0]]);
    assert forall i :: 0 <= i < |b| - 1 ==> b[i] == a[i + 1];
    assert b[|b| - 1] == a[0];
    assert free[0] in a;
    forall s: nat ensures s in b <==> s in a {
      if s in a {
        var i :| 0 <= i < |a| && a[i] == s;
        assert s == b[if i == 0 then |b| - 1 else i - 1];
      }
    }
    forall s | s in chan ensures s != free[0] {
      var i :| 0 <= i < |chan| && chan[i] == s;
      assert a[|free| + i] == s;
    }
  }

  lemma Return(free: seq<nat>, chan: seq<nat>, cap: nat)
    requires Partition(free, chan, cap) && chan != []
    ensures Partition(free + [chan[0]], chan[1..], cap) && chan[0] < cap && chan[0] !in chan[1..]
  {
    assert (free + [chan[0]]) + chan[1..] == free + chan;
    assert chan[0] in free + chan;
    forall s | s in chan[1..] ensures s != chan[0] {
      var i :| 1 <= i < |chan| && chan[i] == s;
      assert (free + chan)[|free| + i] == s && (free + chan)[|free|] == chan[0];
    }
  }
}
