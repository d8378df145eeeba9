/**
 The console writer of zephyr/src/printk.rs: bytes gather in a 32-byte buffer that is handed to the kernel
 whenever the next character might not fit.
 */
module Printk {
  import opened Prelude

  const BUF_SIZE: nat := 32

  // ---------------------------------------------------------------- characters

  function Utf8ByteLength(b: bv8): (n: nat)
    ensures 1 <= n <= 4
  {
    if b & 0x80 == 0 then 1
    else if b & 0xe0 == 0xc0 then 2
    else if b & 0xf0 == 0xe0 then 3
    else if b & 0xf8 == 0xf0 then 4
    else 1
  }

  predicate Tail(b: bv8) { 0x80 <= b <= 0xbf }

  // One character: UTF8-char in section 4 of RFC 3629.
  predicate ValidChar(c: seq<bv8>) {
    || (|c| == 1 && c[0] <= 0x7f)
    || (|c| == 2 && 0xc2 <= c[0] <= 0xdf && Tail(c[1]))
    || (|c| == 3 && Tail(c[1]) && Tail(c[2])
        && (|| (c[0] == 0xe0 && 0xa0 <= c[1])
            || 0xe1 <= c[0] <= 0xec
            || (c[0] == 0xed && c[1] <= 0x9f)
            || 0xee <= c[0] <= 0xef))
    || (|c| == 4 && Tail(c[1]) && Tail(c[2]) && Tail(c[3])
        && (|| (c[0] == 0xf0 && 0x90 <= c[1])
            || 0xf1 <= c[0] <= 0xf3
            || (c[0] == 0xf4 && c[1] <= 0x8f)))
  }

  function Flat(parts: seq<seq<bv8>>): seq<bv8> {
    if parts == [] then [] else parts[0] + Flat(parts[1..])
  }

  ghost predicate Characters(cs: seq<seq<bv8>>) {
    forall i :: 0 <= i < |cs| ==> ValidChar(cs[i])
  }

  // A Rust string: whole characters.
  ghost predicate Text(s: seq<bv8>) {
    exists cs: seq<seq<bv8>> :: Characters(cs) && Flat(cs) == s
  }

  // The lead byte tells the length, and no later byte asks for more than itself.
  lemma LeadByte(c: seq<bv8>)
    requires ValidChar(c)
    ensures Utf8ByteLength(c[0]) == |c|
    ensures forall i :: 1 <= i < |c| ==> Utf8ByteLength(c[i]) == 1
  {
    forall i | 1 <= i < |c| ensures Utf8ByteLength(c[i]) == 1 {
      assert Tail(c[i]);
      TailLength(c[i]);
    }
    LeadLength(c[0]);
  }

  lemma TailLength(b: bv8)
    requires Tail(b)
    ensures Utf8ByteLength(b) == 1
  {
  }

  lemma LeadLength(b: bv8)
    ensures b <= 0x7f ==> Utf8ByteLength(b) == 1
    ensures 0xc2 <= b <= 0xdf ==> Utf8ByteLength(b) == 2
    ensures 0xe0 <= b <= 0xef ==> Utf8ByteLength(b) == 3
    ensures 0xf0 <= b <= 0xf4 ==> Utf8ByteLength(b) == 4
  {
  }

  // ---------------------------------------------------------------- what is written

  // The chunks handed to the kernel and the bytes still in the buffer.
  datatype Out = Out(chunks: seq<seq<bv8>>, pending: seq<bv8>)

  function Flushed(o: Out): Out {
    if o.pending == [] then o else Out(o.chunks + [o.pending], [])
  }

  function Feed(o: Out, b: bv8): Out {
    var o1 := if |o.pending| + Utf8ByteLength(b) > BUF_SIZE then Flushed(o) else o;
    Out(o1.chunks, o1.pending + [b])
  }

  function FeedAll(o: Out, s: seq<bv8>): Out {
    if s == [] then o else Feed(FeedAll(o, s[..|s| - 1]), s[|s| - 1])
  }

  function Printed(s: seq<bv8>): seq<seq<bv8>> {
    Flushed(FeedAll(Out([], []), s)).chunks
  }

  // ---------------------------------------------------------------- the writer

  class Context {
    var count: nat
    const buf: array<bv8>
    // the calls of k_str_out so far
    var console: seq<seq<bv8>>

    ghost predicate Valid()
      reads this
    {
      buf.Length == BUF_SIZE && count <= BUF_SIZE
    }

    ghost function View(): Out
      requires Valid()
      reads this, buf
    {
      Out(console, buf[..count])
    }

    constructor ()
      ensures Valid() && fresh(buf) && View() == Out([], [])
    {
      count := 0;
      buf := new bv8[BUF_SIZE](_ => 0);
      console := [];
    }

    method AddByte(b: bv8)
      requires Valid()
      modifies this, buf
      ensures Valid() && View() == Feed(old(View()), b)
    {
      if count + Utf8ByteLength(b) > buf.Length {
        Flush();
      }
      buf[count] := b;
      count := count + 1;
    }

    method Flush()
      requires Valid()
      modifies this
      ensures Valid() && View() == Flushed(old(View()))
      ensures count == 0
    {
      if count > 0 {
        console := console + [buf[..count]];
        count := 0;
      }
    }

    method WriteStr(s: seq<bv8>)
      requires Valid()
      modifies this, buf
      ensures Valid() && View() == FeedAll(old(View()), s)
    {
      var i := 0;
      assert s[..i] == [];
      while i < |s|
        invariant i <= |s| && Valid()
        invariant View() == FeedAll(old(View()), s[..i])
      {
        assert s[..i + 1][..i] == s[..i];
        AddByte(s[i]);
        i := i + 1;
      }
      assert s[..i] == s;
    }
  }

  // The formatting machinery writes the message piece by piece.
  method WritePieces(context: Context, pieces: seq<seq<bv8>>)
    requires context.Valid()
    modifies context, context.buf
    ensures context.Valid() && context.View() == FeedAll(old(context.View()), Flat(pieces))
  {
    var k := 0;
    assert pieces[..k] == [];
    while k < |pieces|
      invariant k <= |pieces| && context.Valid()
      invariant context.View() == FeedAll(old(context.View()), Flat(pieces[..k]))
    {
      assert pieces[..k + 1] == pieces[..k] + [pieces[k]];
      FlatAppend(pieces[..k], pieces[k]);
      FeedAppend(old(context.View()), Flat(pieces[..k]), pieces[k]);
      context.WriteStr(pieces[k]);
      k := k + 1;
    }
    assert pieces[..k] == pieces;
  }

  // `printk`: where the pieces of the message end makes no difference.
  method PrintkPieces(pieces: seq<seq<bv8>>) returns (chunks: seq<seq<bv8>>)
    ensures chunks == Printed(Flat(pieces)) && Flat(chunks) == Flat(pieces)
  {
    var context := new Context();
    WritePieces(context, pieces);
    context.Flush();
    chunks := context.console;
    NothingLost(Flat(pieces));
  }

  const NEWLINE: bv8 := 10

  // `printkln`.
  method PrintkLine(pieces: seq<seq<bv8>>) returns (chunks: seq<seq<bv8>>)
    ensures chunks == Printed(Flat(pieces) + [10]) && Flat(chunks) == Flat(pieces) + [10]
  {
    var context := new Context();
    WritePieces(context, pieces);
    context.AddByte(NEWLINE);
    assert (Flat(pieces) + [NEWLINE])[..|Flat(pieces)|] == Flat(pieces);
    context.Flush();
    chunks := context.console;
    NothingLost(Flat(pieces) + [NEWLINE]);
  }

  // ---------------------------------------------------------------- lists of bytes

  lemma {:induction false} FlatAppend(parts: seq<seq<bv8>>, p: seq<bv8>)
    ensures Flat(parts + [p]) == Flat(parts) + p
  {
    if parts == [] {
      assert Flat([p]) == p + Flat([]) == p;
    } else {
      assert (parts + [p])[1..] == parts[1..] + [p];
      FlatAppend(parts[1..], p);
    }
  }

  lemma {:induction false} FeedAppend(o: Out, s: seq<bv8>, t: seq<bv8>)
    ensures FeedAll(o, s + t) == FeedAll(FeedAll(o, s), t)
  {
    if t == [] {
      assert s + t == s;
    } else {
      assert (s + t)[..|s + t| - 1] == s + t[..|t| - 1];
      FeedAppend(o, s, t[..|t| - 1]);
    }
  }

  // ---------------------------------------------------------------- nothing is lost

  lemma {:induction false} FeedKeeps(o: Out, s: seq<bv8>)
    ensures var o' := FeedAll(o, s); Flat(o'.chunks) + o'.pending == Flat(o.chunks) + o.pending + s
  {
    if s != [] {
      var k := |s| - 1;
      FeedKeeps(o, s[..k]);
      var m := FeedAll(o, s[..k]);
      FlatAppend(m.chunks, m.pending);
      var o' := FeedAll(o, s);
      assert Flat(o'.chunks) + o'.pending == Flat(m.chunks) + m.pending + [s[k]];
      assert Flat(o.chunks) + o.pending + s[..k] + [s[k]] == Flat(o.chunks) + o.pending + s;
    }
  }

  // The chunks put together are the message.
  lemma NothingLost(s: seq<bv8>)
    ensures Flat(Printed(s)) == s
  {
    var o := FeedAll(Out([], []), s);
    FeedKeeps(Out([], []), s);
    FlatAppend(o.chunks, o.pending);
  }

  // ---------------------------------------------------------------- sizes

  ghost predicate Sized(o: Out) {
    && |o.pending| <= BUF_SIZE
    && (forall i :: 0 <= i < |o.chunks| ==> BUF_SIZE - 3 <= |o.chunks[i]| <= BUF_SIZE)
    && (o.chunks != [] ==> o.pending != [])
  }

  lemma {:induction false} FeedSized(o: Out, s: seq<bv8>)
    requires Sized(o)
    ensures Sized(FeedAll(o, s))
  {
    if s != [] {
      FeedSized(o, s[..|s| - 1]);
    }
  }

  lemma {:induction false} FlatLength(parts: seq<seq<bv8>>, c: nat)
    requires forall i :: 0 <= i < |parts| ==> |parts[i]| >= c
    ensures |Flat(parts)| >= c * |parts|
  {
    if parts != [] {
      FlatLength(parts[1..], c);
    }
  }

  // Every chunk fits the buffer, every chunk but the last has 29 bytes or more, so few are needed.
  lemma FewChunks(s: seq<bv8>)
    ensures forall i :: 0 <= i < |Printed(s)| ==> 1 <= |Printed(s)[i]| <= 32
    ensures forall i :: 0 <= i < |Printed(s)| - 1 ==> 29 <= |Printed(s)[i]|
    ensures |Printed(s)| <= |s| / 29 + 1
    ensures s == [] <==> Printed(s) == []
  {
    var o := FeedAll(Out([], []), s);
    FeedSized(Out([], []), s);
    FeedKeeps(Out([], []), s);
    FlatLength(o.chunks, 29);
  }

  // ---------------------------------------------------------------- chunks are as long as can be

  // Every chunk is followed by a byte whose character would not have fitted.
  ghost predicate Greedy(o: Out) {
    var all := o.chunks + [o.pending];
    forall i :: 0 <= i < |o.chunks| ==> FullAt(all, i)
  }

  // The byte behind chunk `i` starts a character that would not have fitted in it.
  predicate FullAt(all: seq<seq<bv8>>, i: nat) {
    i + 1 < |all| && all[i + 1] != [] && |all[i]| + Utf8ByteLength(all[i + 1][0]) > BUF_SIZE
  }

  lemma FeedGreedy(o: Out, b: bv8)
    requires Sized(o) && Greedy(o)
    ensures Greedy(Feed(o, b))
  {
    var o' := Feed(o, b);
    var all, all' := o.chunks + [o.pending], o'.chunks + [o'.pending];
    hide Utf8ByteLength;
    forall i | 0 <= i < |o'.chunks| ensures FullAt(all', i) {
      if i < |o.chunks| {
        assert FullAt(all, i);
        assert all'[i] == all[i] && all'[i + 1][0] == all[i + 1][0];
      }
    }
  }

  lemma {:induction false} FeedAllGreedy(o: Out, s: seq<bv8>)
    requires Sized(o) && Greedy(o)
    ensures Greedy(FeedAll(o, s))
  {
    if s != [] {
      FeedAllGreedy(o, s[..|s| - 1]);
      FeedSized(o, s[..|s| - 1]);
      hide Greedy;
      FeedGreedy(FeedAll(o, s[..|s| - 1]), s[|s| - 1]);
    }
  }

  // A chunk ends only where the next character, by its lead byte, would not fit.  With `NothingLost` and the sizes of
  // `FewChunks` this leaves one way to cut the message.
  lemma EndsWhenFull(s: seq<bv8>, i: nat)
    requires i + 1 < |Printed(s)|
    ensures Printed(s)[i + 1] != [] && |Printed(s)[i]| + Utf8ByteLength(Printed(s)[i + 1][0]) > 32
  {
    var o := FeedAll(Out([], []), s);
    FeedAllGreedy(Out([], []), s);
    FeedSized(Out([], []), s);
    assert Printed(s) == o.chunks + if o.pending == [] then [] else [o.pending];
    assert FullAt(o.chunks + [o.pending], i);
    assert (o.chunks + [o.pending])[i] == Printed(s)[i] && (o.chunks + [o.pending])[i + 1] == Printed(s)[i + 1];
  }

  // ---------------------------------------------------------------- no character is split

  ghost predicate Whole(o: Out) {
    Text(o.pending) && forall i :: 0 <= i < |o.chunks| ==> Text(o.chunks[i])
  }

  lemma TextAppend(s: seq<bv8>, c: seq<bv8>)
    requires Text(s) && ValidChar(c)
    ensures Text(s + c)
  {
    var cs: seq<seq<bv8>> :| Characters(cs) && Flat(cs) == s;
    FlatAppend(cs, c);
    assert Characters(cs + [c]);
  }

  // Once its lead byte is in the buffer, the rest of a character fits behind it.
  lemma {:induction false} RestFits(o: Out, s: seq<bv8>)
    requires |o.pending| + |s| <= BUF_SIZE
    requires forall i :: 0 <= i < |s| ==> Utf8ByteLength(s[i]) == 1
    ensures FeedAll(o, s) == Out(o.chunks, o.pending + s)
  {
    if s != [] {
      RestFits(o, s[..|s| - 1]);
      assert o.pending + s[..|s| - 1] + [s[|s| - 1]] == o.pending + s;
    }
  }

  // A character goes into one buffer: the one in use if it has room for all of it, else the next.
  lemma CharacterFed(o: Out, c: seq<bv8>)
    requires |o.pending| <= BUF_SIZE && 1 <= |c| <= 4 && Utf8ByteLength(c[0]) == |c|
    requires forall i :: 1 <= i < |c| ==> Utf8ByteLength(c[i]) == 1
    ensures var o1 := if |o.pending| + |c| > BUF_SIZE then Flushed(o) else o;
      FeedAll(o, c) == Out(o1.chunks, o1.pending + c)
  {
    hide Utf8ByteLength;
    var o1 := if |o.pending| + |c| > BUF_SIZE then Flushed(o) else o;
    var lead, rest := c[..1], c[1..];
    FeedAppend(o, lead, rest);
    assert c == lead + rest;
    assert lead[..0] == [] && FeedAll(o, lead) == Feed(o, c[0]);
    RestFits(Feed(o, c[0]), rest);
    assert o1.pending + [c[0]] + rest == o1.pending + c;
  }

  lemma CharacterStaysWhole(o: Out, c: seq<bv8>)
    requires Whole(o) && Sized(o) && ValidChar(c)
    ensures Whole(FeedAll(o, c)) && Sized(FeedAll(o, c))
  {
    LeadByte(c);
    FeedSized(o, c);
    CharacterFed(o, c);
    hide FeedAll, ValidChar;
    assert Text([]) by { assert Flat([]) == [] && Characters([]); }
    TextAppend(if |o.pending| + |c| > BUF_SIZE then [] else o.pending, c);
    assert o.pending == [] ==> Flushed(o) == o;
  }

  lemma {:induction false} CharactersStayWhole(o: Out, cs: seq<seq<bv8>>)
    requires Whole(o) && Sized(o) && Characters(cs)
    ensures Whole(FeedAll(o, Flat(cs))) && Sized(FeedAll(o, Flat(cs)))
    decreases |cs|
  {
    hide ValidChar;
    if cs != [] {
      CharacterStaysWhole(o, cs[0]);
      FeedAppend(o, cs[0], Flat(cs[1..]));
      CharactersStayWhole(FeedAll(o, cs[0]), cs[1..]);
    }
  }

  // Every chunk of a text is a text.
  lemma NoCharacterSplit(s: seq<bv8>)
    requires Text(s)
    ensures forall i :: 0 <= i < |Printed(s)| ==> Text(Printed(s)[i])
  {
    var cs: seq<seq<bv8>> :| Characters(cs) && Flat(cs) == s;
    assert Text([]) by { assert Flat([]) == [] && Characters([]); }
    CharactersStayWhole(Out([], []), cs);
  }
}
