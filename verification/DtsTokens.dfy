/**
 How `Value::to_tokens` of zephyr-build/src/devicetree.rs groups the words of a property: a phandle to a gpio
 controller takes the numbers after it as its arguments when there are as many as the controller asks for.
 */
module DtsTokens {
  import opened Prelude
  import opened DtsTree
  import opened DtsOutput

  datatype Token = NumberToken(n: nat) | PhandleToken(name: string) | GpioToken(name: string, args: seq<nat>)

  // `#gpio-cells` of the node a label resolves to, if that is a gpio controller.
  function Cells(labels: map<string, Node>, lab: string): Option<nat> {
    if lab in labels && HasProperty(labels[lab], "gpio-controller") then
      match WordsOf(labels[lab], "#gpio-cells")
      case Some(ws) => if |ws| == 1 && ws[0].Number? then Some(ws[0].n) else None
      case None => None
    else None
  }

  // The first `k` words, if they are numbers.
  function Numbers(ws: seq<Word>, k: nat): Option<seq<nat>> {
    if k <= |ws| then AllNumbers(ws[..k]) else None
  }

  // The token for a phandle in front of `ws`.
  function TokenFor(labels: map<string, Node>, lab: string, ws: seq<Word>): Token {
    match Cells(labels, lab)
    case None => PhandleToken(lab)
    case Some(k) =>
      match Numbers(ws, k)
      case None => PhandleToken(lab)
      case Some(args) => GpioToken(lab, args)
  }

  function Size(t: Token): nat { if t.GpioToken? then 1 + |t.args| else 1 }

  lemma {:induction false} AllNumbersAre(ws: seq<Word>)
    ensures AllNumbers(ws).Some? <==> forall i :: 0 <= i < |ws| ==> ws[i].Number?
    ensures AllNumbers(ws).Some? ==> NumberWords(AllNumbers(ws).value) == ws
  {
    if ws != [] {
      AllNumbersAre(ws[1..]);
      if AllNumbers(ws).Some? { Cons(ws[0].n, AllNumbers(ws[1..]).value); }
    }
  }

  function NumberWords(ns: seq<nat>): (r: seq<Word>)
    ensures |r| == |ns|
  {
    if ns == [] then [] else [Number(ns[0])] + NumberWords(ns[1..])
  }

  // The words a token stands for.
  function WordsIn(t: Token): seq<Word> {
    match t
    case NumberToken(n) => [Number(n)]
    case PhandleToken(name) => [Ref(name)]
    case GpioToken(name, args) => [Ref(name)] + NumberWords(args)
  }

  function Flatten(ts: seq<Token>): seq<Word> {
    if ts == [] then [] else WordsIn(ts[0]) + Flatten(ts[1..])
  }

  // What the phandles of `ws` should become, each by the words after it.
  function Heads(labels: map<string, Node>, ws: seq<Word>): seq<Token> {
    if ws == [] then []
    else
      (if ws[0].Ref? then [TokenFor(labels, ws[0].target, ws[1..])] else [])
      + Heads(labels, ws[1..])
  }

  // The tokens that are not numbers.
  function Named(ts: seq<Token>): seq<Token> {
    if ts == [] then [] else (if ts[0].NumberToken? then [] else [ts[0]]) + Named(ts[1..])
  }

  // ---------------------------------------------------------------- the loop

  // The look-ahead: the next `cells` words, if they are all numbers.
  method LookAhead(words: seq<Word>, start: nat, cells: nat) returns (args: Option<seq<nat>>)
    requires start <= |words|
    ensures args == Numbers(words[start..], cells)
  {
    var found: seq<nat> := [];
    var k := 0;
    assert words[start..][..0] == [];
    while k < cells
      invariant k <= cells && start + k <= |words|
      invariant AllNumbers(words[start..start + k]) == Some(found)
    {
      if start + k < |words| && words[start + k].Number? {
        AllNumbersPush(words[start..start + k], words[start + k].n);
        assert words[start..start + k] + [words[start + k]] == words[start..start + k + 1];
        found := found + [words[start + k].n];
      } else {
        if cells <= |words| - start {
          AllNumbersAre(words[start..][..cells]);
          assert words[start..][..cells][k] == words[start + k];
        }
        return None;
      }
      k := k + 1;
    }
    assert words[start..][..cells] == words[start..start + cells];
    args := Some(found);
  }

  lemma {:induction false} AllNumbersPush(ws: seq<Word>, n: nat)
    requires AllNumbers(ws).Some?
    ensures AllNumbers(ws + [Number(n)]) == Some(AllNumbers(ws).value + [n])
  {
    var more := ws + [Number(n)];
    if ws == [] {
      assert more[1..] == [] && [n] + [] == [] + [n];
    } else {
      assert more[1..] == ws[1..] + [Number(n)] && more[0] == ws[0];
      AllNumbersPush(ws[1..], n);
      var x := AllNumbers(ws[1..]).value;
      assert [ws[0].n] + (x + [n]) == [ws[0].n] + x + [n];
      assert AllNumbers(more) == Some([ws[0].n] + (x + [n]));
    }
  }

  // The token for word `i` of `words`.
  ghost predicate TokenAt(labels: map<string, Node>, words: seq<Word>, i: nat, t: Token)
    requires i < |words|
  {
    if words[i].Number? then t == NumberToken(words[i].n)
    else t == TokenFor(labels, words[i].target, words[i + 1..])
  }

  // One turn of the loop: a number, or a phandle with the arguments that the look-ahead finds.
  method NextToken(labels: map<string, Node>, words: seq<Word>, i: nat) returns (token: Token)
    requires i < |words|
    ensures TokenAt(labels, words, i, token)
  {
    match words[i] {
      case Number(n) => token := NumberToken(n);
      case Ref(name) =>
        token := PhandleToken(name);
        var cells := Cells(labels, name);
        if cells.Some? {
          var args := LookAhead(words, i + 1, cells.value);
          if args.Some? { token := GpioToken(name, args.value); }
        }
    }
  }

  // The loop over the words: the tokens flatten to the words, and every phandle has become what the words after it
  // call for.
  method ToTokens(labels: map<string, Node>, words: seq<Word>) returns (twords: seq<Token>)
    ensures Flatten(twords) == words
    ensures Named(twords) == Heads(labels, words)
  {
    twords := [];
    var i := 0;
    NoTokens(labels, words);
    hide Flatten, Named, Heads, TokenAt, Size;
    while i < |words|
      invariant i <= |words|
      invariant Flatten(twords) == words[..i]
      invariant Heads(labels, words) == Named(twords) + Heads(labels, words[i..])
    {
      var token := NextToken(labels, words, i);
      Advance(labels, twords, words, i, token);
      PositiveSize(token);
      i := i + Size(token);
      twords := twords + [token];
    }
    assert words[..i] == words && words[i..] == [];
    NoHeads(labels);
    assert Named(twords) + [] == Named(twords);
  }

  lemma NoTokens(labels: map<string, Node>, words: seq<Word>)
    ensures Flatten([]) == words[..0] && Heads(labels, words) == Named([]) + Heads(labels, words[0..])
  {
    assert words[..0] == [] && words[0..] == words;
    assert [] + Heads(labels, words) == Heads(labels, words);
  }

  lemma NoHeads(labels: map<string, Node>)
    ensures Heads(labels, []) == []
  {
  }

  lemma PositiveSize(t: Token)
    ensures Size(t) > 0
  {
  }

  // One turn of the loop.
  lemma Advance(labels: map<string, Node>, ts: seq<Token>, words: seq<Word>, i: nat, t: Token)
    requires i < |words| && Flatten(ts) == words[..i] && TokenAt(labels, words, i, t)
    ensures i + Size(t) <= |words|
    ensures Flatten(ts + [t]) == words[..i + Size(t)]
    ensures Named(ts) + Heads(labels, words[i..]) == Named(ts + [t]) + Heads(labels, words[i + Size(t)..])
  {
    TokenTakes(labels, words, i, t);
    FlattenPush(ts, t);
    NamedPush(ts, t);
    Regroup(Named(ts), [t], Heads(labels, words[i + Size(t)..]));
    hide Flatten, Named, Heads, TokenAt, WordsIn;
    assert words[..i] + words[i..i + Size(t)] == words[..i + Size(t)];
  }

  // It stands for as many words as its size, and for the named tokens these call for.
  lemma TokenTakes(labels: map<string, Node>, words: seq<Word>, i: nat, t: Token)
    requires i < |words| && TokenAt(labels, words, i, t)
    ensures i + Size(t) <= |words| && WordsIn(t) == words[i..i + Size(t)]
    ensures Heads(labels, words[i..]) ==
      (if t.NumberToken? then [] else [t]) + Heads(labels, words[i + Size(t)..])
  {
    HeadFirst(labels, words, i);
    if t.GpioToken? {
      var rest := words[i + 1..];
      GpioTakes(labels, words[i].target, rest);
      HeadsSkip(labels, rest, |t.args|);
      assert words[i + Size(t)..] == rest[|t.args|..];
      assert [words[i]] + rest[..|t.args|] == words[i..i + Size(t)];
    } else {
      assert [words[i]] == words[i..i + 1];
    }
    hide Heads;
  }

  lemma Regroup(a: seq<Token>, b: seq<Token>, c: seq<Token>)
    ensures a + (b + c) == a + b + c && a + ([] + c) == a + [] + c
  {
  }

  lemma HeadFirst(labels: map<string, Node>, words: seq<Word>, i: nat)
    requires i < |words|
    ensures Heads(labels, words[i..]) ==
      (if words[i].Ref? then [TokenFor(labels, words[i].target, words[i + 1..])] else [])
      + Heads(labels, words[i + 1..])
  {
    assert words[i..][0] == words[i] && words[i..][1..] == words[i + 1..];
  }

  // A Gpio token stands for its phandle and the numbers after it.
  lemma GpioTakes(labels: map<string, Node>, lab: string, rest: seq<Word>)
    ensures var t := TokenFor(labels, lab, rest);
      && t.name == lab
      && (t.GpioToken? ==>
            && |t.args| <= |rest| && WordsIn(t) == [Ref(lab)] + rest[..|t.args|]
            && forall j :: 0 <= j < |t.args| ==> rest[j].Number?)
  {
    if Cells(labels, lab).Some? && Cells(labels, lab).value <= |rest| {
      AllNumbersAre(rest[..Cells(labels, lab).value]);
    }
  }

  lemma {:induction false} FlattenPush(ts: seq<Token>, t: Token)
    ensures Flatten(ts + [t]) == Flatten(ts) + WordsIn(t)
  {
    if ts == [] {
      assert [t][1..] == [] && WordsIn(t) + [] == WordsIn(t);
    } else {
      assert (ts + [t])[1..] == ts[1..] + [t];
      FlattenPush(ts[1..], t);
    }
  }

  lemma OneNamed(t: Token)
    ensures Named([t]) == if t.NumberToken? then [] else [t]
  {
    assert [t][1..] == [] && Named([t][1..]) == [];
  }

  lemma {:induction false} NamedPush(ts: seq<Token>, t: Token)
    ensures Named(ts + [t]) == Named(ts) + if t.NumberToken? then [] else [t]
  {
    if ts == [] {
      OneNamed(t);
      assert [] + [t] == [t];
    } else {
      assert (ts + [t])[1..] == ts[1..] + [t] && (ts + [t])[0] == ts[0];
      NamedPush(ts[1..], t);
      Regroup(if ts[0].NumberToken? then [] else [ts[0]], Named(ts[1..]), if t.NumberToken? then [] else [t]);
    }
  }

  // Numbers call for no token with a name.
  lemma {:induction false} HeadsSkip(labels: map<string, Node>, ws: seq<Word>, k: nat)
    requires k <= |ws| && forall i :: 0 <= i < k ==> ws[i].Number?
    ensures Heads(labels, ws) == Heads(labels, ws[k..])
  {
    if k > 0 {
      HeadsSkip(labels, ws[1..], k - 1);
      assert ws[1..][k - 1..] == ws[k..];
    }
  }

  // ---------------------------------------------------------------- the grouping is determined

  lemma FlattenNonEmpty(ts: seq<Token>)
    requires ts != []
    ensures Flatten(ts) != [] && Flatten(ts)[0] == WordsIn(ts[0])[0]
  {
    assert |WordsIn(ts[0])| > 0;
  }

  // Two groupings of the same words whose phandles have become the same tokens are the same.
  lemma {:induction false} GroupingUnique(a: seq<Token>, b: seq<Token>)
    requires Flatten(a) == Flatten(b) && Named(a) == Named(b)
    ensures a == b
  {
    if a != [] { FlattenNonEmpty(a); }
    if b != [] { FlattenNonEmpty(b); }
    if a != [] && b != [] {
      assert Flatten(a)[0] == WordsIn(a[0])[0] && Flatten(b)[0] == WordsIn(b[0])[0];
      if !a[0].NumberToken? {
        assert Named(a)[0] == a[0] && Named(b)[0] == b[0];
      }
      assert a[0] == b[0];
      var w := WordsIn(a[0]);
      assert Flatten(a)[|w|..] == Flatten(a[1..]) && Flatten(b)[|w|..] == Flatten(b[1..]);
      if !a[0].NumberToken? {
        assert Named(a)[1..] == Named(a[1..]) && Named(b)[1..] == Named(b[1..]);
      } else {
        assert Named(a) == Named(a[1..]) && Named(b) == Named(b[1..]);
      }
      GroupingUnique(a[1..], b[1..]);
      assert a == [a[0]] + a[1..] && b == [b[0]] + b[1..];
    }
  }

  // A phandle becomes a Gpio token exactly when it names a gpio controller and as many numbers as its cells
  // follow, and then those are its arguments.
  lemma GpioExactly(labels: map<string, Node>, lab: string, ws: seq<Word>)
    ensures TokenFor(labels, lab, ws).GpioToken? <==>
      && Cells(labels, lab).Some? && Cells(labels, lab).value <= |ws|
      && forall i :: 0 <= i < Cells(labels, lab).value ==> ws[i].Number?
    ensures var t := TokenFor(labels, lab, ws);
      t.GpioToken? ==> WordsIn(t) == [Ref(lab)] + ws[..Cells(labels, lab).value]
  {
    if Cells(labels, lab).Some? && Cells(labels, lab).value <= |ws| {
      AllNumbersAre(ws[..Cells(labels, lab).value]);
    }
  }
}
