/**
 Which text the grammar takes for which devicetree source: its tokens, with blanks and comments wherever one likes.
 */
module DtsReading {
  import opened Prelude
  import G = DtsGrammar
  import opened DtsTree
  import opened DtsPrint
  import opened DtsLayout
  import B = DtsBuild
  import E = DtsExact
  import R = DtsRoundTrip

  // ---------------------------------------------------------------- the tokens of a source

  function Mark(m: string): Token { Token(MarkKind, m) }

  function WordTok(w: G.WordText): Token {
    match w
    case DecText(t) => Token(DecKind, t)
    case HexText(t) => Token(HexKind, t)
    case RefText(t) => Token(RefKind, t)
  }

  function WordToks(ws: seq<G.WordText>): seq<Token> {
    if ws == [] then [] else [WordTok(ws[0])] + WordToks(ws[1..])
  }

  function ByteToks(bs: seq<string>): seq<Token> {
    if bs == [] then [] else [Token(ByteKind, bs[0])] + ByteToks(bs[1..])
  }

  function ValueToks(v: G.ValueText): seq<Token> {
    match v
    case StringText(t) => [Token(QuotedKind, t)]
    case WordsText(ws) => [Mark("<")] + (WordToks(ws) + [Mark(">")])
    case BytesText(bs) => [Mark("[")] + (ByteToks(bs) + [Mark("]")])
    case PhandleText(t) => [Token(RefKind, t)]
  }

  function MoreValueToks(vs: seq<G.ValueText>): seq<Token> {
    if vs == [] then [] else [Mark(",")] + (ValueToks(vs[0]) + MoreValueToks(vs[1..]))
  }

  function PropValueToks(vs: seq<G.ValueText>): seq<Token> {
    if vs == [] then [Mark(";")]
    else [Mark("=")] + (ValueToks(vs[0]) + (MoreValueToks(vs[1..]) + [Mark(";")]))
  }

  function PropToks(p: G.PropText): seq<Token> {
    [Token(NameKind, p.name)] + PropValueToks(p.values)
  }

  function LabelToks(ls: seq<string>): seq<Token> {
    if ls == [] then [] else [Token(LabelKind, ls[0])] + ([Mark(":")] + LabelToks(ls[1..]))
  }

  function NameTok(name: Option<string>): Token {
    match name
    case None => Token(SlashKind, "/")
    case Some(s) => Token(NameKind, s)
  }

  function NodeToks(n: G.NodeText): seq<Token>
    decreases n
  {
    LabelToks(n.labels) + ([NameTok(n.name)] + ([Mark("{")] + (EntriesToks(n.entries) + ([Mark("}")] + [Mark(";")]))))
  }

  function EntriesToks(es: seq<G.EntryText>): seq<Token>
    decreases es
  {
    if es == [] then [] else EntryToks(es[0]) + EntriesToks(es[1..])
  }

  function EntryToks(e: G.EntryText): seq<Token>
    decreases e
  {
    match e
    case PropEntry(p) => PropToks(p)
    case NodeEntry(n) => NodeToks(n)
  }

  function FileToks(t: G.NodeText): seq<Token> { [Mark("/dts-v1/")] + ([Mark(";")] + NodeToks(t)) }

  // No list of words or bytes is empty.
  predicate FullValue(v: G.ValueText) {
    match v
    case WordsText(ws) => ws != []
    case BytesText(bs) => bs != []
    case _ => true
  }

  predicate FullValues(vs: seq<G.ValueText>) { forall i :: 0 <= i < |vs| ==> FullValue(vs[i]) }

  predicate Full(n: G.NodeText)
    decreases n
  {
    AllFull(n.entries)
  }

  predicate AllFull(es: seq<G.EntryText>)
    decreases es
  {
    es != [] ==> FullEntry(es[0]) && AllFull(es[1..])
  }

  predicate FullEntry(e: G.EntryText)
    decreases e
  {
    match e
    case PropEntry(p) => FullValues(p.values)
    case NodeEntry(n) => Full(n)
  }

  // ---------------------------------------------------------------- single tokens

  // What is matched is the token, and what follows it does not continue it; and nothing else is matched.
  ghost predicate Reads(r: G.Result<string>, kind: Kind, s: string) {
    && (r.Match? ==> Starts(Token(kind, r.val), s) && r.rest == s[|r.val|..])
    && forall t :: Starts(Token(kind, t), s) ==> r == G.Match(t, s[|t|..])
  }

  lemma NameReads(s: string)
    ensures Reads(G.Nodename(s), NameKind, s)
  {
    forall t | Starts(Token(NameKind, t), s) ensures G.Nodename(s) == G.Match(t, s[|t|..]) {
      assert s == t + s[|t|..];
      R.NodenameOver(t, s[|t|..]);
    }
  }

  lemma LabelReads(s: string)
    ensures Reads(G.Label(s), LabelKind, s)
  {
    if G.Label(s).Match? { E.LabelIsGood(s); }
    forall t | Starts(Token(LabelKind, t), s) ensures G.Label(s) == G.Match(t, s[|t|..]) {
      assert s == t + s[|t|..];
      R.LabelOver(t, s[|t|..]);
    }
  }

  lemma RefThere(t: string, s: string)
    requires Starts(Token(RefKind, t), s)
    ensures G.Phandle(s) == G.Match(t, s[|t|..])
  {
    var lab, k := t[1..], s[|t|..];
    assert t == "&" + lab && s == "&" + (lab + k);
    R.PhandleOver(lab, k);
  }

  lemma RefOfLabel(lab: string, s: string)
    requires s != "" && s[0] == '&' && Starts(Token(LabelKind, lab), s[1..])
    ensures Starts(Token(RefKind, "&" + lab), s) && s[1..][|lab|..] == s[|lab| + 1..]
  {
    var t := "&" + lab;
    assert t[1..] == lab && |t| == |lab| + 1;
    assert s == "&" + s[1..];
    hide GoodLabel, G.IsLabelChar;
  }

  lemma RefFound(s: string)
    requires G.Phandle(s).Match?
    ensures var r := G.Phandle(s); Starts(Token(RefKind, r.val), s) && r.rest == s[|r.val|..]
  {
    LabelReads(s[1..]);
    RefOfLabel(G.Label(s[1..]).val, s);
    hide G.Label, Starts;
  }

  lemma RefReads(s: string)
    ensures Reads(G.Phandle(s), RefKind, s)
  {
    if G.Phandle(s).Match? { RefFound(s); }
    hide G.Phandle, Starts;
    forall t | Starts(Token(RefKind, t), s) ensures G.Phandle(s) == G.Match(t, s[|t|..]) {
      StartsWithin(Token(RefKind, t), s);
      RefThere(t, s);
    }
  }

  lemma QuotedThere(t: string, s: string)
    requires Starts(Token(QuotedKind, t), s)
    ensures G.StringLit(s) == G.Match(t, s[|t|..])
  {
    var inner, k := t[1..|t| - 1], s[|t|..];
    assert t == "\"" + inner + "\"";
    assert s == t + k;
    assert s == "\"" + (inner + ("\"" + k));
    hide GoodText, G.StringLit;
    R.StringOver(inner, k);
  }

  lemma QuotedFound(s: string)
    requires G.StringLit(s).Match?
    ensures var r := G.StringLit(s); Starts(Token(QuotedKind, r.val), s) && r.rest == s[|r.val|..]
  {
    E.StringIsGood(s);
    hide GoodText;
  }

  lemma QuotedReads(s: string)
    ensures Reads(G.StringLit(s), QuotedKind, s)
  {
    if G.StringLit(s).Match? { QuotedFound(s); }
    hide G.StringLit, Starts;
    forall t | Starts(Token(QuotedKind, t), s) ensures G.StringLit(s) == G.Match(t, s[|t|..]) {
      StartsWithin(Token(QuotedKind, t), s);
      QuotedThere(t, s);
    }
  }

  lemma DecReads(s: string)
    ensures Reads(G.DecNumber(s), DecKind, s)
  {
    forall t | Starts(Token(DecKind, t), s) ensures G.DecNumber(s) == G.Match(t, s[|t|..]) {
      assert s == t + s[|t|..];
      R.SpanOver(G.IsDigit, t, s[|t|..]);
    }
  }

  lemma HexThere(t: string, s: string)
    requires Starts(Token(HexKind, t), s)
    ensures G.HexNumber(s) == G.Match(t, s[|t|..])
  {
    var digits, k := t[2..], s[|t|..];
    assert s == t + k && s[2..] == digits + k;
    R.SpanOver(G.IsHexDigit, digits, k);
  }

  lemma HexFound(s: string)
    requires G.HexNumber(s).Match?
    ensures var r := G.HexNumber(s); Starts(Token(HexKind, r.val), s) && r.rest == s[|r.val|..]
  {
    var n := G.Span(G.IsHexDigit, s[2..]);
    assert s[..2 + n][2..] == s[2..][..n] && s[2 + n..] == s[2..][n..];
    assert Hexes(s[2..][..n]);
    assert n < |s[2..]| ==> !G.IsHexDigit(s[2..][n]);
    hide G.IsHexDigit, Hexes;
  }

  lemma HexReads(s: string)
    ensures Reads(G.HexNumber(s), HexKind, s)
  {
    if G.HexNumber(s).Match? { HexFound(s); }
    hide G.HexNumber, Starts;
    forall t | Starts(Token(HexKind, t), s) ensures G.HexNumber(s) == G.Match(t, s[|t|..]) {
      StartsWithin(Token(HexKind, t), s);
      HexThere(t, s);
    }
  }

  lemma ByteReads(s: string)
    ensures Reads(G.PlainHex(s), ByteKind, s)
  {
    forall t | Starts(Token(ByteKind, t), s) ensures G.PlainHex(s) == G.Match(t, s[|t|..]) {
      assert s == t + s[|t|..];
      R.SpanOver(G.IsHexDigit, t, s[|t|..]);
    }
  }

  lemma SepReads(m: string, s: string)
    requires m in MARKS
    ensures G.Sep(m, s) == Eat([Mark(m)], s)
  {
    EatOne(Mark(m), s);
  }

  lemma SkipTwice(s: string)
    ensures G.Skip(G.Skip(s)) == G.Skip(s)
  {
    var g := SkippedIsGap(s);
    GapSkipped(g, G.Skip(s));
  }

  lemma EatSkip(toks: seq<Token>, s: string)
    requires toks != []
    ensures Eat(toks, G.Skip(s)) == Eat(toks, s)
  {
    SkipTwice(s);
    hide G.Skip, Starts;
  }

  lemma EatCons(t: Token, toks: seq<Token>, s: string)
    ensures var u := G.Skip(s);
      Eat([t] + toks, s) == if Starts(t, u) then Eat(toks, u[|t.text|..]) else None
  {
    Cons(t, toks);
    hide G.Skip, Starts;
    if Starts(t, G.Skip(s)) { StartsWithin(t, G.Skip(s)); }
  }

  // What a token starts with.
  lemma FirstChar(t: Token, s: string)
    requires Starts(t, s)
    ensures s != "" && s[0] == t.text[0]
    ensures t.kind == DecKind ==> G.IsDigit(s[0]) && s[0] != '0'
    ensures t.kind == HexKind ==> s[0] == '0'
    ensures t.kind == RefKind ==> s[0] == '&'
    ensures t.kind == QuotedKind ==> s[0] == '"'
    ensures t.kind == SlashKind ==> s[0] == '/'
    ensures t.kind == NameKind || t.kind == LabelKind ==> G.IsNameChar(s[0]) && s[0] != '/'
  {
    assert t.text != "" by { if t.kind == MarkKind { MarkSolid(t.text); } }
  }

  // ---------------------------------------------------------------- words and bytes

  lemma WordFound(s: string)
    requires G.Word(s).Match?
    ensures var r := G.Word(s); Starts(WordTok(r.val), s) && r.rest == s[|r.val.text|..]
  {
    DecReads(s);
    HexReads(s);
    RefReads(s);
    hide G.DecNumber, G.HexNumber, G.Phandle, Starts;
  }

  lemma WordThere(w: G.WordText, s: string)
    requires Starts(WordTok(w), s)
    ensures G.Word(s) == G.Match(w, s[|w.text|..])
  {
    FirstChar(WordTok(w), s);
    match w {
      case DecText(t) => DecReads(s);
      case HexText(t) => HexReads(s);
      case RefText(t) => RefReads(s);
    }
    hide Starts, G.Phandle;
  }

  lemma {:induction false} MoreWordsEaten(s: string)
    ensures Eat(WordToks(G.MoreWords(s).0), s) == Some(G.MoreWords(s).1)
    decreases |s|
  {
    var u := G.Skip(s);
    match G.Word(u)
    case Fail =>
    case Match(w, rest) =>
      WordFound(u);
      MoreWordsEaten(rest);
      var ws := G.MoreWords(rest).0;
      Cons(w, ws);
      EatCons(WordTok(w), WordToks(ws), s);
      hide G.Word, G.Skip, Starts, Eat;
  }

  lemma {:induction false} MoreWordsRead(ws: seq<G.WordText>, s: string)
    requires Eat(WordToks(ws), s).Some? && G.Word(G.Skip(Eat(WordToks(ws), s).value)) == G.Fail
    ensures G.MoreWords(s) == (ws, Eat(WordToks(ws), s).value)
  {
    hide G.Word, G.Skip, Starts;
    if ws != [] {
      var u := G.Skip(s);
      EatCons(WordTok(ws[0]), WordToks(ws[1..]), s);
      WordThere(ws[0], u);
      StartsWithin(WordTok(ws[0]), u);
      MoreWordsRead(ws[1..], u[|ws[0].text|..]);
      assert ws == [ws[0]] + ws[1..];
    }
  }

  lemma {:induction false} MoreBytesEaten(s: string)
    ensures Eat(ByteToks(G.MoreBytes(s).0), s) == Some(G.MoreBytes(s).1)
    decreases |s|
  {
    var u := G.Skip(s);
    match G.PlainHex(u)
    case Fail =>
    case Match(b, rest) =>
      ByteReads(u);
      MoreBytesEaten(rest);
      var bs := G.MoreBytes(rest).0;
      Cons(b, bs);
      EatCons(Token(ByteKind, b), ByteToks(bs), s);
      hide G.PlainHex, G.Skip, Starts, Eat;
  }

  lemma {:induction false} MoreBytesRead(bs: seq<string>, s: string)
    requires Eat(ByteToks(bs), s).Some? && G.PlainHex(G.Skip(Eat(ByteToks(bs), s).value)) == G.Fail
    ensures G.MoreBytes(s) == (bs, Eat(ByteToks(bs), s).value)
  {
    hide G.PlainHex, G.Skip, Starts;
    if bs != [] {
      var u := G.Skip(s);
      EatCons(Token(ByteKind, bs[0]), ByteToks(bs[1..]), s);
      ByteReads(u);
      StartsWithin(Token(ByteKind, bs[0]), u);
      MoreBytesRead(bs[1..], u[|bs[0]|..]);
      assert bs == [bs[0]] + bs[1..];
    }
  }

  // ---------------------------------------------------------------- values

  lemma MarkStarts(m: string, s: string)
    requires m in MARKS
    ensures Starts(Mark(m), s) <==> m <= s
    ensures G.Lit(m, s) == if m <= s then Some(s[|m|..]) else None
  {
  }

  // A list between marks: behind the opening one the list and the closing one are eaten.
  lemma BetweenEaten(open: string, toks: seq<Token>, close: string, s: string)
    requires open in MARKS && close in MARKS
    ensures Eat([Mark(open)] + (toks + [Mark(close)]), s) ==
      match G.Lit(open, G.Skip(s))
      case None => None
      case Some(s1) => match Eat(toks, s1) case None => None case Some(s2) => G.Sep(close, s2)
  {
    var u := G.Skip(s);
    MarkStarts(open, u);
    EatCons(Mark(open), toks + [Mark(close)], s);
    if open <= u {
      var s1 := u[|open|..];
      EatAppend(toks, [Mark(close)], s1);
      if Eat(toks, s1).Some? { SepReads(close, Eat(toks, s1).value); }
    }
    hide Eat, G.Skip, G.Sep, Starts;
  }

  lemma WordsFound(s: string)
    requires G.Words(G.Skip(s)).Match?
    ensures var r := G.Words(G.Skip(s)); FullValue(r.val) && Eat(ValueToks(r.val), s) == Some(r.rest)
  {
    var s1 := G.Lit("<", G.Skip(s)).value;
    MoreWordsEaten(s1);
    BetweenEaten("<", WordToks(G.MoreWords(s1).0), ">", s);
    hide Eat, G.Skip, G.Sep, G.MoreWords, WordToks;
  }

  lemma WordsThere(ws: seq<G.WordText>, s: string)
    requires ws != [] && Eat(ValueToks(G.WordsText(ws)), s).Some?
    ensures G.Words(G.Skip(s)) == G.Match(G.WordsText(ws), Eat(ValueToks(G.WordsText(ws)), s).value)
  {
    BetweenEaten("<", WordToks(ws), ">", s);
    var s1 := G.Lit("<", G.Skip(s)).value;
    var s2 := Eat(WordToks(ws), s1).value;
    assert G.Word(G.Skip(s2)) == G.Fail;
    hide Eat, G.Skip, G.Sep, WordToks, G.Word;
    MoreWordsRead(ws, s1);
  }

  lemma BytesFound(s: string)
    requires G.Bytes(G.Skip(s)).Match?
    ensures var r := G.Bytes(G.Skip(s)); FullValue(r.val) && Eat(ValueToks(r.val), s) == Some(r.rest)
  {
    var s1 := G.Lit("[", G.Skip(s)).value;
    MoreBytesEaten(s1);
    BetweenEaten("[", ByteToks(G.MoreBytes(s1).0), "]", s);
    hide Eat, G.Skip, G.Sep, G.MoreBytes, ByteToks;
  }

  lemma BytesThere(bs: seq<string>, s: string)
    requires bs != [] && Eat(ValueToks(G.BytesText(bs)), s).Some?
    ensures G.Bytes(G.Skip(s)) == G.Match(G.BytesText(bs), Eat(ValueToks(G.BytesText(bs)), s).value)
  {
    BetweenEaten("[", ByteToks(bs), "]", s);
    var s1 := G.Lit("[", G.Skip(s)).value;
    var s2 := Eat(ByteToks(bs), s1).value;
    assert G.PlainHex(G.Skip(s2)) == G.Fail;
    hide Eat, G.Skip, G.Sep, ByteToks, G.PlainHex;
    MoreBytesRead(bs, s1);
  }

  lemma ValueFound(s: string)
    requires G.Value(G.Skip(s)).Match?
    ensures var r := G.Value(G.Skip(s)); FullValue(r.val) && Eat(ValueToks(r.val), s) == Some(r.rest)
  {
    var u := G.Skip(s);
    hide G.StringLit, G.Words, G.Bytes, G.Phandle, G.Skip, Starts, Eat;
    if G.StringLit(u).Match? {
      QuotedReads(u);
      EatOne(Token(QuotedKind, G.StringLit(u).val), s);
    } else if G.Words(u).Match? {
      WordsFound(s);
    } else if G.Bytes(u).Match? {
      BytesFound(s);
    } else {
      RefReads(u);
      EatOne(Token(RefKind, G.Phandle(u).val), s);
    }
  }

  lemma ValueThere(v: G.ValueText, s: string)
    requires FullValue(v) && Eat(ValueToks(v), s).Some?
    ensures G.Value(G.Skip(s)) == G.Match(v, Eat(ValueToks(v), s).value)
  {
    var u := G.Skip(s);
    hide G.Words, G.Bytes, G.StringLit, G.Phandle, G.Skip, Starts;
    match v {
      case StringText(t) =>
        EatOne(Token(QuotedKind, t), s);
        QuotedReads(u);
      case PhandleText(t) =>
        EatOne(Token(RefKind, t), s);
        FirstChar(Token(RefKind, t), u);
        RefReads(u);
        OnlyRef(u);
      case WordsText(ws) =>
        WordsThere(ws, s);
        NoString(u);
      case BytesText(bs) =>
        BytesThere(bs, s);
        NoString(u);
        NoWords(u);
    }
    hide Eat;
  }

  lemma OnlyRef(u: string)
    requires u != "" && u[0] == '&'
    ensures G.StringLit(u) == G.Fail && G.Words(u) == G.Fail && G.Bytes(u) == G.Fail
  {
  }

  lemma NoString(u: string)
    requires G.Words(u).Match? || G.Bytes(u).Match?
    ensures G.StringLit(u) == G.Fail
  {
  }

  lemma NoWords(u: string)
    requires G.Bytes(u).Match?
    ensures G.Words(u) == G.Fail
  {
    hide G.MoreWords, G.MoreBytes, G.Sep;
    assert u[0] == "["[0] && "<"[0] == '<';
  }

  lemma EatNone(s: string)
    ensures Eat([], s) == Some(s)
  {
  }

  // A mark in front of other tokens.
  lemma EatMark(m: string, toks: seq<Token>, s: string)
    requires m in MARKS
    ensures Eat([Mark(m)] + toks, s) == match G.Sep(m, s) case None => None case Some(k) => Eat(toks, k)
  {
    EatAppend([Mark(m)], toks, s);
    SepReads(m, s);
    hide Eat, G.Sep;
  }

  lemma {:induction false} MoreValuesFound(s: string)
    ensures FullValues(G.MoreValues(s).0) && Eat(MoreValueToks(G.MoreValues(s).0), s) == Some(G.MoreValues(s).1)
    decreases |s|
  {
    hide G.Value, G.Skip, G.Sep, Eat, FullValue, ValueToks;
    EatNone(s);
    if G.Sep(",", s).Some? {
      var s1 := G.Sep(",", s).value;
      match G.Value(G.Skip(s1))
      case Fail =>
      case Match(v, rest) =>
        ValueFound(s1);
        MoreValuesFound(rest);
        var vs := G.MoreValues(rest).0;
        Cons(v, vs);
        EatAppend(ValueToks(v), MoreValueToks(vs), s1);
        EatMark(",", ValueToks(v) + MoreValueToks(vs), s);
    }
  }

  lemma {:induction false} MoreValuesThere(vs: seq<G.ValueText>, s: string)
    requires FullValues(vs) && Eat(MoreValueToks(vs), s).Some? && G.Sep(",", Eat(MoreValueToks(vs), s).value) == None
    ensures G.MoreValues(s) == (vs, Eat(MoreValueToks(vs), s).value)
  {
    hide G.Value, G.Skip, G.Sep, Eat, FullValue, ValueToks;
    if vs == [] {
      EatNone(s);
    } else {
      EatMark(",", ValueToks(vs[0]) + MoreValueToks(vs[1..]), s);
      var s1 := G.Sep(",", s).value;
      EatAppend(ValueToks(vs[0]), MoreValueToks(vs[1..]), s1);
      ValueThere(vs[0], s1);
      MoreValuesThere(vs[1..], Eat(ValueToks(vs[0]), s1).value);
      assert vs == [vs[0]] + vs[1..];
    }
  }

  // ---------------------------------------------------------------- properties

  // The tokens of a property's values.
  lemma PropValueSplit(v: G.ValueText, vs: seq<G.ValueText>, s: string)
    ensures Eat(PropValueToks([v] + vs), s) ==
      match G.Sep("=", s)
      case None => None
      case Some(s1) =>
        match Eat(ValueToks(v), s1)
        case None => None
        case Some(s2) => match Eat(MoreValueToks(vs), s2) case None => None case Some(s3) => G.Sep(";", s3)
  {
    hide G.Skip, G.Sep, Eat, ValueToks, MoreValueToks;
    Cons(v, vs);
    EatMark("=", ValueToks(v) + (MoreValueToks(vs) + [Mark(";")]), s);
    if G.Sep("=", s).Some? {
      var s1 := G.Sep("=", s).value;
      EatAppend(ValueToks(v), MoreValueToks(vs) + [Mark(";")], s1);
      if Eat(ValueToks(v), s1).Some? {
        var s2 := Eat(ValueToks(v), s1).value;
        EatAppend(MoreValueToks(vs), [Mark(";")], s2);
        if Eat(MoreValueToks(vs), s2).Some? { SepReads(";", Eat(MoreValueToks(vs), s2).value); }
      }
    }
  }

  lemma PropValuesFound(s: string)
    requires G.PropValues(s).Match?
    ensures var r := G.PropValues(s);
      r.val != [] && FullValues(r.val) && Eat(PropValueToks(r.val), s) == Some(r.rest)
  {
    hide G.Value, G.MoreValues, G.Skip, G.Sep, Eat, FullValue, ValueToks, MoreValueToks;
    var s1 := G.Sep("=", s).value;
    var r := G.Value(G.Skip(s1));
    ValueFound(s1);
    MoreValuesFound(r.rest);
    PropValueSplit(r.val, G.MoreValues(r.rest).0, s);
  }

  lemma PropValuesThere(vs: seq<G.ValueText>, s: string)
    requires vs != [] && FullValues(vs) && Eat(PropValueToks(vs), s).Some?
    ensures G.PropValues(s) == G.Match(vs, Eat(PropValueToks(vs), s).value)
  {
    assert vs == [vs[0]] + vs[1..];
    PropValueSplit(vs[0], vs[1..], s);
    var s1 := G.Sep("=", s).value;
    ValueThere(vs[0], s1);
    var s2 := Eat(ValueToks(vs[0]), s1).value;
    SemicolonNoComma(Eat(MoreValueToks(vs[1..]), s2).value);
    MoreValuesThere(vs[1..], s2);
    hide G.Value, G.MoreValues, G.Skip, G.Sep, Eat, FullValue, ValueToks, MoreValueToks, PropValueToks;
  }

  lemma SemicolonNoComma(s: string)
    requires G.Sep(";", s).Some?
    ensures G.Sep(",", s) == None && G.Sep("=", s) == None
  {
    assert ";" <= G.Skip(s) && G.Skip(s)[0] == ';';
    R.SepMissing(",", s);
    R.SepMissing("=", s);
  }

  lemma PropertyFound(s: string)
    requires G.Property(G.Skip(s)).Match?
    ensures var r := G.Property(G.Skip(s)); FullValues(r.val.values) && Eat(PropToks(r.val), s) == Some(r.rest)
  {
    var u := G.Skip(s);
    hide G.Nodename, G.PropValues, G.Skip, G.Sep, Eat, Starts, FullValue;
    NameReads(u);
    var name, s1 := G.Nodename(u).val, G.Nodename(u).rest;
    var p := G.Property(u).val;
    EatCons(Token(NameKind, name), PropValueToks(p.values), s);
    if G.PropValues(s1).Match? {
      PropValuesFound(s1);
    } else {
      SepReads(";", s1);
    }
  }

  lemma PropertyThere(p: G.PropText, s: string)
    requires FullValues(p.values) && Eat(PropToks(p), s).Some?
    ensures G.Property(G.Skip(s)) == G.Match(p, Eat(PropToks(p), s).value)
  {
    var u := G.Skip(s);
    hide G.Nodename, G.Skip, G.Sep, Eat, Starts, FullValue;
    NameReads(u);
    EatCons(Token(NameKind, p.name), PropValueToks(p.values), s);
    StartsWithin(Token(NameKind, p.name), u);
    var s1 := u[|p.name|..];
    if p.values == [] {
      SepReads(";", s1);
      SemicolonNoComma(s1);
    } else {
      hide G.PropValues, PropValueToks;
      PropValuesThere(p.values, s1);
    }
  }

  // ---------------------------------------------------------------- labels and names

  lemma {:induction false} LabelsFound(s: string)
    ensures Eat(LabelToks(G.Labels(s).0), s) == Some(G.Labels(s).1)
    decreases |s|
  {
    hide G.Label, G.Skip, G.Sep, Eat, Starts;
    EatNone(s);
    var u := G.Skip(s);
    LabelReads(u);
    if G.Label(u).Match? && G.Sep(":", G.Label(u).rest).Some? {
      var lab, s1 := G.Label(u).val, G.Label(u).rest;
      var s2 := G.Sep(":", s1).value;
      LabelsFound(s2);
      var labs := G.Labels(s2).0;
      Cons(lab, labs);
      EatCons(Token(LabelKind, lab), [Mark(":")] + LabelToks(labs), s);
      EatMark(":", LabelToks(labs), s1);
    }
  }

  // No label with its colon stands there.
  ghost predicate NoLabel(s: string) {
    var r := G.Label(G.Skip(s)); r.Match? ==> G.Sep(":", r.rest) == None
  }

  lemma {:induction false} LabelsThere(ls: seq<string>, s: string)
    requires Eat(LabelToks(ls), s).Some? && NoLabel(Eat(LabelToks(ls), s).value)
    ensures G.Labels(s) == (ls, Eat(LabelToks(ls), s).value)
  {
    hide G.Label, G.Skip, G.Sep, Eat, Starts;
    if ls == [] {
      EatNone(s);
    } else {
      var u, t := G.Skip(s), Token(LabelKind, ls[0]);
      EatCons(t, [Mark(":")] + LabelToks(ls[1..]), s);
      LabelReads(u);
      StartsWithin(t, u);
      EatMark(":", LabelToks(ls[1..]), u[|ls[0]|..]);
      LabelsThere(ls[1..], G.Sep(":", u[|ls[0]|..]).value);
      assert ls == [ls[0]] + ls[1..];
    }
  }

  // What stands before a brace or a colon does not go on with a name.
  lemma BeforeMark(m: string, s: string)
    requires (m == "{" || m == ":") && G.Sep(m, s).Some?
    ensures G.Skip(s) != "" && G.Skip(s)[0] == m[0]
    ensures R.Ends(G.IsNameChar, s) && (s[0] == m[0] || s[0] == '/' || G.IsSpace(s[0])) && s[0] != '*'
  {
    assert m <= G.Skip(s);
    assert G.Skip(s)[0] == m[0];
    if !(G.IsSpace(s[0]) || s[0] == '/') { assert G.Skip(s) == s; }
  }

  // A name and an opening brace.
  lemma NameNoLabel(name: string, s: string)
    requires Starts(Token(NameKind, name), G.Skip(s)) && |name| <= |G.Skip(s)|
    requires G.Sep("{", G.Skip(s)[|name|..]).Some?
    ensures NoLabel(s) && G.Property(G.Skip(s)) == G.Fail
    ensures G.NameOrRoot(G.Skip(s)) == G.Match(Some(name), G.Skip(s)[|name|..])
  {
    var u := G.Skip(s);
    var k := u[|name|..];
    NameReads(u);
    FirstChar(Token(NameKind, name), u);
    BeforeMark("{", k);
    NameParts(name, u);
    hide G.Label, G.Skip, G.Sep, G.Nodename, G.Property, Starts, GoodName, R.Ends;
    if G.Label(u).Match? { E.AfterLabel(name, k); }
    R.NameAlone(name, k);
    SlashOrName(u);
  }

  lemma NameParts(name: string, u: string)
    requires Starts(Token(NameKind, name), u) && |name| <= |u|
    ensures GoodName(name) && u == name + u[|name|..]
  {
  }

  lemma SlashOrName(u: string)
    requires u != "" && u[0] != '/'
    ensures G.Lit("/", u) == None
  {
  }

  lemma SlashNoLabel(s: string)
    requires Starts(Token(SlashKind, "/"), G.Skip(s))
    ensures NoLabel(s) && G.Property(G.Skip(s)) == G.Fail
    ensures G.NameOrRoot(G.Skip(s)) == G.Match(None, G.Skip(s)[1..])
  {
    FirstChar(Token(SlashKind, "/"), G.Skip(s));
  }

  lemma LabelNoProperty(lab: string, s: string)
    requires Starts(Token(LabelKind, lab), G.Skip(s)) && |lab| <= |G.Skip(s)|
    requires G.Sep(":", G.Skip(s)[|lab|..]).Some?
    ensures G.Property(G.Skip(s)) == G.Fail
  {
    var u := G.Skip(s);
    BeforeMark(":", u[|lab|..]);
    assert u == lab + u[|lab|..];
    R.LabelIsName(lab);
    R.NameAlone(lab, u[|lab|..]);
  }

  // ---------------------------------------------------------------- nodes

  // A node behind its labels.
  function NodeRest(n: G.NodeText): seq<Token> {
    [NameTok(n.name)] + ([Mark("{")] + (EntriesToks(n.entries) + ([Mark("}")] + [Mark(";")])))
  }

  lemma RestSplit(n: G.NodeText, s: string)
    ensures var u, t := G.Skip(s), NameTok(n.name);
      Eat(NodeRest(n), s) ==
        if !(Starts(t, u) && |t.text| <= |u|) then None
        else
          match G.Sep("{", u[|t.text|..])
          case None => None
          case Some(s3) =>
            match Eat(EntriesToks(n.entries), s3)
            case None => None
            case Some(s4) => match G.Sep("}", s4) case None => None case Some(s5) => G.Sep(";", s5)
  {
    hide G.Skip, G.Sep, Eat, Starts, EntriesToks;
    var u, t := G.Skip(s), NameTok(n.name);
    var end := [Mark("}")] + [Mark(";")];
    EatCons(t, [Mark("{")] + (EntriesToks(n.entries) + end), s);
    if Starts(t, u) {
      StartsWithin(t, u);
      EatMark("{", EntriesToks(n.entries) + end, u[|t.text|..]);
      if G.Sep("{", u[|t.text|..]).Some? {
        var s3 := G.Sep("{", u[|t.text|..]).value;
        EatAppend(EntriesToks(n.entries), end, s3);
        if Eat(EntriesToks(n.entries), s3).Some? {
          var s4 := Eat(EntriesToks(n.entries), s3).value;
          EatMark("}", [Mark(";")], s4);
          if G.Sep("}", s4).Some? { SepReads(";", G.Sep("}", s4).value); }
        }
      }
    }
  }

  // The start of a node: its name is found behind the labels, and it is no property.
  lemma NameThere(name: Option<string>, s: string)
    requires var u, t := G.Skip(s), NameTok(name);
      Starts(t, u) && |t.text| <= |u| && G.Sep("{", u[|t.text|..]).Some?
    ensures NoLabel(s) && G.Property(G.Skip(s)) == G.Fail
    ensures G.NameOrRoot(G.Skip(s)) == G.Match(name, G.Skip(s)[|NameTok(name).text|..])
  {
    match name
    case None => SlashNoLabel(s);
    case Some(nm) => NameNoLabel(nm, s);
  }

  lemma ToksOf(n: G.NodeText)
    ensures NodeToks(n) == LabelToks(n.labels) + NodeRest(n)
  {
  }

  lemma NodeNoProperty(n: G.NodeText, s: string)
    requires Eat(NodeToks(n), s).Some?
    ensures G.Property(G.Skip(s)) == G.Fail
  {
    hide G.Skip, G.Sep, Eat, Starts, G.Property, NodeRest, NodeToks;
    ToksOf(n);
    EatAppend(LabelToks(n.labels), NodeRest(n), s);
    if n.labels == [] {
      EatNone(s);
      RestSplit(n, s);
      NameThere(n.name, s);
    } else {
      var lab, u := n.labels[0], G.Skip(s);
      EatCons(Token(LabelKind, lab), [Mark(":")] + LabelToks(n.labels[1..]), s);
      StartsWithin(Token(LabelKind, lab), u);
      EatMark(":", LabelToks(n.labels[1..]), u[|lab|..]);
      LabelNoProperty(lab, s);
    }
  }

  lemma {:induction false} NodeFound(s: string)
    requires G.Node(s).Match?
    ensures Full(G.Node(s).val) && Eat(NodeToks(G.Node(s).val), s) == Some(G.Node(s).rest)
    decreases |s|, 0
  {
    hide G.Skip, G.Sep, Eat, Starts, G.Labels, G.NameOrRoot, NodeRest, NodeToks, LabelToks, EntriesToks, G.Entries;
    var n := G.Node(s).val;
    var s1 := G.Labels(s).1;
    var s2 := G.NameOrRoot(G.Skip(s1)).rest;
    var s3 := G.Sep("{", s2).value;
    LabelsFound(s);
    NameFound(s1);
    EntriesFound(s3);
    RestSplit(n, s1);
    ToksOf(n);
    EatAppend(LabelToks(n.labels), NodeRest(n), s);
  }

  lemma NameFound(s: string)
    requires G.NameOrRoot(G.Skip(s)).Match? && G.Sep("{", G.NameOrRoot(G.Skip(s)).rest).Some?
    ensures var u, r := G.Skip(s), G.NameOrRoot(G.Skip(s));
      var t := NameTok(r.val);
      Starts(t, u) && |t.text| <= |u| && r.rest == u[|t.text|..]
  {
    var u := G.Skip(s);
    var k := G.NameOrRoot(u).rest;
    BeforeMark("{", k);
    hide G.Skip, G.Sep;
    if G.NameOrRoot(u).val == None {
      SlashFound(u);
    } else {
      NameReads(u);
      hide G.Nodename, Starts;
      StartsWithin(NameTok(G.NameOrRoot(u).val), u);
    }
  }

  lemma SlashFound(u: string)
    requires u != "" && u[0] == '/' && (|u| > 1 ==> u[1] != '*')
    ensures Starts(Token(SlashKind, "/"), u)
  {
  }

  lemma {:induction false} EntriesFound(s: string)
    ensures AllFull(G.Entries(s).0) && Eat(EntriesToks(G.Entries(s).0), s) == Some(G.Entries(s).1)
    decreases |s|, 1
  {
    hide G.Skip, Eat, G.Property, G.Node, NodeToks, PropToks, FullValues, Full;
    EatNone(s);
    var u := G.Skip(s);
    match G.Entry(u)
    case Fail =>
    case Match(e, rest) =>
      if e.PropEntry? {
        PropertyFound(s);
      } else {
        NodeFound(u);
        NotEmpty(e);
        EatSkip(EntryToks(e), s);
      }
      EntriesFound(rest);
      var es := G.Entries(rest).0;
      Cons(e, es);
      EatAppend(EntryToks(e), EntriesToks(es), s);
  }

  lemma NotEmpty(e: G.EntryText)
    ensures EntryToks(e) != []
  {
    if e.NodeEntry? { ToksOf(e.node); }
  }

  lemma {:induction false} NodeThere(n: G.NodeText, s: string)
    requires Full(n) && Eat(NodeToks(n), s).Some?
    ensures G.Node(s) == G.Match(n, Eat(NodeToks(n), s).value)
    decreases n
  {
    hide G.Skip, G.Sep, Eat, Starts, G.Labels, G.NameOrRoot, NodeRest, NodeToks, LabelToks, EntriesToks, G.Entries;
    ToksOf(n);
    EatAppend(LabelToks(n.labels), NodeRest(n), s);
    var s1 := Eat(LabelToks(n.labels), s).value;
    RestSplit(n, s1);
    NameThere(n.name, s1);
    LabelsThere(n.labels, s);
    var s3 := G.Sep("{", G.Skip(s1)[|NameTok(n.name).text|..]).value;
    BraceNoEntry(Eat(EntriesToks(n.entries), s3).value);
    EntriesThere(n.entries, s3);
  }

  lemma BraceNoEntry(s: string)
    requires G.Sep("}", s).Some?
    ensures G.Entry(G.Skip(s)) == G.Fail
  {
    assert "}" <= G.Skip(s) && G.Skip(s)[0] == '}';
    R.NoEntry(G.Skip(s));
  }

  lemma {:induction false} EntryThere(e: G.EntryText, s: string)
    requires FullEntry(e) && Eat(EntryToks(e), s).Some?
    ensures G.Entry(G.Skip(s)) == G.Match(e, Eat(EntryToks(e), s).value)
    decreases e
  {
    hide G.Skip, Eat, G.Property, G.Node, NodeToks, PropToks, FullValues, Full;
    match e
    case PropEntry(p) => PropertyThere(p, s);
    case NodeEntry(n) =>
      NodeNoProperty(n, s);
      NotEmpty(e);
      EatSkip(EntryToks(e), s);
      NodeThere(n, G.Skip(s));
  }

  lemma {:induction false} EntriesThere(es: seq<G.EntryText>, s: string)
    requires AllFull(es) && Eat(EntriesToks(es), s).Some?
    requires G.Entry(G.Skip(Eat(EntriesToks(es), s).value)) == G.Fail
    ensures G.Entries(s) == (es, Eat(EntriesToks(es), s).value)
    decreases es
  {
    hide G.Skip, Eat, G.Entry, EntryToks, FullEntry;
    if es == [] {
      EatNone(s);
    } else {
      var e := es[0];
      EatAppend(EntryToks(e), EntriesToks(es[1..]), s);
      EntryThere(e, s);
      EntriesThere(es[1..], Eat(EntryToks(e), s).value);
      assert es == [es[0]] + es[1..];
    }
  }

  // ---------------------------------------------------------------- files

  // A file is taken for a source exactly when it consists of the source's tokens, none of whose lists is empty, and
  // what is skipped.
  lemma FileEaten(s: string, t: G.NodeText)
    ensures G.File(s) == Some(t) <==> Full(t) && Eat(FileToks(t), s).Some? && G.Skip(Eat(FileToks(t), s).value) == ""
  {
    hide G.Skip, G.Sep, Eat, G.Node, NodeToks, Full;
    EatMark("/dts-v1/", [Mark(";")] + NodeToks(t), s);
    if G.Sep("/dts-v1/", s).Some? {
      var s1 := G.Sep("/dts-v1/", s).value;
      EatMark(";", NodeToks(t), s1);
      if G.Sep(";", s1).Some? {
        var s2 := G.Sep(";", s1).value;
        NotEmpty(G.NodeEntry(t));
        EatSkip(NodeToks(t), s2);
        var u := G.Skip(s2);
        if G.Node(u).Match? { NodeFound(u); }
        if Full(t) && Eat(NodeToks(t), u).Some? { NodeThere(t, u); }
      }
    }
  }

  // The text is the source's tokens, each behind blanks and comments, and blanks and comments at the end.
  ghost predicate IsText(s: string, t: G.NodeText, gaps: seq<Gap>, last: Gap) {
    GoodGap(last) && Fits(FileToks(t), gaps, GapOnto(last, "")) && s == Weave(FileToks(t), gaps, GapOnto(last, ""))
  }

  // Main result: the grammar takes a text for a source exactly when the text is the source's tokens with blanks and
  // comments between them, where they are needed to keep two tokens apart and wherever else.
  lemma ReadsExactly(s: string, t: G.NodeText)
    ensures G.File(s) == Some(t) <==> Full(t) && exists gaps, last :: IsText(s, t, gaps, last)
  {
    FileEaten(s, t);
    hide Eat, Fits, Weave, G.Skip, FileToks, G.File, GoodGap;
    if Eat(FileToks(t), s).Some? && G.Skip(Eat(FileToks(t), s).value) == "" {
      var k := Eat(FileToks(t), s).value;
      var last := SkippedIsGap(k);
      var gaps := EatenIsWeave(FileToks(t), s);
      assert IsText(s, t, gaps, last);
    }
    if gaps, last :| IsText(s, t, gaps, last) {
      WeaveEaten(FileToks(t), gaps, GapOnto(last, ""));
      GapSkipped(last, "");
      EmptySkipped();
    }
  }

  lemma EmptySkipped()
    ensures G.Skip("") == ""
  {
  }

  // Texts of one source are parsed alike.
  lemma SameTokens(a: string, b: string, t: G.NodeText, g: seq<Gap>, x: Gap, h: seq<Gap>, y: Gap, ords: OrdMap)
    requires IsText(a, t, g, x) && IsText(b, t, h, y)
    requires Full(t)
    ensures Parse(a, ords) == Parse(b, ords)
  {
    ReadsExactly(a, t);
    ReadsExactly(b, t);
  }

  // Main result: blanks and comments put between the tokens of a devicetree's canonical text make no difference.
  lemma LayoutFree(root: Node, gaps: seq<Gap>, last: Gap, text: string, ords: OrdMap)
    requires GoodTree(root) && IsText(text, NodeText(root, true), gaps, last)
    ensures Parse(text, ords) == Parse(Print(root), ords)
    ensures B.PlacedRoot(root, ords) ==> Parse(text, ords) == Some(DeviceTree(root, InsertAll(map[], root)))
  {
    R.FileOver(root);
    if B.PlacedRoot(root, ords) { B.RoundTrip(root, ords); }
    hide IsText, Full, G.File, Print, NodeText, Build, GoodTree;
    ReadsExactly(Print(root), NodeText(root, true));
    ReadsExactly(text, NodeText(root, true));
  }
}
