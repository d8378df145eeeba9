/**
 Which devicetree a source means: its numbers, its properties and nodes in order, and who gets a label.
 */
module DtsMeaning {
  import opened Prelude
  import G = DtsGrammar
  import opened DtsTree
  import opened DtsPrint
  import opened DtsLayout
  import opened DtsReading
  import opened DtsLookups
  import B = DtsBuild
  import R = DtsRoundTrip

  // ---------------------------------------------------------------- numbers

  const DIGITS := "0123456789abcdef"
  const CAPITALS := "0123456789ABCDEF"

  ghost predicate IsDigitOf(c: char, d: nat) {
    |DIGITS| == |CAPITALS| && d < |DIGITS| && (c == DIGITS[d] || c == CAPITALS[d])
  }

  ghost predicate LastIs(s: string, d: nat) { s != "" && IsDigitOf(s[|s| - 1], d) }

  function Front(s: string): (r: string)
    requires s != ""
    ensures |r| < |s|
  {
    s[..|s| - 1]
  }

  // The text is a numeral for `k`: its last digit, and its base times what is in front.
  ghost predicate Numeral(s: string, base: nat, k: nat)
    decreases |s|
  {
    if s == "" then k == 0
    else exists d, h :: LastIs(s, d) && Numeral(Front(s), base, h) && k == base * h + d
  }

  lemma DigitCodes(d: nat)
    requires d < 16
    ensures |DIGITS| == |CAPITALS| == 16
    ensures DIGITS[d] as int == (if d < 10 then '0' as int + d else 'a' as int + d - 10)
    ensures CAPITALS[d] as int == (if d < 10 then '0' as int + d else 'A' as int + d - 10)
  {
  }

  lemma DigitMeans(c: char, d: nat)
    ensures IsDigitOf(c, d) <==> G.IsHexDigit(c) && Digit(c) == d
  {
    if d < 16 { DigitCodes(d); } else { DigitCodes(0); }
    assert G.IsHexDigit(c) ==> Digit(c) < 16;
  }

  lemma FrontHex(s: string, base: nat)
    requires s != "" && AllHex(s)
    ensures AllHex(Front(s)) && G.IsHexDigit(s[|s| - 1])
    ensures NumberIn(s, base) == base * NumberIn(Front(s), base) + Digit(s[|s| - 1])
  {
    hide G.IsHexDigit, Digit;
    assert AllHex(Front(s)) by { assert forall i :: 0 <= i < |Front(s)| ==> Front(s)[i] == s[i]; }
    LastDigit(s, base);
    hide NumberIn, Front, AllHex;
    Commute(NumberIn(Front(s), base), base);
  }

  lemma Commute(x: nat, y: nat)
    ensures x * y == y * x
  {
  }

  lemma LastDigit(s: string, base: nat)
    requires s != "" && G.IsHexDigit(s[|s| - 1])
    ensures NumberIn(s, base) == NumberIn(Front(s), base) * base + Digit(s[|s| - 1])
  {
    hide G.IsHexDigit, Digit;
  }

  lemma {:induction false} IsNumeral(s: string, base: nat)
    requires AllHex(s)
    ensures Numeral(s, base, NumberIn(s, base))
    decreases |s|
  {
    if s != "" {
      FrontHex(s, base);
      IsNumeral(Front(s), base);
      hide AllHex, NumberIn, Front, IsDigitOf, Digit, G.IsHexDigit;
      DigitMeans(s[|s| - 1], Digit(s[|s| - 1]));
      assert LastIs(s, Digit(s[|s| - 1]));
    }
  }

  lemma {:induction false} NumeralOnce(s: string, base: nat, k: nat)
    requires AllHex(s) && Numeral(s, base, k)
    ensures k == NumberIn(s, base)
    decreases |s|
  {
    if s != "" {
      FrontHex(s, base);
      hide AllHex, NumberIn, Front, IsDigitOf, Digit, G.IsHexDigit;
      var d, h :| LastIs(s, d) && Numeral(Front(s), base, h) && k == base * h + d;
      hide Numeral;
      DigitMeans(s[|s| - 1], d);
      NumeralOnce(Front(s), base, h);
    }
  }

  // The digits of both cases, each counting its base times as much as the next.
  lemma NumeralExactly(s: string, base: nat, k: nat)
    requires AllHex(s)
    ensures NumberIn(s, base) == k <==> Numeral(s, base, k)
  {
    hide Numeral, NumberIn, AllHex;
    IsNumeral(s, base);
    if Numeral(s, base, k) { NumeralOnce(s, base, k); }
  }

  // Decimal notation.
  function Decimal(n: nat): string {
    if n < 10 then [('0' as int + n) as char] else Decimal(n / 10) + [('0' as int + n % 10) as char]
  }

  // Every number but zero can be written in decimal, and is read back if it has 32 bits.
  lemma {:induction false} DecimalBack(n: nat)
    requires n > 0
    ensures GoodToken(Token(DecKind, Decimal(n))) && Numeral(Decimal(n), 10, n)
    ensures DecodeWord(G.DecText(Decimal(n))) == if n < 0x1_0000_0000 then Some(Number(n)) else None
  {
    DecimalIs(n);
    DecimalStart(n);
    assert AllHex(Decimal(n));
    NumeralExactly(Decimal(n), 10, n);
  }

  lemma {:induction false} DecimalIs(n: nat)
    ensures Decimal(n) != "" && forall i :: 0 <= i < |Decimal(n)| ==> G.IsDigit(Decimal(n)[i])
    ensures NumberIn(Decimal(n), 10) == n
  {
    var s := Decimal(n);
    if n < 10 {
      assert s[..0] == "";
    } else {
      DecimalIs(n / 10);
      assert s[..|s| - 1] == Decimal(n / 10);
    }
  }

  lemma {:induction false} DecimalStart(n: nat)
    requires n > 0
    ensures Decimal(n) != "" && Decimal(n)[0] != '0'
  {
    if n >= 10 { DecimalStart(n / 10); }
  }

  // ---------------------------------------------------------------- characters

  lemma AlphaExactly(c: char)
    ensures G.IsAlpha(c) <==> c in LOWER || c in UPPER
  {
    forall j: nat | j < 26
      ensures |LOWER| == |UPPER| == 26 && LOWER[j] as int == 'a' as int + j && UPPER[j] as int == 'A' as int + j
    {
      LetterCodes(j);
    }
    LetterCodes(0);
    if 'a' <= c <= 'z' { assert LOWER[c as int - 'a' as int] == c; }
    if 'A' <= c <= 'Z' { assert UPPER[c as int - 'A' as int] == c; }
    hide LOWER, UPPER;
  }

  lemma DigitExactly(c: char)
    ensures G.IsDigit(c) <==> c in "0123456789"
  {
    var ds := "0123456789";
    assert forall i :: 0 <= i < 10 ==> ds[i] as int == '0' as int + i;
    if '0' <= c <= '9' { assert ds[c as int - '0' as int] == c; }
  }

  // The characters of labels, names and strings.
  lemma CharactersAre(c: char)
    ensures G.IsLabelChar(c) <==> c in LOWER || c in UPPER || c in "0123456789" || c == '_'
    ensures G.IsNameChar(c) <==> G.IsLabelChar(c) || c in ",.?-@#"
    ensures G.IsStringChar(c) <==> c !in "\"\n"
  {
    AlphaExactly(c);
    DigitExactly(c);
    hide LOWER, UPPER, G.IsAlpha, G.IsDigit;
    var s, t := ",.?-@#", "\"\n";
    assert s[0] == ',' && s[1] == '.' && s[2] == '?' && s[3] == '-' && s[4] == '@' && s[5] == '#';
    assert t[0] == '"' && t[1] == '\n';
  }

  // ---------------------------------------------------------------- values

  ghost predicate WordIs(w: G.WordText, x: Word) {
    match w
    case DecText(t) => x.Number? && x.n < 0x1_0000_0000 && Numeral(t, 10, x.n)
    case HexText(t) => x.Number? && x.n < 0x1_0000_0000 && |t| >= 2 && Numeral(t[2..], 16, x.n)
    case RefText(t) => x.Ref? && t == "&" + x.target
  }

  lemma WordMeans(w: G.WordText, x: Word)
    requires GoodToken(WordTok(w))
    ensures DecodeWord(w) == Some(x) <==> WordIs(w, x)
  {
    match w
    case DecText(t) =>
      assert AllHex(t);
      NumeralExactly(t, 10, NumberIn(t, 10));
      if x.Number? { NumeralExactly(t, 10, x.n); }
    case HexText(t) =>
      assert AllHex(t[2..]);
      NumeralExactly(t[2..], 16, NumberIn(t[2..], 16));
      if x.Number? { NumeralExactly(t[2..], 16, x.n); }
    case RefText(t) =>
      assert t == "&" + t[1..];
  }

  ghost predicate WordsAre(ws: seq<G.WordText>, xs: seq<Word>) {
    if ws == [] || xs == [] then ws == [] && xs == [] else WordIs(ws[0], xs[0]) && WordsAre(ws[1..], xs[1..])
  }

  ghost predicate ByteIs(b: string, x: nat) { x < 256 && Numeral(b, 16, x) }

  ghost predicate BytesAre(bs: seq<string>, xs: seq<nat>) {
    if bs == [] || xs == [] then bs == [] && xs == [] else ByteIs(bs[0], xs[0]) && BytesAre(bs[1..], xs[1..])
  }

  ghost predicate ValueIs(v: G.ValueText, x: Value) {
    match v
    case StringText(t) => x.Str? && t == "\"" + x.text + "\""
    case PhandleText(t) => x.Phandle? && t == "&" + x.target
    case WordsText(ws) => x.Words? && WordsAre(ws, x.words)
    case BytesText(bs) => x.Bytes? && BytesAre(bs, x.bytes)
  }

  ghost predicate ValuesAre(vs: seq<G.ValueText>, xs: seq<Value>) {
    if vs == [] || xs == [] then vs == [] && xs == [] else ValueIs(vs[0], xs[0]) && ValuesAre(vs[1..], xs[1..])
  }

  ghost predicate Good(toks: seq<Token>) { forall t :: t in toks ==> GoodToken(t) }

  lemma GoodParts(a: seq<Token>, b: seq<Token>)
    requires Good(a + b)
    ensures Good(a) && Good(b)
  {
    forall t | t in a ensures GoodToken(t) { assert t in a + b; }
    forall t | t in b ensures GoodToken(t) { assert t in a + b; }
  }

  lemma GoodFirst(t: Token, b: seq<Token>)
    requires Good([t] + b)
    ensures GoodToken(t) && Good(b)
  {
    GoodParts([t], b);
    assert t in [t];
  }

  lemma {:induction false} WordsMean(ws: seq<G.WordText>, xs: seq<Word>)
    requires Good(WordToks(ws))
    ensures DecodeWords(ws) == Some(xs) <==> WordsAre(ws, xs)
  {
    hide WordIs, DecodeWord, GoodToken;
    if ws != [] && xs != [] {
      GoodFirst(WordTok(ws[0]), WordToks(ws[1..]));
      WordMeans(ws[0], xs[0]);
      WordsMean(ws[1..], xs[1..]);
      assert xs == [xs[0]] + xs[1..];
      FirstOf(DecodeWord(ws[0]), DecodeWords(ws[1..]), xs);
    }
  }

  // How decoders put the first result in front of the others.
  lemma FirstOf<T>(x: Option<T>, rest: Option<seq<T>>, xs: seq<T>)
    requires xs != []
    ensures x.Some? && rest.Some? ==> ([x.value] + rest.value == xs <==> x.value == xs[0] && rest.value == xs[1..])
  {
    if x.Some? && rest.Some? { Cons(x.value, rest.value); assert xs == [xs[0]] + xs[1..]; }
  }

  lemma ByteHex(b: string)
    requires GoodToken(Token(ByteKind, b))
    ensures AllHex(b)
  {
  }

  lemma {:induction false} BytesMean(bs: seq<string>, xs: seq<nat>)
    requires Good(ByteToks(bs))
    ensures DecodeBytes(bs) == Some(xs) <==> BytesAre(bs, xs)
  {
    hide GoodToken, Numeral;
    if bs != [] && xs != [] {
      GoodFirst(Token(ByteKind, bs[0]), ByteToks(bs[1..]));
      ByteHex(bs[0]);
      NumeralExactly(bs[0], 16, xs[0]);
      BytesMean(bs[1..], xs[1..]);
      assert xs == [xs[0]] + xs[1..];
      FirstOf(Some(NumberIn(bs[0], 16)), DecodeBytes(bs[1..]), xs);
    }
  }

  lemma ValueMeans(v: G.ValueText, x: Value)
    requires Good(ValueToks(v))
    ensures DecodeValue(v) == Some(x) <==> ValueIs(v, x)
  {
    match v
    case StringText(t) => assert GoodToken(ValueToks(v)[0]); Unquoted(t);
    case PhandleText(t) => assert GoodToken(ValueToks(v)[0]) && t == "&" + t[1..];
    case WordsText(ws) =>
      GoodFirst(Mark("<"), WordToks(ws) + [Mark(">")]);
      GoodParts(WordToks(ws), [Mark(">")]);
      if x.Words? { WordsMean(ws, x.words); }
    case BytesText(bs) =>
      GoodFirst(Mark("["), ByteToks(bs) + [Mark("]")]);
      GoodParts(ByteToks(bs), [Mark("]")]);
      if x.Bytes? { BytesMean(bs, x.bytes); }
  }

  lemma Unquoted(t: string)
    requires GoodToken(Token(QuotedKind, t))
    ensures t == "\"" + t[1..|t| - 1] + "\""
    ensures forall x: string :: t == "\"" + x + "\"" ==> x == t[1..|t| - 1]
  {
    forall x: string | t == "\"" + x + "\"" ensures x == t[1..|t| - 1] {
      assert ("\"" + x + "\"")[1..|x| + 1] == x;
    }
  }

  lemma {:induction false} ValuesMean(vs: seq<G.ValueText>, xs: seq<Value>)
    requires forall i :: 0 <= i < |vs| ==> Good(ValueToks(vs[i]))
    ensures DecodeValues(vs) == Some(xs) <==> ValuesAre(vs, xs)
  {
    hide ValueIs, DecodeValue, Good;
    if vs != [] && xs != [] {
      ValueMeans(vs[0], xs[0]);
      ValuesMean(vs[1..], xs[1..]);
      assert xs == [xs[0]] + xs[1..];
      FirstOf(DecodeValue(vs[0]), DecodeValues(vs[1..]), xs);
    }
  }

  // ---------------------------------------------------------------- properties and nodes

  // The property entries in order.
  ghost predicate PropertiesAre(es: seq<G.EntryText>, ps: seq<Property>) {
    if es == [] then ps == []
    else if es[0].NodeEntry? then PropertiesAre(es[1..], ps)
    else
      && ps != [] && ps[0].name == es[0].prop.name && ValuesAre(es[0].prop.values, ps[0].value)
      && PropertiesAre(es[1..], ps[1..])
  }

  // The node has the source's labels, its properties and, in order, the nodes in it; the root's name is "/".
  ghost predicate Describes(t: G.NodeText, n: Node, isRoot: bool)
    decreases t
  {
    && t.labels == n.labels
    && (if isRoot then t.name == None && n.name == "/" else t.name == Some(n.name))
    && PropertiesAre(t.entries, n.properties)
    && ChildrenAre(t.entries, n.children)
  }

  ghost predicate ChildrenAre(es: seq<G.EntryText>, cs: seq<Node>)
    decreases es
  {
    if es == [] then cs == []
    else if es[0].PropEntry? then ChildrenAre(es[1..], cs)
    else cs != [] && ChildIs(es[0], cs[0]) && ChildrenAre(es[1..], cs[1..])
  }

  ghost predicate ChildIs(e: G.EntryText, c: Node)
    decreases e
  {
    e.NodeEntry? && Describes(e.node, c, false)
  }

  lemma {:induction false} MoreValuesGood(vs: seq<G.ValueText>)
    requires Good(MoreValueToks(vs))
    ensures forall i :: 0 <= i < |vs| ==> Good(ValueToks(vs[i]))
  {
    hide Good, ValueToks;
    if vs != [] {
      GoodFirst(Mark(","), ValueToks(vs[0]) + MoreValueToks(vs[1..]));
      GoodParts(ValueToks(vs[0]), MoreValueToks(vs[1..]));
      MoreValuesGood(vs[1..]);
    }
  }

  lemma PropertyGood(p: G.PropText)
    requires Good(PropToks(p))
    ensures forall i :: 0 <= i < |p.values| ==> Good(ValueToks(p.values[i]))
  {
    var vs := p.values;
    hide Good, ValueToks, MoreValueToks;
    GoodFirst(Token(NameKind, p.name), PropValueToks(vs));
    if vs != [] {
      var end := [Mark(";")];
      GoodFirst(Mark("="), ValueToks(vs[0]) + (MoreValueToks(vs[1..]) + end));
      GoodParts(ValueToks(vs[0]), MoreValueToks(vs[1..]) + end);
      GoodParts(MoreValueToks(vs[1..]), end);
      MoreValuesGood(vs[1..]);
    }
  }

  lemma {:induction false} PropsMean(es: seq<G.EntryText>, ps: seq<Property>)
    requires Good(EntriesToks(es))
    ensures Props(es) == Some(ps) <==> PropertiesAre(es, ps)
  {
    hide Good, EntryToks, ValuesAre;
    if es != [] {
      GoodParts(EntryToks(es[0]), EntriesToks(es[1..]));
      if es[0].NodeEntry? {
        PropsMean(es[1..], ps);
      } else if ps != [] {
        PropsMean(es[1..], ps[1..]);
        EntryMeans(es[0], ps[0]);
        assert ps == [ps[0]] + ps[1..];
        FirstOf(DecodeProperty(es[0].prop), Props(es[1..]), ps);
      }
    }
  }

  lemma EntryMeans(e: G.EntryText, q: Property)
    requires e.PropEntry? && Good(EntryToks(e))
    ensures DecodeProperty(e.prop) == Some(q) <==> e.prop.name == q.name && ValuesAre(e.prop.values, q.value)
  {
    PropertyGood(e.prop);
    ValuesMean(e.prop.values, q.value);
    hide Good, ValuesAre;
  }

  // ---------------------------------------------------------------- building

  lemma NodeParts(t: G.NodeText)
    requires Good(NodeToks(t))
    ensures GoodToken(NameTok(t.name)) && Good(EntriesToks(t.entries))
  {
    hide Good, GoodToken;
    var end := [Mark("}")] + [Mark(";")];
    ToksOf(t);
    GoodParts(LabelToks(t.labels), NodeRest(t));
    GoodFirst(NameTok(t.name), [Mark("{")] + (EntriesToks(t.entries) + end));
    GoodFirst(Mark("{"), EntriesToks(t.entries) + end);
    GoodParts(EntriesToks(t.entries), end);
  }

  // The node is where it belongs below `route`.
  ghost predicate Fitting(n: Node, path: string, route: seq<string>, ords: OrdMap) {
    B.Placed(n, ords) && n.route == if path == "" then [] else route + [n.name]
  }

  ghost predicate Inside(path: string, route: seq<string>) {
    B.GoodRoute(route) && if path == "" then route == [] else path == B.PathOf(route)
  }

  lemma PlaceMeans(t: G.NodeText, path: string, route: seq<string>, ords: OrdMap, n: Node)
    requires GoodToken(NameTok(t.name)) && Inside(path, route)
    requires if path == "" then t.name == None && n.name == "/" else t.name == Some(n.name)
    ensures Place(t.name, path, route, ords) == Some(Info(n.name, n.path, n.route, n.ord)) <==>
      && n.route == (if path == "" then [] else route + [n.name])
      && n.path == B.PathOf(n.route) && n.path in ords && n.ord == ords[n.path]
  {
    if path != "" { B.ExtendPath(route, n.name); }
  }

  lemma NameNeeded(t: G.NodeText, path: string, route: seq<string>, ords: OrdMap)
    requires Place(t.name, path, route, ords).Some?
    ensures var info := Place(t.name, path, route, ords).value;
      if path == "" then t.name == None && info.name == "/" else t.name == Some(info.name)
  {
  }

  // Main result: what is built from a source is the one node it describes that is placed where it belongs.
  lemma {:induction false} BuildsExactly(t: G.NodeText, path: string, route: seq<string>, ords: OrdMap, n: Node)
    requires Good(NodeToks(t)) && Inside(path, route)
    ensures Build(t, path, route, ords) == Some(n) <==> Describes(t, n, path == "") && Fitting(n, path, route, ords)
    decreases t
  {
    NodeParts(t);
    PropsMean(t.entries, n.properties);
    if Place(t.name, path, route, ords).Some? { NameNeeded(t, path, route, ords); }
    if if path == "" then t.name == None && n.name == "/" else t.name == Some(n.name) {
      PlaceMeans(t, path, route, ords, n);
      if n.route == (if path == "" then [] else route + [n.name]) {
        GoodChild(t, path, route, n);
        B.PathNotEmpty(n.route);
        ChildrenBuilt(t, t.entries, n.route, ords, n.children);
      }
    }
    hide Good, Props, PropertiesAre, ChildrenAre, GoodToken, Place;
  }

  lemma GoodChild(t: G.NodeText, path: string, route: seq<string>, n: Node)
    requires GoodToken(NameTok(t.name)) && Inside(path, route)
    requires if path == "" then t.name == None else t.name == Some(n.name)
    requires n.route == if path == "" then [] else route + [n.name]
    ensures B.GoodRoute(n.route)
  {
  }

  ghost predicate AllFitting(cs: seq<Node>, route: seq<string>, ords: OrdMap) {
    forall c :: c in cs ==> c.route == route + [c.name] && B.Placed(c, ords)
  }

  lemma NoneFitting(route: seq<string>, ords: OrdMap)
    ensures AllFitting([], route, ords)
  {
  }

  lemma FirstFitting(cs: seq<Node>, route: seq<string>, ords: OrdMap)
    requires cs != []
    ensures AllFitting(cs, route, ords) <==>
      cs[0].route == route + [cs[0].name] && B.Placed(cs[0], ords) && AllFitting(cs[1..], route, ords)
  {
    assert cs == [cs[0]] + cs[1..];
    hide B.Placed;
  }

  lemma {:induction false} ChildrenBuilt(t: G.NodeText, es: seq<G.EntryText>, route: seq<string>, ords: OrdMap,
                                         cs: seq<Node>)
    requires (forall e :: e in es ==> e in t.entries) && Good(EntriesToks(es)) && B.GoodRoute(route)
    ensures BuildChildren(t, es, B.PathOf(route), route, ords) == Some(cs) <==>
      ChildrenAre(es, cs) && AllFitting(cs, route, ords)
    decreases es
  {
    hide Good, EntryToks, Build, ChildIs, AllFitting;
    if es == [] {
      NoneFitting(route, ords);
    } else {
      assert es[0] in t.entries;
      GoodParts(EntryToks(es[0]), EntriesToks(es[1..]));
      if es[0].PropEntry? {
        ChildrenBuilt(t, es[1..], route, ords, cs);
      } else if cs != [] {
        ChildrenBuilt(t, es[1..], route, ords, cs[1..]);
        ChildBuilt(es[0], route, ords, cs[0]);
        FirstFitting(cs, route, ords);
        FirstOf(Build(es[0].node, B.PathOf(route), route, ords),
                BuildChildren(t, es[1..], B.PathOf(route), route, ords), cs);
      }
    }
  }

  lemma {:induction false} ChildBuilt(e: G.EntryText, route: seq<string>, ords: OrdMap, c: Node)
    requires e.NodeEntry? && Good(EntryToks(e)) && B.GoodRoute(route)
    ensures Build(e.node, B.PathOf(route), route, ords) == Some(c) <==>
      ChildIs(e, c) && c.route == route + [c.name] && B.Placed(c, ords)
    decreases e
  {
    B.PathNotEmpty(route);
    BuildsExactly(e.node, B.PathOf(route), route, ords, c);
    hide Good, Build, Describes, B.Placed, NodeToks;
  }

  // ---------------------------------------------------------------- labels

  // The nodes of a tree, each behind those below it.
  function PostOrder(n: Node): seq<Node>
    decreases n, 1
  {
    PostOrderAll(n, n.children) + [n]
  }

  function PostOrderAll(n: Node, cs: seq<Node>): seq<Node>
    requires forall c :: c in cs ==> c in n.children
    decreases n, 0, |cs|
  {
    if cs == [] then []
    else
      assert cs[|cs| - 1] in n.children;
      PostOrderAll(n, cs[..|cs| - 1]) + PostOrder(cs[|cs| - 1])
  }

  // The last of the nodes that carries the label.
  function LastWith(ns: seq<Node>, lab: string): Option<Node> {
    if ns == [] then None
    else if lab in ns[|ns| - 1].labels then Some(ns[|ns| - 1])
    else LastWith(ns[..|ns| - 1], lab)
  }

  lemma {:induction false} LastAppend(a: seq<Node>, b: seq<Node>, lab: string)
    ensures LastWith(a + b, lab) == if LastWith(b, lab).Some? then LastWith(b, lab) else LastWith(a, lab)
  {
    if b == [] {
      assert a + b == a;
    } else {
      assert (a + b)[..|a + b| - 1] == a + b[..|b| - 1] && (a + b)[|a + b| - 1] == b[|b| - 1];
      LastAppend(a, b[..|b| - 1], lab);
    }
  }

  // What the map has for a label once the nodes are in it.
  ghost predicate Inserted(m: map<string, Node>, r: map<string, Node>, ns: seq<Node>, lab: string) {
    match LastWith(ns, lab)
    case Some(x) => lab in r && r[lab] == x
    case None => (lab in r <==> lab in m) && (lab in r ==> r[lab] == m[lab])
  }

  lemma {:induction false} InsertedAll(m: map<string, Node>, n: Node, lab: string)
    ensures Inserted(m, InsertAll(m, n), PostOrder(n), lab)
    decreases n, 1
  {
    InsertedChildren(m, n, n.children, lab);
    B.InsertLabelsAre(InsertChildren(m, n, n.children), n.labels, n, lab);
    LastAppend(PostOrderAll(n, n.children), [n], lab);
    assert [n][..0] == [] && LastWith([n][..0], lab) == None;
    hide InsertLabels, InsertChildren;
  }

  lemma {:induction false} InsertedChildren(m: map<string, Node>, n: Node, cs: seq<Node>, lab: string)
    requires forall c :: c in cs ==> c in n.children
    ensures Inserted(m, InsertChildren(m, n, cs), PostOrderAll(n, cs), lab)
    decreases n, 0, |cs|
  {
    if cs != [] {
      var k := |cs| - 1;
      assert cs[k] in n.children;
      InsertedChildren(m, n, cs[..k], lab);
      InsertedAll(InsertChildren(m, n, cs[..k]), cs[k], lab);
      LastAppend(PostOrderAll(n, cs[..k]), PostOrder(cs[k]), lab);
      hide InsertAll, PostOrder;
    }
  }

  // A label names the last node that carries it.
  ghost predicate LabelsAre(dt: DeviceTree) {
    forall lab :: LastWith(PostOrder(dt.root), lab) == if lab in dt.labels then Some(dt.labels[lab]) else None
  }

  lemma LabelsExactly(dt: DeviceTree)
    ensures dt.labels == InsertAll(map[], dt.root) <==> LabelsAre(dt)
  {
    hide InsertAll, PostOrder, LastWith;
    var r := InsertAll(map[], dt.root);
    forall lab ensures LastWith(PostOrder(dt.root), lab) == if lab in r then Some(r[lab]) else None {
      InsertedAll(map[], dt.root, lab);
    }
    if LabelsAre(dt) {
      forall lab ensures (lab in r <==> lab in dt.labels) && (lab in r ==> r[lab] == dt.labels[lab]) {
        assert LastWith(PostOrder(dt.root), lab) == if lab in r then Some(r[lab]) else None;
      }
      assert r == dt.labels;
    }
  }

  // ---------------------------------------------------------------- texts and devicetrees

  lemma {:induction false} FitsGood(toks: seq<Token>, gaps: seq<Gap>, k: string)
    requires Fits(toks, gaps, k)
    ensures Good(toks)
  {
    hide GoodToken, GoodGap, Parts;
    if toks != [] {
      FitsGood(toks[1..], gaps[1..], k);
      assert toks == [toks[0]] + toks[1..];
    }
  }

  lemma RootName(t: G.NodeText, root: Node)
    ensures Describes(t, root, true) ==> root.name == "/"
  {
  }

  lemma SourceBuilt(text: string, t: G.NodeText, gaps: seq<Gap>, last: Gap, ords: OrdMap, root: Node)
    requires IsText(text, t, gaps, last)
    ensures Build(t, "", [], ords) == Some(root) <==> Describes(t, root, true) && B.PlacedRoot(root, ords)
  {
    FitsGood(FileToks(t), gaps, GapOnto(last, ""));
    hide Good, NodeToks, Build, Describes, B.Placed;
    GoodFirst(Mark("/dts-v1/"), [Mark(";")] + NodeToks(t));
    GoodFirst(Mark(";"), NodeToks(t));
    BuildsExactly(t, "", [], ords, root);
    RootName(t, root);
  }

  // The text is that of a source for the devicetree.
  ghost predicate Means(text: string, ords: OrdMap, dt: DeviceTree) {
    && (exists t, gaps, last :: Full(t) && IsText(text, t, gaps, last) && Describes(t, dt.root, true))
    && B.PlacedRoot(dt.root, ords) && LabelsAre(dt)
  }

  // Main result: a text is parsed as a devicetree exactly when it consists of the tokens of a source, with blanks and
  // comments between them, the source describes the devicetree's nodes, these have the paths, routes and ords of
  // where they are, and each label names the last node that carries it.
  lemma ParsesTo(text: string, ords: OrdMap, dt: DeviceTree)
    ensures Parse(text, ords) == Some(dt) <==> Means(text, ords, dt)
  {
    LabelsExactly(dt);
    hide InsertAll, LabelsAre, Describes, Full, IsText, Build, B.PlacedRoot, G.File;
    if Parse(text, ords) == Some(dt) {
      var t := G.File(text).value;
      ReadsExactly(text, t);
      var gaps, last :| IsText(text, t, gaps, last);
      SourceBuilt(text, t, gaps, last, ords, dt.root);
    }
    if Means(text, ords, dt) {
      var t, gaps, last :| Full(t) && IsText(text, t, gaps, last) && Describes(t, dt.root, true);
      ReadsExactly(text, t);
      SourceBuilt(text, t, gaps, last, ords, dt.root);
    }
  }
}
