/**
 Which devicetrees come out of the parser: exactly the well-formed ones, each also from its canonical text; and
 two things of the Devicetree Specification v0.4 that the grammar refuses.
 */
module DtsExact {
  import opened Prelude
  import G = DtsGrammar
  import opened DtsTree
  import opened DtsPrint
  import B = DtsBuild
  import R = DtsRoundTrip

  // ---------------------------------------------------------------- matched text

  ghost predicate GoodRef(t: string) { t != "" && GoodLabel(t[1..]) }

  ghost predicate GoodWordText(w: G.WordText) { w.RefText? ==> GoodRef(w.text) }

  ghost predicate GoodValueText(v: G.ValueText) {
    match v
    case StringText(t) => |t| >= 2 && GoodText(t[1..|t| - 1])
    case WordsText(ws) => ws != [] && forall i :: 0 <= i < |ws| ==> GoodWordText(ws[i])
    case BytesText(bs) => bs != []
    case PhandleText(t) => GoodRef(t)
  }

  ghost predicate GoodPropText(p: G.PropText) {
    GoodName(p.name) && forall i :: 0 <= i < |p.values| ==> GoodValueText(p.values[i])
  }

  ghost predicate GoodNodeText(t: G.NodeText) {
    && (forall i :: 0 <= i < |t.labels| ==> GoodLabel(t.labels[i]))
    && (t.name.Some? ==> GoodName(t.name.value))
    && forall e :: e in t.entries ==> GoodEntryText(e)
  }

  ghost predicate GoodEntryText(e: G.EntryText) {
    match e
    case PropEntry(p) => GoodPropText(p)
    case NodeEntry(n) => GoodNodeText(n)
  }

  lemma LabelIsGood(s: string)
    requires G.Label(s).Match?
    ensures GoodLabel(G.Label(s).val)
  {
    var lab := G.Label(s).val;
    assert forall i :: 1 <= i < |lab| ==> lab[i] == s[1..][i - 1];
  }

  lemma NameIsGood(s: string)
    requires G.Nodename(s).Match?
    ensures GoodName(G.Nodename(s).val)
  {
  }

  lemma PhandleIsGood(s: string)
    requires G.Phandle(s).Match?
    ensures GoodRef(G.Phandle(s).val)
  {
    LabelIsGood(s[1..]);
    R.Cut("&", G.Label(s[1..]).val);
  }

  lemma StringIsGood(s: string)
    requires G.StringLit(s).Match?
    ensures GoodValueText(G.StringText(G.StringLit(s).val))
  {
    var t := G.StringLit(s).val;
    var n := G.Span(G.IsStringChar, s[1..]);
    assert t == s[..n + 2];
    assert t[1..|t| - 1] == s[1..][..n];
    forall i | 0 <= i < n ensures G.IsStringChar(s[1..][i]) {
    }
  }

  lemma {:induction false} WordsAreGood(s: string)
    ensures forall i :: 0 <= i < |G.MoreWords(s).0| ==> GoodWordText(G.MoreWords(s).0[i])
    decreases |s|
  {
    var t := G.Skip(s);
    match G.Word(t)
    case Fail =>
    case Match(w, rest) =>
      if w.RefText? { PhandleIsGood(t); }
      WordsAreGood(rest);
  }

  lemma ValueIsGood(s: string)
    requires G.Value(s).Match?
    ensures GoodValueText(G.Value(s).val)
  {
    if G.StringLit(s).Match? {
      StringIsGood(s);
    } else if G.Words(s).Match? {
      WordsAreGood(G.Lit("<", s).value);
    } else if !G.Bytes(s).Match? {
      PhandleIsGood(s);
    }
    hide G.MoreWords, G.MoreBytes, G.Phandle, G.StringLit, G.Sep, G.Lit;
  }

  lemma {:induction false} ValuesAreGood(s: string)
    ensures forall i :: 0 <= i < |G.MoreValues(s).0| ==> GoodValueText(G.MoreValues(s).0[i])
    decreases |s|
  {
    hide G.Value, GoodValueText;
    match G.Sep(",", s)
    case None =>
    case Some(s1) =>
      match G.Value(G.Skip(s1))
      case Fail =>
      case Match(v, rest) =>
        ValueIsGood(G.Skip(s1));
        ValuesAreGood(rest);
  }

  lemma PropertyIsGood(s: string)
    requires G.Property(s).Match?
    ensures GoodPropText(G.Property(s).val)
  {
    hide G.Value, G.MoreValues, GoodValueText, G.Nodename, GoodName, G.Sep;
    NameIsGood(s);
    var s1 := G.Nodename(s).rest;
    if G.PropValues(s1).Match? {
      var s2 := G.Sep("=", s1).value;
      ValueIsGood(G.Skip(s2));
      ValuesAreGood(G.Value(G.Skip(s2)).rest);
    }
  }

  lemma {:induction false} LabelsAreGood(s: string)
    ensures forall i :: 0 <= i < |G.Labels(s).0| ==> GoodLabel(G.Labels(s).0[i])
    decreases |s|
  {
    hide G.Label, GoodLabel;
    var t := G.Skip(s);
    match G.Label(t)
    case Fail =>
    case Match(lab, s1) =>
      if G.Sep(":", s1).Some? {
        LabelIsGood(t);
        LabelsAreGood(G.Sep(":", s1).value);
      }
  }

  lemma {:induction false} NodeIsGood(s: string)
    requires G.Node(s).Match?
    ensures GoodNodeText(G.Node(s).val)
    decreases |s|, 0
  {
    hide G.Labels, G.Nodename, GoodName, GoodLabel, G.Sep, GoodEntryText;
    LabelsAreGood(s);
    var t := G.Skip(G.Labels(s).1);
    if G.NameOrRoot(t).val.Some? { NameIsGood(t); }
    EntriesAreGood(G.Sep("{", G.NameOrRoot(t).rest).value);
  }

  lemma {:induction false} EntriesAreGood(s: string)
    ensures forall e :: e in G.Entries(s).0 ==> GoodEntryText(e)
    decreases |s|, 1
  {
    hide G.Property, G.Node, GoodNodeText, GoodPropText;
    var t := G.Skip(s);
    match G.Entry(t)
    case Fail =>
    case Match(e, rest) =>
      if e.PropEntry? { PropertyIsGood(t); } else { NodeIsGood(t); }
      EntriesAreGood(rest);
  }

  // ---------------------------------------------------------------- what is built from it

  lemma {:induction false} DecodedWords(ws: seq<G.WordText>)
    requires DecodeWords(ws).Some? && forall i :: 0 <= i < |ws| ==> GoodWordText(ws[i])
    ensures |DecodeWords(ws).value| == |ws|
    ensures forall i :: 0 <= i < |ws| ==> GoodWord(DecodeWords(ws).value[i])
  {
    if ws != [] {
      DecodedWords(ws[1..]);
    }
  }

  lemma {:induction false} DecodedBytes(bs: seq<string>)
    requires DecodeBytes(bs).Some?
    ensures |DecodeBytes(bs).value| == |bs|
    ensures forall i :: 0 <= i < |bs| ==> DecodeBytes(bs).value[i] < 256
  {
    if bs != [] {
      DecodedBytes(bs[1..]);
    }
  }

  lemma DecodedValue(v: G.ValueText)
    requires GoodValueText(v) && DecodeValue(v).Some?
    ensures GoodValue(DecodeValue(v).value)
  {
    match v
    case WordsText(ws) => DecodedWords(ws);
    case BytesText(bs) => DecodedBytes(bs);
    case _ =>
  }

  lemma {:induction false} DecodedValues(vs: seq<G.ValueText>)
    requires DecodeValues(vs).Some? && forall i :: 0 <= i < |vs| ==> GoodValueText(vs[i])
    ensures forall i :: 0 <= i < |DecodeValues(vs).value| ==> GoodValue(DecodeValues(vs).value[i])
  {
    if vs != [] {
      DecodedValue(vs[0]);
      DecodedValues(vs[1..]);
    }
  }

  lemma {:induction false} BuiltProps(es: seq<G.EntryText>)
    requires Props(es).Some? && forall i :: 0 <= i < |es| ==> GoodEntryText(es[i])
    ensures forall i :: 0 <= i < |Props(es).value| ==> GoodProperty(Props(es).value[i])
  {
    if es != [] {
      BuiltProps(es[1..]);
      if es[0].PropEntry? { DecodedValues(es[0].prop.values); }
    }
  }

  lemma {:induction false} BuiltNode(t: G.NodeText, path: string, route: seq<string>, ords: OrdMap)
    requires GoodNodeText(t) && Build(t, path, route, ords).Some?
    ensures var n := Build(t, path, route, ords).value;
      GoodNode(n) && if path == "" then n.name == "/" else GoodName(n.name)
    decreases t, 1
  {
    var info := Place(t.name, path, route, ords).value;
    assert forall i :: 0 <= i < |t.entries| ==> t.entries[i] in t.entries;
    BuiltProps(t.entries);
    hide GoodProperty, GoodName, GoodLabel, Props;
    BuiltChildren(t, t.entries, info.path, info.route, ords);
  }

  lemma {:induction false} BuiltChildren(t: G.NodeText, es: seq<G.EntryText>, path: string, route: seq<string>,
                                         ords: OrdMap)
    requires (forall e :: e in es ==> e in t.entries && GoodEntryText(e)) && path != ""
    requires BuildChildren(t, es, path, route, ords).Some?
    ensures forall c :: c in BuildChildren(t, es, path, route, ords).value ==> GoodName(c.name) && GoodNode(c)
    decreases t, 0, |es|
  {
    hide GoodName, GoodNode;
    if es != [] {
      assert es[0] in t.entries && GoodEntryText(es[0]);
      assert forall e :: e in es[1..] ==> e in es;
      BuiltChildren(t, es[1..], path, route, ords);
      if es[0].NodeEntry? { BuiltNode(es[0].node, path, route, ords); }
    }
  }

  // ---------------------------------------------------------------- exactly the well-formed trees

  // Whatever text was parsed, the tree can be written down again.
  lemma ParsedIsGood(text: string, ords: OrdMap)
    requires Parse(text, ords).Some?
    ensures GoodTree(Parse(text, ords).value.root) && B.PlacedRoot(Parse(text, ords).value.root, ords)
  {
    var s1 := G.Sep("/dts-v1/", text).value;
    var s2 := G.Sep(";", s1).value;
    NodeIsGood(G.Skip(s2));
    BuiltNode(G.File(text).value, "", [], ords);
    B.ParsePlaces(text, ords, Parse(text, ords).value.root);
  }

  // A tree comes out of the parser exactly when it is well-formed and placed.
  lemma ParsesExactly(root: Node, ords: OrdMap)
    ensures (exists text :: Parse(text, ords).Some? && Parse(text, ords).value.root == root) <==>
      GoodTree(root) && B.PlacedRoot(root, ords)
  {
    if text :| Parse(text, ords).Some? && Parse(text, ords).value.root == root {
      ParsedIsGood(text, ords);
    }
    if GoodTree(root) && B.PlacedRoot(root, ords) {
      B.RoundTrip(root, ords);
      assert Parse(Print(root), ords).Some?;
    }
  }

  // Writing what was parsed and parsing it again changes nothing.
  lemma Reparse(text: string, ords: OrdMap)
    requires Parse(text, ords).Some?
    ensures GoodTree(Parse(text, ords).value.root)
    ensures Parse(Print(Parse(text, ords).value.root), ords) == Parse(text, ords)
  {
    ParsedIsGood(text, ords);
    B.RoundTrip(Parse(text, ords).value.root, ords);
    hide Print, GoodTree;
  }

  // ---------------------------------------------------------------- what the grammar refuses

  // A file whose root starts with `body`.
  function RootWith(body: string): string {
    "/dts-v1/" + (";" + (" " + ("/" + (" " + ("{" + (" " + body))))))
  }

  // A name that is followed by neither an equals sign, a semicolon, a colon nor a brace begins no entry.
  lemma NoEntry(name: string, b: string)
    requires GoodName(name) && R.Ends(G.IsNameChar, b) && G.Skip(b) != "" && G.Skip(b)[0] !in "=;:{"
    ensures G.Entry(name + b) == G.Fail
  {
    R.NameAlone(name, b);
    NoNode(name, b);
  }

  lemma NoNode(name: string, b: string)
    requires GoodName(name) && R.Ends(G.IsNameChar, b) && G.Skip(b) != "" && G.Skip(b)[0] !in ":{"
    ensures G.Node(name + b) == G.Fail
  {
    var s := name + b;
    assert s[0] == name[0];
    R.SkipSolid(s);
    if G.Label(s).Match? { AfterLabel(name, b); }
    R.NodenameOver(name, b);
    R.SepMissing("{", b);
    hide G.Label, G.Nodename, G.Skip, G.Sep;
  }

  lemma LabelWithin(name: string, b: string)
    requires R.Ends(G.IsNameChar, b) && b != "" && G.Label(name + b).Match?
    ensures |G.Label(name + b).val| <= |name|
    ensures G.Label(name + b).rest == (name + b)[|G.Label(name + b).val|..]
  {
    var s := name + b;
    assert s[|name|] == b[0] && !G.IsLabelChar(b[0]);
    LabelIsGood(s);
    var lab := G.Label(s).val;
    assert lab == s[..|lab|];
    assert forall i :: 0 <= i < |lab| ==> G.IsLabelChar(s[i]) by {
      assert forall i :: 0 <= i < |lab| ==> lab[i] == s[i];
    }
    hide G.Label;
  }

  lemma AfterLabel(name: string, b: string)
    requires GoodName(name) && R.Ends(G.IsNameChar, b) && G.Skip(b) != "" && G.Skip(b)[0] != ':'
    requires G.Label(name + b).Match?
    ensures G.Sep(":", G.Label(name + b).rest) == None
  {
    var s := name + b;
    var n := |G.Label(s).val|;
    LabelWithin(name, b);
    hide G.Label;
    if n == |name| {
      assert s[n..] == b;
    } else {
      assert s[n..][0] == name[n];
      R.SkipSolid(s[n..]);
    }
    R.SepMissing(":", s[n..]);
  }

  lemma RootRefused(body: string, ords: OrdMap)
    requires R.Solid(body) && body[0] != '}' && G.Entry(body) == G.Fail
    ensures Parse(RootWith(body), ords) == None
  {
    var s := "/" + (" " + ("{" + (" " + body)));
    R.HeaderOver(" " + s);
    R.SkipBlank(" ", s);
    RootNode(body);
    hide G.Node, G.Sep, G.Skip;
  }

  lemma RootNode(body: string)
    requires R.Solid(body) && body[0] != '}' && G.Entry(body) == G.Fail
    ensures var s := "/" + (" " + ("{" + (" " + body)));
      G.Skip(s) == s && G.Node(s) == G.Fail
  {
    var inner := "{" + (" " + body);
    var s := "/" + (" " + inner);
    assert s[1] == ' ';
    R.SkipSolid(s);
    assert G.Labels(s) == ([], s);
    R.Cut("/", " " + inner);
    R.SepAfterBlank("{", " " + body);
    R.SkipBlank(" ", body);
    R.SkipSolid(body);
    R.SepMissing("}", " " + body);
    hide G.Entry, G.Skip, G.Labels, G.Sep;
  }

  lemma NamedRefused(name: string, b: string, ords: OrdMap)
    requires GoodName(name) && G.Entry(name + b) == G.Fail
    ensures Parse(RootWith(name + b), ords) == None
  {
    assert (name + b)[0] == name[0];
    RootRefused(name + b, ords);
  }

  // Section 2.2.1 allows the plus sign in node names; a root that begins with such a node is refused.
  lemma PlusRefused(name: string, k: string, ords: OrdMap)
    requires GoodName(name)
    ensures Parse(RootWith(name + ("+" + k)), ords) == None
  {
    R.SkipSolid("+" + k);
    NoEntry(name, "+" + k);
    NamedRefused(name, "+" + k, ords);
  }

  lemma NoZero(k: string)
    requires k == "" || (k[0] != 'x' && k[0] != 'X')
    ensures G.Value("<" + ("0" + k)) == G.Fail
  {
    var s := "0" + k;
    assert s[0] == '0' && (|s| >= 2 ==> s[1] == k[0]);
    R.SkipSolid(s);
    assert G.Word(s) == G.Fail;
    assert G.MoreWords(s) == ([], s);
    R.Cut("<", s);
    R.SepMissing(">", s);
    assert ("<" + s)[0] == '<';
    hide G.Word, G.MoreWords, G.Sep, G.Skip, G.MoreBytes;
  }

  // An equals sign with nothing behind it that is a value.
  lemma NoValueNoProperty(name: string, v: string)
    requires GoodName(name) && R.Solid(v) && G.Value(v) == G.Fail
    ensures G.Entry(name + (" " + ("=" + (" " + v)))) == G.Fail
  {
    var b := " " + ("=" + (" " + v));
    R.SkipBlank(" ", "=" + (" " + v));
    R.SkipSolid("=" + (" " + v));
    R.SepAfterBlank("=", " " + v);
    R.SkipBlank(" ", v);
    R.SkipSolid(v);
    R.NodenameOver(name, b);
    R.SepMissing(";", b);
    NoNode(name, b);
    hide G.Value, G.Skip, G.Sep, G.Nodename, G.Node;
  }

  // Section 6.3 has cells hold C-style integers; a property whose cells begin with the number zero, not in
  // hexadecimal, is refused.
  lemma ZeroRefused(name: string, k: string, ords: OrdMap)
    requires GoodName(name) && (k == "" || (k[0] != 'x' && k[0] != 'X'))
    ensures Parse(RootWith(name + (" " + ("=" + (" " + ("<" + ("0" + k)))))), ords) == None
  {
    var v := "<" + ("0" + k);
    var b := " " + ("=" + (" " + v));
    NoZero(k);
    assert R.Solid(v);
    hide G.Entry, G.Value, Parse, GoodName, R.Solid, RootWith;
    NoValueNoProperty(name, v);
    NamedRefused(name, b, ords);
  }
}
