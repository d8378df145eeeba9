/**
 Parsing the canonical text of a devicetree gives the devicetree back.
 */
module DtsRoundTrip {
  import opened Prelude
  import G = DtsGrammar
  import opened DtsTree
  import opened DtsPrint

  // ---------------------------------------------------------------- text in front of a rest

  lemma Cut(t: string, k: string)
    ensures (t + k)[|t|..] == k && (t + k)[..|t|] == t && t <= t + k
    ensures t != "" ==> (t + k)[0] == t[0]
    ensures |t| == 1 ==> (t + k)[1..] == k
    ensures G.Lit(t, t + k) == Some(k)
  {
  }

  lemma CutTwo(a: string, t: string, k: string)
    ensures var s := a + (t + k);
      && s[..|a|] == a && s[|a|..] == t + k
      && s[..|a| + |t|] == a + t && s[|a| + |t|..] == k
      && (forall i :: 0 <= i < |a| ==> s[i] == a[i])
  {
  }

  // The rest does not go on with characters of the class.
  ghost predicate Ends(p: char -> bool, k: string) { k == "" || !p(k[0]) }

  lemma {:induction false} SpanOver(p: char -> bool, t: string, k: string)
    requires (forall i :: 0 <= i < |t| ==> p(t[i])) && Ends(p, k)
    ensures G.Span(p, t + k) == |t|
  {
    if t == "" {
      assert t + k == k;
    } else {
      assert (t + k)[1..] == t[1..] + k;
      SpanOver(p, t[1..], k);
    }
  }

  // ---------------------------------------------------------------- blanks

  // A text that starts with neither a blank nor a comment.
  predicate Solid(s: string) {
    s != "" && !G.IsSpace(s[0]) && (s[0] == '/' ==> |s| >= 2 && s[1] != '*')
  }

  lemma SkipSolid(s: string)
    requires Solid(s)
    ensures G.Skip(s) == s
  {
  }

  lemma SkipBlank(c: string, k: string)
    requires |c| == 1 && G.IsSpace(c[0])
    ensures G.Skip(c + k) == G.Skip(k)
  {
    Cut(c, k);
  }

  lemma {:induction false} SkipTabs(depth: nat, k: string)
    ensures G.Skip(Tabs(depth, k)) == G.Skip(k)
  {
    if depth > 0 {
      SkipTabs(depth - 1, k);
      SkipBlank("\t", Tabs(depth - 1, k));
    }
  }

  // A separator that is there.
  lemma SepHere(c: string, k: string)
    requires c != "" && Solid(c)
    ensures G.Sep(c, c + k) == Some(k)
  {
    Cut(c, k);
    assert Solid(c + k) by { assert |c| >= 2 ==> (c + k)[1] == c[1]; }
    SkipSolid(c + k);
  }

  // A separator that is not there.
  lemma SepMissing(c: string, s: string)
    requires |c| == 1 && G.Skip(s) != "" && G.Skip(s)[0] != c[0]
    ensures G.Sep(c, s) == None
  {
  }

  // ---------------------------------------------------------------- tokens

  lemma NodenameOver(name: string, k: string)
    requires GoodName(name) && Ends(G.IsNameChar, k)
    ensures G.Nodename(name + k) == G.Match(name, k)
  {
    SpanOver(G.IsNameChar, name, k);
    Cut(name, k);
  }

  lemma LabelOver(lab: string, k: string)
    requires GoodLabel(lab) && Ends(G.IsLabelChar, k)
    ensures G.Label(lab + k) == G.Match(lab, k)
  {
    assert (lab + k)[1..] == lab[1..] + k;
    SpanOver(G.IsLabelChar, lab[1..], k);
    Cut(lab, k);
  }

  lemma PhandleOver(lab: string, k: string)
    requires GoodLabel(lab) && Ends(G.IsLabelChar, k)
    ensures G.Phandle("&" + (lab + k)) == G.Match("&" + lab, k)
  {
    Cut("&", lab + k);
    LabelOver(lab, k);
  }

  lemma StringOver(t: string, k: string)
    requires GoodText(t)
    ensures G.StringLit("\"" + (t + ("\"" + k))) == G.Match("\"" + t + "\"", k)
  {
    var s := "\"" + (t + ("\"" + k));
    Cut("\"", t + ("\"" + k));
    SpanOver(G.IsStringChar, t, "\"" + k);
    var n := 1 + |t|;
    assert s[n] == '"';
    assert s[..n + 1] == "\"" + t + "\"";
    assert s[n + 1..] == k;
  }

  lemma {:induction false} HexIsHex(n: nat)
    ensures AllHex(Hex(n)) && NumberIn(Hex(n), 16) == n
  {
    if n < 16 {
      assert [HexChar(n)][..0] == "";
    } else {
      HexIsHex(n / 16);
      assert Hex(n)[..|Hex(n)| - 1] == Hex(n / 16);
    }
  }

  lemma HexByteIsHex(b: nat)
    requires b < 256
    ensures AllHex(HexByte(b)) && NumberIn(HexByte(b), 16) == b
  {
    var s := HexByte(b);
    assert s[..1] == [HexChar(b / 16)] && s[..1][..0] == "";
    assert NumberIn(s[..1], 16) == b / 16;
  }

  lemma HexOver(n: nat, k: string)
    requires Ends(G.IsHexDigit, k)
    ensures G.HexNumber("0x" + (Hex(n) + k)) == G.Match("0x" + Hex(n), k)
  {
    var s := "0x" + (Hex(n) + k);
    HexIsHex(n);
    CutTwo("0x", Hex(n), k);
    SpanOver(G.IsHexDigit, Hex(n), k);
    assert s[0] == '0' && s[1] == 'x';
    hide Hex, G.IsHexDigit;
  }

  lemma WordOver(w: Word, k: string)
    requires GoodWord(w) && Ends(G.IsLabelChar, k)
    ensures G.Word(WordOnto(w, k)) == G.Match(WordText(w), k)
    ensures Solid(WordOnto(w, k))
  {
    match w {
      case Number(n) => HexOver(n, k);
      case Ref(lab) => PhandleOver(lab, k);
    }
  }

  // ---------------------------------------------------------------- values

  lemma {:induction false} WordsOver(ws: seq<Word>, k: string)
    requires forall i :: 0 <= i < |ws| ==> GoodWord(ws[i])
    ensures G.MoreWords(WordsOnto(ws, ">" + k)) == (WordTexts(ws), ">" + k)
    ensures Ends(G.IsLabelChar, WordsOnto(ws, ">" + k))
  {
    if ws == [] {
      SkipSolid(">" + k);
      assert G.Word(">" + k) == G.Fail;
    } else {
      WordsOver(ws[1..], k);
      var rest := WordsOnto(ws[1..], ">" + k);
      WordOver(ws[0], rest);
      SkipBlank(" ", WordOnto(ws[0], rest));
      SkipSolid(WordOnto(ws[0], rest));
    }
  }

  lemma WordsValue(ws: seq<Word>, k: string)
    requires ws != [] && forall i :: 0 <= i < |ws| ==> GoodWord(ws[i])
    ensures G.Words("<" + WordOnto(ws[0], WordsOnto(ws[1..], ">" + k))) == G.Match(G.WordsText(WordTexts(ws)), k)
  {
    var rest := WordsOnto(ws[1..], ">" + k);
    WordsOver(ws[1..], k);
    WordOver(ws[0], rest);
    SkipSolid(WordOnto(ws[0], rest));
    Cut("<", WordOnto(ws[0], rest));
    SepHere(">", k);
  }

  lemma ByteOver(b: nat, k: string)
    requires b < 256 && Ends(G.IsHexDigit, k)
    ensures G.PlainHex(HexByte(b) + k) == G.Match(HexByte(b), k)
    ensures Solid(HexByte(b) + k)
  {
    HexByteIsHex(b);
    SpanOver(G.IsHexDigit, HexByte(b), k);
    Cut(HexByte(b), k);
    assert G.IsHexDigit(HexByte(b)[0]);
  }

  lemma {:induction false} BytesOver(bs: seq<nat>, k: string)
    requires forall i :: 0 <= i < |bs| ==> bs[i] < 256
    ensures G.MoreBytes(BytesOnto(bs, "]" + k)) == (ByteTexts(bs), "]" + k)
    ensures Ends(G.IsHexDigit, BytesOnto(bs, "]" + k))
  {
    if bs == [] {
      SkipSolid("]" + k);
    } else {
      BytesOver(bs[1..], k);
      var rest := BytesOnto(bs[1..], "]" + k);
      ByteOver(bs[0], rest);
      SkipBlank(" ", HexByte(bs[0]) + rest);
      SkipSolid(HexByte(bs[0]) + rest);
    }
  }

  lemma BytesValue(bs: seq<nat>, k: string)
    requires bs != [] && forall i :: 0 <= i < |bs| ==> bs[i] < 256
    ensures G.Bytes("[" + (HexByte(bs[0]) + BytesOnto(bs[1..], "]" + k))) == G.Match(G.BytesText(ByteTexts(bs)), k)
  {
    var rest := BytesOnto(bs[1..], "]" + k);
    BytesOver(bs[1..], k);
    ByteOver(bs[0], rest);
    SkipSolid(HexByte(bs[0]) + rest);
    Cut("[", HexByte(bs[0]) + rest);
    SepHere("]", k);
  }

  lemma WordsOrBytesOver(v: Value, k: string)
    requires GoodValue(v) && (v.Words? || v.Bytes?)
    ensures G.Value(ValueOnto(v, k)) == G.Match(ValueText(v), k)
  {
    if v.Words? {
      WordsValue(v.words, k);
      assert ValueOnto(v, k)[0] == '<';
    } else {
      BytesValue(v.bytes, k);
      assert ValueOnto(v, k)[0] == '[';
    }
    hide WordOnto, WordsOnto, BytesOnto, WordTexts, ByteTexts, HexByte;
  }

  lemma PhandleValue(lab: string, k: string)
    requires GoodLabel(lab) && Ends(G.IsLabelChar, k)
    ensures G.Value("&" + (lab + k)) == G.Match(G.PhandleText("&" + lab), k)
  {
    PhandleOver(lab, k);
    assert ("&" + (lab + k))[0] == '&';
    hide G.Phandle, GoodLabel;
  }

  lemma StringValue(t: string, k: string)
    requires GoodText(t)
    ensures G.Value("\"" + (t + ("\"" + k))) == G.Match(G.StringText("\"" + t + "\""), k)
  {
    StringOver(t, k);
    hide G.StringLit, GoodText;
  }

  lemma ValueOver(v: Value, k: string)
    requires GoodValue(v) && Ends(G.IsLabelChar, k)
    ensures G.Value(ValueOnto(v, k)) == G.Match(ValueText(v), k)
    ensures Solid(ValueOnto(v, k))
  {
    hide G.Value, WordOnto, WordsOnto, BytesOnto, WordTexts, ByteTexts, HexByte;
    match v {
      case Words(ws) => WordsOrBytesOver(v, k);
      case Bytes(bs) => WordsOrBytesOver(v, k);
      case Phandle(lab) => PhandleValue(lab, k);
      case Str(t) => StringValue(t, k);
    }
  }

  lemma {:induction false} ValuesOver(vs: seq<Value>, k: string)
    requires forall i :: 0 <= i < |vs| ==> GoodValue(vs[i])
    ensures G.MoreValues(ValuesOnto(vs, ";" + k)) == (ValueTexts(vs), ";" + k)
    ensures Ends(G.IsLabelChar, ValuesOnto(vs, ";" + k))
  {
    if vs == [] {
      SkipSolid(";" + k);
    } else {
      ValuesOver(vs[1..], k);
      var rest := ValuesOnto(vs[1..], ";" + k);
      var v := ValueOnto(vs[0], rest);
      ValueOver(vs[0], rest);
      SepHere(",", " " + v);
      SkipBlank(" ", v);
      SkipSolid(v);
    }
  }

  // ---------------------------------------------------------------- properties

  lemma PropValuesOver(vs: seq<Value>, k: string)
    requires vs != [] && forall i :: 0 <= i < |vs| ==> GoodValue(vs[i])
    ensures G.PropValues(" " + ("=" + (" " + ValueOnto(vs[0], ValuesOnto(vs[1..], ";" + k)))))
         == G.Match(ValueTexts(vs), k)
  {
    var rest := ValuesOnto(vs[1..], ";" + k);
    var v := ValueOnto(vs[0], rest);
    ValuesOver(vs[1..], k);
    ValueOver(vs[0], rest);
    SkipBlank(" ", "=" + (" " + v));
    SepHere("=", " " + v);
    SkipBlank(" ", v);
    SkipSolid(v);
    SepHere(";", k);
  }

  lemma PropertyOver(p: Property, k: string)
    requires GoodProperty(p)
    ensures G.Property(PropertyOnto(p, k)) == G.Match(PropertyText(p), "\n" + k)
    ensures Solid(PropertyOnto(p, k))
  {
    if p.value == [] {
      NodenameOver(p.name, ";" + ("\n" + k));
      SepHere(";", "\n" + k);
      SepMissing("=", ";" + ("\n" + k));
    } else {
      var k' := "\n" + k;
      var rest := " " + ("=" + (" " + ValueOnto(p.value[0], ValuesOnto(p.value[1..], ";" + k'))));
      NodenameOver(p.name, rest);
      PropValuesOver(p.value, k');
    }
  }

  // ---------------------------------------------------------------- labels and names

  // What follows a label matched in a name that stands before a blank and a brace is no colon.
  lemma AfterLabel(name: string, k: string)
    requires GoodName(name) && G.Label(name + (" " + ("{" + k))).Match?
    ensures G.Sep(":", G.Label(name + (" " + ("{" + k))).rest) == None
  {
    var b := "{" + k;
    var s := name + (" " + b);
    var n := |G.Label(s).val|;
    var rest := s[n..];
    assert s[|name|] == ' ';
    assert n <= |name| && G.Label(s).rest == rest by {
      assert forall i :: 1 <= i < n ==> G.IsLabelChar(s[i]) by {
        assert forall i :: 1 <= i < n ==> s[i] == s[1..][i - 1];
      }
    }
    hide G.Label;
    if n == |name| {
      assert rest == " " + b;
      SkipBlank(" ", b);
      SkipSolid(b);
    } else {
      assert rest[0] == name[n];
      SkipSolid(rest);
    }
    SepMissing(":", rest);
  }

  // A name followed by a blank and a brace is not a label with a colon.
  lemma NoLabel(name: string, k: string)
    requires GoodName(name) || name == "/"
    ensures G.Labels(name + (" " + ("{" + k))) == ([], name + (" " + ("{" + k)))
    ensures Solid(name + (" " + ("{" + k)))
  {
    var s := name + (" " + ("{" + k));
    assert |s| >= 2 && s[0] == name[0] && (|name| == 1 ==> s[1] == ' ');
    SkipSolid(s);
    if name != "/" && G.Label(s).Match? {
      AfterLabel(name, k);
    }
    hide G.Sep, G.Skip;
  }

  // Leading blanks make no difference to labels but for what is left when there are none.
  lemma LabelsSkip(s: string, t: string)
    requires G.Skip(s) == G.Skip(t)
    ensures G.Labels(s).0 == G.Labels(t).0
    ensures G.Skip(G.Labels(s).1) == G.Skip(G.Labels(t).1)
  {
  }

  lemma LabelStep(lab: string, rest: string)
    requires GoodLabel(lab)
    ensures G.Labels(lab + (":" + (" " + rest))).0 == [lab] + G.Labels(rest).0
    ensures G.Skip(G.Labels(lab + (":" + (" " + rest))).1) == G.Skip(G.Labels(rest).1)
    ensures Solid(lab + (":" + (" " + rest)))
  {
    var s := lab + (":" + (" " + rest));
    LabelOver(lab, ":" + (" " + rest));
    Cut(lab, ":" + (" " + rest));
    SkipSolid(s);
    SepHere(":", " " + rest);
    SkipBlank(" ", rest);
    LabelsSkip(" " + rest, rest);
    hide G.Label, G.Sep, G.Skip, GoodLabel, Solid;
  }

  // The labels in front of a name are found; what follows is the name, after blanks.
  lemma {:induction false} LabelsOver(ls: seq<string>, name: string, k: string)
    requires forall i :: 0 <= i < |ls| ==> GoodLabel(ls[i])
    requires GoodName(name) || name == "/"
    ensures var r := G.Labels(LabelsOnto(ls, name + (" " + ("{" + k))));
      r.0 == ls && G.Skip(r.1) == name + (" " + ("{" + k))
    ensures Solid(LabelsOnto(ls, name + (" " + ("{" + k))))
  {
    hide GoodLabel, GoodName, G.Labels, G.Skip, Solid;
    var t := name + (" " + ("{" + k));
    if ls == [] {
      NoLabel(name, k);
      SkipSolid(t);
    } else {
      LabelsOver(ls[1..], name, k);
      LabelStep(ls[0], LabelsOnto(ls[1..], t));
      assert ls == [ls[0]] + ls[1..];
    }
  }

  lemma EntriesSkip(s: string, t: string)
    requires G.Skip(s) == G.Skip(t)
    ensures G.Entries(s).0 == G.Entries(t).0
    ensures G.Skip(G.Entries(s).1) == G.Skip(G.Entries(t).1)
  {
  }

  lemma NameOver(name: string, k: string)
    requires GoodName(name) || name == "/"
    ensures G.NameOrRoot(name + (" " + k)) == G.Match(if name == "/" then None else Some(name), " " + k)
  {
    if name == "/" {
      Cut("/", " " + k);
    } else {
      NodenameOver(name, " " + k);
      assert name[0] != '/' && (name + (" " + k))[0] == name[0];
    }
  }

  lemma NameAlone(name: string, b: string)
    requires GoodName(name) && Ends(G.IsNameChar, b)
    requires G.Skip(b) != "" && G.Skip(b)[0] != '=' && G.Skip(b)[0] != ';'
    ensures G.Property(name + b) == G.Fail
  {
    NodenameOver(name, b);
    SepMissing("=", b);
    SepMissing(";", b);
    hide G.Nodename, G.Sep, GoodName;
  }

  lemma LabelNotProperty(lab: string, k: string)
    requires GoodLabel(lab)
    ensures G.Property(lab + (":" + k)) == G.Fail
  {
    LabelIsName(lab);
    SkipSolid(":" + k);
    NameAlone(lab, ":" + k);
  }

  lemma NameNotProperty(name: string, k: string)
    requires GoodName(name)
    ensures G.Property(name + (" " + ("{" + k))) == G.Fail
  {
    SkipBlank(" ", "{" + k);
    SkipSolid("{" + k);
    NameAlone(name, " " + ("{" + k));
  }

  // The start of a node is not a property.
  lemma NotProperty(ls: seq<string>, name: string, k: string)
    requires forall i :: 0 <= i < |ls| ==> GoodLabel(ls[i])
    requires GoodName(name)
    ensures G.Property(LabelsOnto(ls, name + (" " + ("{" + k)))) == G.Fail
  {
    hide G.Property;
    if ls == [] {
      NameNotProperty(name, k);
    } else {
      LabelNotProperty(ls[0], " " + LabelsOnto(ls[1..], name + (" " + ("{" + k))));
    }
  }

  lemma LabelIsName(lab: string)
    requires GoodLabel(lab)
    ensures GoodName(lab)
  {
  }

  // ---------------------------------------------------------------- nodes

  // One entry with its line end, in front of others.
  lemma EntryStep(whole: string, t: string, e: G.EntryText, rest: string)
    requires G.Skip(whole) == t && G.Entry(t) == G.Match(e, "\n" + rest)
    ensures G.Entries(whole).0 == [e] + G.Entries(rest).0
    ensures G.Skip(G.Entries(whole).1) == G.Skip(G.Entries(rest).1)
  {
    SkipBlank("\n", rest);
    EntriesSkip("\n" + rest, rest);
    hide G.Entry, G.Skip;
  }

  lemma {:induction false} PropertiesOver(ps: seq<Property>, depth: nat, k: string)
    requires forall i :: 0 <= i < |ps| ==> GoodProperty(ps[i])
    ensures G.Entries(PropertiesOnto(ps, depth, k)).0 == PropertyEntries(ps, G.Entries(k).0)
    ensures G.Skip(G.Entries(PropertiesOnto(ps, depth, k)).1) == G.Skip(G.Entries(k).1)
  {
    if ps != [] {
      var rest := PropertiesOnto(ps[1..], depth, k);
      PropertiesOver(ps[1..], depth, k);
      PropertyOver(ps[0], rest);
      var t := PropertyOnto(ps[0], rest);
      SkipTabs(depth, t);
      SkipSolid(t);
      PropertyEntry(ps[0], rest);
      hide G.Property, PropertyOnto, G.Skip, G.Entry, G.Entries, GoodProperty, Solid;
      EntryStep(PropertiesOnto(ps, depth, k), t, G.PropEntry(PropertyText(ps[0])), rest);
    }
  }

  lemma PropertyEntry(p: Property, rest: string)
    requires GoodProperty(p)
    ensures G.Entry(PropertyOnto(p, rest)) == G.Match(G.PropEntry(PropertyText(p)), "\n" + rest)
  {
    PropertyOver(p, rest);
    hide G.Property, PropertyOnto, GoodProperty;
  }

  lemma EndOver(depth: nat, k: string)
    ensures G.Entries(EndOnto(depth, k)) == ([], EndOnto(depth, k))
    ensures G.Skip(EndOnto(depth, k)) == "}" + (";" + ("\n" + k))
    ensures G.Sep("}", EndOnto(depth, k)) == Some(";" + ("\n" + k))
    ensures G.Sep(";", ";" + ("\n" + k)) == Some("\n" + k)
  {
    var t := "}" + (";" + ("\n" + k));
    SkipTabs(depth, t);
    SkipSolid(t);
    Cut("}", ";" + ("\n" + k));
    SepHere(";", "\n" + k);
    NoEntry(t);
  }

  lemma NoEntry(t: string)
    requires t != "" && t[0] == '}'
    ensures G.Entry(t) == G.Fail
  {
    SkipSolid(t);
  }

  // A node's text is matched as that node, up to the line end behind it.
  lemma {:induction false} NodeOver(n: Node, depth: nat, k: string)
    requires GoodNode(n) && (GoodName(n.name) || n.name == "/")
    ensures G.Node(NodeOnto(n, depth, k)) == G.Match(NodeText(n, n.name == "/"), "\n" + k)
    ensures Solid(NodeOnto(n, depth, k))
    decreases n, 1
  {
    var body := "\n" + BodyOnto(n, depth, k);
    LabelsOver(n.labels, n.name, body);
    NameOver(n.name, "{" + body);
    SkipBlank(" ", "{" + body);
    SepAfterBlank("{", body);
    BodyOver(n, depth, k);
    EndOver(depth, k);
    hide G.Entries, G.Labels, G.NameOrRoot, LabelsOnto, BodyOnto, G.Skip, GoodLists, GoodName;
  }

  lemma SepAfterBlank(c: string, k: string)
    requires |c| == 1 && Solid(c)
    ensures G.Sep(c, " " + (c + k)) == Some(k)
  {
    SkipBlank(" ", c + k);
    SepHere(c, k);
  }

  lemma {:induction false} BodyOver(n: Node, depth: nat, k: string)
    requires GoodNode(n)
    ensures var r := G.Entries("\n" + BodyOnto(n, depth, k));
      && r.0 == PropertyEntries(n.properties, ChildEntries(n, n.children))
      && G.Sep("}", r.1) == Some(";" + ("\n" + k))
    decreases n, 0, |n.children| + 1
  {
    var end := EndOnto(depth, k);
    var kids := ChildrenOnto(n, n.children, depth + 1, end);
    EndOver(depth, k);
    ChildrenOver(n, n.children, depth + 1, end);
    PropertiesOver(n.properties, depth + 1, kids);
    SkipBlank("\n", BodyOnto(n, depth, k));
    EntriesSkip("\n" + BodyOnto(n, depth, k), BodyOnto(n, depth, k));
    hide G.Entries, ChildrenOnto, EndOnto, G.Skip;
    assert ChildEntries(n, n.children) + [] == ChildEntries(n, n.children);
  }

  lemma {:induction false} ChildrenOver(n: Node, cs: seq<Node>, depth: nat, k: string)
    requires GoodNode(n) && forall c :: c in cs ==> c in n.children && GoodName(c.name) && GoodNode(c)
    ensures G.Entries(ChildrenOnto(n, cs, depth, k)).0 == ChildEntries(n, cs) + G.Entries(k).0
    ensures G.Skip(G.Entries(ChildrenOnto(n, cs, depth, k)).1) == G.Skip(G.Entries(k).1)
    decreases n, 0, |cs|
  {
    hide G.Entry, G.Entries, G.Skip, NodeOnto, NodeText, GoodName, Tabs, Solid;
    if cs != [] {
      assert cs[0] in cs;
      var rest := ChildrenOnto(n, cs[1..], depth, k);
      ChildrenOver(n, cs[1..], depth, k);
      ChildOver(n, cs[0], depth, rest);
      ChildStep(depth, NodeOnto(cs[0], depth, rest), G.NodeEntry(NodeText(cs[0], false)), rest);
    }
  }

  // A line break and tabs, a child, and others behind it.
  lemma ChildStep(depth: nat, t: string, e: G.EntryText, rest: string)
    requires Solid(t) && G.Entry(t) == G.Match(e, "\n" + rest)
    ensures G.Entries("\n" + Tabs(depth, t)).0 == [e] + G.Entries(rest).0
    ensures G.Skip(G.Entries("\n" + Tabs(depth, t)).1) == G.Skip(G.Entries(rest).1)
  {
    SkipBlank("\n", Tabs(depth, t));
    SkipTabs(depth, t);
    SkipSolid(t);
    hide G.Entry, G.Entries, G.Skip, Tabs, Solid;
    EntryStep("\n" + Tabs(depth, t), t, e, rest);
  }

  lemma {:induction false} ChildOver(n: Node, c: Node, depth: nat, rest: string)
    requires c in n.children && GoodName(c.name) && GoodNode(c)
    ensures G.Entry(NodeOnto(c, depth, rest)) == G.Match(G.NodeEntry(NodeText(c, false)), "\n" + rest)
    ensures Solid(NodeOnto(c, depth, rest))
    decreases n, 0, 0
  {
    hide G.Node, G.Property, NodeOnto, NodeText, GoodNode, Solid, G.Nodename, G.Skip;
    assert c.name[0] != '/';
    NodeOver(c, depth, rest);
    NodeNotProperty(c, depth, rest);
  }

  lemma NodeNotProperty(c: Node, depth: nat, rest: string)
    requires GoodName(c.name) && GoodNode(c)
    ensures G.Property(NodeOnto(c, depth, rest)) == G.Fail
  {
    hide G.Property, BodyOnto, LabelsOnto, GoodName;
    NotProperty(c.labels, c.name, "\n" + BodyOnto(c, depth, rest));
  }

  lemma HeaderOver(k: string)
    ensures G.Sep("/dts-v1/", "/dts-v1/" + (";" + k)) == Some(";" + k)
    ensures G.Sep(";", ";" + k) == Some(k)
  {
    SepHere("/dts-v1/", ";" + k);
    SepHere(";", k);
  }

  lemma TwoLines(k: string)
    requires Solid(k)
    ensures G.Skip("\n" + ("\n" + k)) == k
  {
    SkipBlank("\n", "\n" + k);
    SkipBlank("\n", k);
    SkipSolid(k);
  }

  lemma FileOver(root: Node)
    requires GoodTree(root)
    ensures G.File(Print(root)) == Some(NodeText(root, true))
  {
    var t := NodeOnto(root, 0, "");
    NodeOver(root, 0, "");
    HeaderOver("\n" + ("\n" + t));
    TwoLines(t);
    assert G.Skip("\n" + "") == "" by { SkipBlank("\n", ""); }
    hide G.Node, G.Sep, G.Skip, NodeOnto, NodeText, Solid, GoodNode;
  }
}
