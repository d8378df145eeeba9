/**
 What the tree builder of parse.rs guarantees: paths, routes and ord indices agree, labels name nodes that
 carry them, and parsing canonical text gives the tree that was written.
 */
module DtsBuild {
  import opened Prelude
  import G = DtsGrammar
  import opened DtsTree
  import opened DtsPrint
  import R = DtsRoundTrip

  // ---------------------------------------------------------------- paths

  // Each part of a route behind a slash.
  function Slashed(route: seq<string>): string {
    if route == [] then "" else "/" + (route[0] + Slashed(route[1..]))
  }

  // "/" for the root, else the route's parts joined by slashes, behind a slash.
  function PathOf(route: seq<string>): string {
    if route == [] then "/" else Slashed(route)
  }

  predicate NotSlash(c: char) { c != '/' }

  function Pieces(s: string): seq<string>
    decreases |s|
  {
    if s == "" || s[0] != '/' then []
    else
      var n := G.Span(NotSlash, s[1..]);
      [s[1..1 + n]] + Pieces(s[1 + n..])
  }

  function RouteOf(path: string): seq<string> {
    if path == "/" then [] else Pieces(path)
  }

  ghost predicate GoodRoute(route: seq<string>) {
    forall i :: 0 <= i < |route| ==> GoodName(route[i])
  }

  lemma {:induction false} SlashedAppend(route: seq<string>, name: string)
    ensures Slashed(route + [name]) == Slashed(route) + ("/" + name)
  {
    if route == [] {
      assert Slashed([name]) == "/" + (name + Slashed([])) == "/" + name;
    } else {
      assert (route + [name])[1..] == route[1..] + [name];
      SlashedAppend(route[1..], name);
      var tail := Slashed(route[1..]);
      assert "/" + (route[0] + (tail + ("/" + name))) == "/" + (route[0] + tail) + ("/" + name);
    }
  }

  // LazyName's way of extending a path.
  lemma ExtendPath(route: seq<string>, name: string)
    requires GoodRoute(route)
    ensures Extend(PathOf(route), name) == PathOf(route + [name])
  {
    SlashedAppend(route, name);
    if route != [] {
      assert |route[0]| > 0;
      assert PathOf(route) + "/" + name == PathOf(route) + ("/" + name);
    }
  }

  lemma SlashedStart(route: seq<string>)
    ensures Slashed(route) == "" || Slashed(route)[0] == '/'
    ensures route != [] ==> Slashed(route) == "/" + (route[0] + Slashed(route[1..]))
  {
  }

  lemma FirstPiece(name: string, tail: string)
    requires GoodName(name) && (tail == "" || tail[0] == '/')
    ensures Pieces("/" + (name + tail)) == [name] + Pieces(tail)
  {
    var s := "/" + (name + tail);
    assert s[1..] == name + tail;
    assert forall i :: 0 <= i < |name| ==> NotSlash(name[i]);
    R.SpanOver(NotSlash, name, tail);
    assert s[1..1 + |name|] == name && s[1 + |name|..] == tail;
    hide GoodName, G.Span;
  }

  // The route can be read off the path.
  lemma {:induction false} PiecesBack(route: seq<string>)
    requires GoodRoute(route)
    ensures Pieces(Slashed(route)) == route
  {
    if route != [] {
      PiecesBack(route[1..]);
      SlashedStart(route[1..]);
      hide Pieces, GoodName, Slashed;
      FirstPiece(route[0], Slashed(route[1..]));
      assert route == [route[0]] + route[1..];
    }
  }

  lemma RouteBack(route: seq<string>)
    requires GoodRoute(route)
    ensures RouteOf(PathOf(route)) == route
  {
    PiecesBack(route);
    if route != [] {
      assert |route[0]| > 0;
    }
  }

  // ---------------------------------------------------------------- where the nodes are

  // `n` is `root` or below it.
  ghost predicate IsIn(n: Node, root: Node) {
    n == root || exists c :: c in root.children && IsIn(n, c)
  }

  // Every node's path is that of its route, its ord is that of its path, and its route continues its parent's.
  ghost predicate Placed(n: Node, ords: OrdMap) {
    && GoodRoute(n.route)
    && n.path == PathOf(n.route) && n.path in ords && n.ord == ords[n.path]
    && forall c :: c in n.children ==> c.route == n.route + [c.name] && Placed(c, ords)
  }

  ghost predicate PlacedRoot(root: Node, ords: OrdMap) {
    root.name == "/" && root.route == [] && Placed(root, ords)
  }

  lemma {:induction false} PlacedIn(n: Node, root: Node, ords: OrdMap)
    requires Placed(root, ords) && IsIn(n, root)
    ensures n.path == PathOf(n.route) && RouteOf(n.path) == n.route
    ensures n.path in ords && n.ord == ords[n.path]
    ensures root.route <= n.route
    decreases root
  {
    if n == root {
      RouteBack(n.route);
    } else {
      var c :| c in root.children && IsIn(n, c);
      PlacedIn(n, c, ords);
    }
  }

  // ---------------------------------------------------------------- names the grammar gives

  ghost predicate NamesGood(t: G.NodeText) {
    && (t.name.Some? ==> GoodName(t.name.value))
    && forall e :: e in t.entries && e.NodeEntry? ==> NamesGood(e.node)
  }

  lemma {:induction false} GrammarNames(s: string)
    ensures G.Node(s).Match? ==> NamesGood(G.Node(s).val)
    decreases |s|, 0
  {
    if G.Node(s).Match? {
      var s1 := G.Labels(s).1;
      var s2 := G.NameOrRoot(G.Skip(s1)).rest;
      EntryNames(G.Sep("{", s2).value);
    }
  }

  lemma {:induction false} EntryNames(s: string)
    ensures forall e :: e in G.Entries(s).0 && e.NodeEntry? ==> NamesGood(e.node)
    decreases |s|, 1
  {
    var t := G.Skip(s);
    match G.Entry(t)
    case Fail =>
    case Match(e, rest) =>
      if e.NodeEntry? { GrammarNames(t); }
      EntryNames(rest);
  }

  // ---------------------------------------------------------------- building places the nodes

  lemma {:induction false} BuildPlaces(t: G.NodeText, path: string, route: seq<string>, ords: OrdMap)
    requires NamesGood(t) && GoodRoute(route)
    requires (path == "" && route == []) || path == PathOf(route)
    ensures var r := Build(t, path, route, ords);
      r.Some? ==>
        && Placed(r.value, ords)
        && (if path == "" then r.value.route == [] && r.value.name == "/"
            else r.value.route == route + [r.value.name])
    decreases t, 1
  {
    if Build(t, path, route, ords).Some? {
      var info := Place(t.name, path, route, ords).value;
      if path != "" { ExtendPath(route, t.name.value); }
      ChildrenPlaced(t, t.entries, info.route, ords);
    }
  }

  lemma {:induction false} ChildrenPlaced(t: G.NodeText, es: seq<G.EntryText>, route: seq<string>, ords: OrdMap)
    requires NamesGood(t) && GoodRoute(route) && forall e :: e in es ==> e in t.entries
    ensures var r := BuildChildren(t, es, PathOf(route), route, ords);
      r.Some? ==> forall c :: c in r.value ==> c.route == route + [c.name] && Placed(c, ords)
    decreases t, 0, |es|
  {
    if es != [] {
      assert es[0] in t.entries;
      ChildrenPlaced(t, es[1..], route, ords);
      if es[0].NodeEntry? {
        BuildPlaces(es[0].node, PathOf(route), route, ords);
        PathNotEmpty(route);
      }
    }
  }

  lemma PathNotEmpty(route: seq<string>)
    ensures PathOf(route) != ""
  {
  }

  // Whatever text was parsed, path, route and ord of every node agree, and the route can be read off the path.
  lemma ParsePlaces(text: string, ords: OrdMap, n: Node)
    requires Parse(text, ords).Some? && IsIn(n, Parse(text, ords).value.root)
    ensures PlacedRoot(Parse(text, ords).value.root, ords)
    ensures n.path == PathOf(n.route) && RouteOf(n.path) == n.route
    ensures n.path in ords && n.ord == ords[n.path]
  {
    var s1 := G.Sep("/dts-v1/", text).value;
    var s2 := G.Sep(";", s1).value;
    var t := G.File(text).value;
    GrammarNames(G.Skip(s2));
    BuildPlaces(t, "", [], ords);
    PlacedIn(n, Parse(text, ords).value.root, ords);
  }

  // ---------------------------------------------------------------- labels

  lemma {:induction false} InsertLabelsAre(m: map<string, Node>, ls: seq<string>, n: Node, lab: string)
    ensures lab in InsertLabels(m, ls, n) <==> lab in m || lab in ls
    ensures lab in ls ==> InsertLabels(m, ls, n)[lab] == n
    ensures lab in m && lab !in ls ==> InsertLabels(m, ls, n)[lab] == m[lab]
    decreases |ls|
  {
    if ls != [] {
      InsertLabelsAre(m[ls[0] := n], ls[1..], n, lab);
    }
  }

  // The nodes below `n`, `n` last.
  ghost predicate Carries(n: Node, lab: string) {
    lab in n.labels || exists c :: c in n.children && Carries(c, lab)
  }

  lemma {:induction false} InsertAllAre(m: map<string, Node>, n: Node, lab: string)
    ensures lab in InsertAll(m, n) <==> lab in m || Carries(n, lab)
    ensures Carries(n, lab) ==> IsIn(InsertAll(m, n)[lab], n) && lab in InsertAll(m, n)[lab].labels
    ensures lab in m && !Carries(n, lab) ==> InsertAll(m, n)[lab] == m[lab]
    decreases n, 1
  {
    InsertChildrenAre(m, n, n.children, lab);
    InsertLabelsAre(InsertChildren(m, n, n.children), n.labels, n, lab);
  }

  lemma {:induction false} InsertChildrenAre(m: map<string, Node>, n: Node, cs: seq<Node>, lab: string)
    requires forall c :: c in cs ==> c in n.children
    ensures var r := InsertChildren(m, n, cs);
      var some := exists c :: c in cs && Carries(c, lab);
      && (lab in r <==> lab in m || some)
      && (some ==> lab in r[lab].labels && exists c :: c in cs && IsIn(r[lab], c))
      && (lab in m && !some ==> r[lab] == m[lab])
    decreases n, 0, |cs|
  {
    if cs != [] {
      var k := |cs| - 1;
      assert cs[k] in n.children;
      assert cs == cs[..k] + [cs[k]];
      assert forall c :: c in cs <==> c in cs[..k] || c == cs[k];
      InsertChildrenAre(m, n, cs[..k], lab);
      InsertAllAre(InsertChildren(m, n, cs[..k]), cs[k], lab);
      assert InsertChildren(m, n, cs) == InsertAll(InsertChildren(m, n, cs[..k]), cs[k]);
      hide InsertAll, InsertChildren, Carries, IsIn;
      if Carries(cs[k], lab) {
        assert cs[k] in cs && IsIn(InsertChildren(m, n, cs)[lab], cs[k]);
      } else if c :| c in cs && Carries(c, lab) {
        assert c in cs[..k];
        var d :| d in cs[..k] && IsIn(InsertChildren(m, n, cs[..k])[lab], d);
        assert d in cs && IsIn(InsertChildren(m, n, cs)[lab], d);
      }
    }
  }

  // A label of the tree names a node of the tree that carries it.
  lemma LabelsResolve(text: string, ords: OrdMap, lab: string)
    requires Parse(text, ords).Some?
    ensures var dt := Parse(text, ords).value;
      && (lab in dt.labels <==> Carries(dt.root, lab))
      && (lab in dt.labels ==> IsIn(dt.labels[lab], dt.root) && lab in dt.labels[lab].labels)
  {
    InsertAllAre(map[], Parse(text, ords).value.root, lab);
  }

  // ---------------------------------------------------------------- decoding what was written

  lemma WordBack(w: Word)
    requires GoodWord(w)
    ensures DecodeWord(WordText(w)) == Some(w)
  {
    match w {
      case Number(n) =>
        R.HexIsHex(n);
        R.Cut("0x", Hex(n));
      case Ref(lab) => R.Cut("&", lab);
    }
  }

  lemma {:induction false} WordsBack(ws: seq<Word>)
    requires forall i :: 0 <= i < |ws| ==> GoodWord(ws[i])
    ensures DecodeWords(WordTexts(ws)) == Some(ws)
  {
    if ws != [] {
      WordBack(ws[0]);
      WordsBack(ws[1..]);
      Cons(WordText(ws[0]), WordTexts(ws[1..]));
      assert ws == [ws[0]] + ws[1..];
    }
  }

  lemma {:induction false} BytesBack(bs: seq<nat>)
    requires forall i :: 0 <= i < |bs| ==> bs[i] < 256
    ensures DecodeBytes(ByteTexts(bs)) == Some(bs)
  {
    if bs != [] {
      R.HexByteIsHex(bs[0]);
      BytesBack(bs[1..]);
      Cons(HexByte(bs[0]), ByteTexts(bs[1..]));
      assert bs == [bs[0]] + bs[1..];
    }
  }

  lemma ValueBack(v: Value)
    requires GoodValue(v)
    ensures DecodeValue(ValueText(v)) == Some(v)
  {
    match v {
      case Words(ws) => WordsBack(ws);
      case Bytes(bs) => BytesBack(bs);
      case Phandle(lab) => R.Cut("&", lab);
      case Str(t) => assert ("\"" + t + "\"")[1..|t| + 1] == t;
    }
  }

  lemma {:induction false} ValuesBack(vs: seq<Value>)
    requires forall i :: 0 <= i < |vs| ==> GoodValue(vs[i])
    ensures DecodeValues(ValueTexts(vs)) == Some(vs)
  {
    if vs != [] {
      ValueBack(vs[0]);
      ValuesBack(vs[1..]);
      Cons(ValueText(vs[0]), ValueTexts(vs[1..]));
      assert vs == [vs[0]] + vs[1..];
    }
  }

  lemma {:induction false} PropsBack(ps: seq<Property>, rest: seq<G.EntryText>)
    requires forall i :: 0 <= i < |ps| ==> GoodProperty(ps[i])
    requires Props(rest) == Some([])
    ensures Props(PropertyEntries(ps, rest)) == Some(ps)
  {
    if ps != [] {
      ValuesBack(ps[0].value);
      PropsBack(ps[1..], rest);
      Cons(G.PropEntry(PropertyText(ps[0])), PropertyEntries(ps[1..], rest));
      assert ps == [ps[0]] + ps[1..];
    }
  }

  lemma {:induction false} ChildEntriesNoProps(n: Node, cs: seq<Node>)
    requires forall c :: c in cs ==> c in n.children && GoodNode(c)
    ensures Props(ChildEntries(n, cs)) == Some([])
    decreases |cs|
  {
    if cs != [] {
      assert cs[0] in cs;
      ChildEntriesNoProps(n, cs[1..]);
    }
  }

  // Property entries are passed over when children are gathered.
  lemma {:induction false} ChildrenSkipProps(t: G.NodeText, ps: seq<Property>, rest: seq<G.EntryText>,
                                             path: string, route: seq<string>, ords: OrdMap)
    requires forall i :: 0 <= i < |ps| ==> GoodProperty(ps[i])
    requires forall e :: e in PropertyEntries(ps, rest) ==> e in t.entries
    ensures forall e :: e in rest ==> e in t.entries
    ensures BuildChildren(t, PropertyEntries(ps, rest), path, route, ords) == BuildChildren(t, rest, path, route, ords)
    decreases |ps|
  {
    if ps != [] {
      ChildrenSkipProps(t, ps[1..], rest, path, route, ords);
    }
  }

  lemma {:induction false} BuildBack(n: Node, path: string, route: seq<string>, ords: OrdMap)
    requires GoodNode(n) && Placed(n, ords)
    requires if path == "" then route == [] && n.name == "/" && n.route == []
             else path == PathOf(route) && GoodName(n.name) && GoodRoute(route) && n.route == route + [n.name]
    ensures Build(NodeText(n, path == ""), path, route, ords) == Some(n)
    decreases n, 1
  {
    var t := NodeText(n, path == "");
    var kids := ChildEntries(n, n.children);
    if path != "" { ExtendPath(route, n.name); }
    ChildEntriesNoProps(n, n.children);
    PropsBack(n.properties, kids);
    ChildrenSkipProps(t, n.properties, kids, n.path, n.route, ords);
    ChildrenBack(t, n, n.children, ords);
  }

  lemma {:induction false} ChildrenBack(t: G.NodeText, n: Node, cs: seq<Node>, ords: OrdMap)
    requires GoodNode(n) && Placed(n, ords)
    requires forall c :: c in cs ==> c in n.children && GoodNode(c)
    requires forall e :: e in ChildEntries(n, cs) ==> e in t.entries
    ensures BuildChildren(t, ChildEntries(n, cs), n.path, n.route, ords) == Some(cs)
    decreases n, 0, |cs|
  {
    if cs != [] {
      assert cs[0] in cs && cs[0] in n.children;
      PathNotEmpty(n.route);
      BuildBack(cs[0], n.path, n.route, ords);
      Cons(G.NodeEntry(NodeText(cs[0], false)), ChildEntries(n, cs[1..]));
      ChildrenBack(t, n, cs[1..], ords);
      assert cs == [cs[0]] + cs[1..];
    }
  }

  // Main result: parsing the canonical text of a well-formed devicetree gives that devicetree, with every
  // name, label, property, child, path, route and ord.
  lemma RoundTrip(root: Node, ords: OrdMap)
    requires GoodTree(root) && PlacedRoot(root, ords)
    ensures Parse(Print(root), ords) == Some(DeviceTree(root, InsertAll(map[], root)))
  {
    R.FileOver(root);
    BuildBack(root, "", [], ords);
  }

  // Two devicetrees with the same text are the same.
  lemma TextDetermines(a: Node, b: Node, ords: OrdMap)
    requires GoodTree(a) && GoodTree(b) && PlacedRoot(a, ords) && PlacedRoot(b, ords)
    requires Print(a) == Print(b)
    ensures a == b
  {
    RoundTrip(a, ords);
    RoundTrip(b, ords);
  }
}
