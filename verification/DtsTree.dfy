/**
 The tree of zephyr-build/src/devicetree.rs and how parse.rs builds it from the matched text.  A panic of
 the original is None.
 */
module DtsTree {
  import opened Prelude
  import G = DtsGrammar

  datatype Word = Number(n: nat) | Ref(target: string)

  datatype Value = Words(words: seq<Word>) | Bytes(bytes: seq<nat>) | Phandle(target: string) | Str(text: string)

  datatype Property = Property(name: string, value: seq<Value>)

  // `parent` is not a field: module DtsOutput follows a node's ancestors instead.
  datatype Node = Node(
    name: string,
    path: string,
    route: seq<string>,
    ord: nat,
    labels: seq<string>,
    properties: seq<Property>,
    children: seq<Node>)

  // `labels` takes a label to the node that carries it.
  datatype DeviceTree = DeviceTree(root: Node, labels: map<string, Node>)

  type OrdMap = map<string, nat>

  const U32_LIMIT := 0x1_0000_0000

  // ---------------------------------------------------------------- numbers

  function Digit(c: char): nat
    requires G.IsHexDigit(c)
  {
    if G.IsDigit(c) then (c as int) - ('0' as int)
    else if 'a' <= c <= 'f' then (c as int) - ('a' as int) + 10
    else (c as int) - ('A' as int) + 10
  }

  ghost predicate AllHex(s: string) { forall i :: 0 <= i < |s| ==> G.IsHexDigit(s[i]) }

  // The value of digits in a base; the last digit counts least.
  function NumberIn(s: string, base: nat): nat {
    if s == "" then 0
    else
      var k := |s| - 1;
      NumberIn(s[..k], base) * base + if G.IsHexDigit(s[k]) then Digit(s[k]) else 0
  }

  // ---------------------------------------------------------------- decoding

  function DecodeWord(w: G.WordText): Option<Word> {
    match w
    case HexText(t) =>
      if |t| < 2 then None
      else
        var v := NumberIn(t[2..], 16);
        if v < U32_LIMIT then Some(Number(v)) else None
    case DecText(t) =>
      var v := NumberIn(t, 10);
      if v < U32_LIMIT then Some(Number(v)) else None
    case RefText(t) => if t == "" then None else Some(Ref(t[1..]))
  }

  function DecodeWords(ws: seq<G.WordText>): Option<seq<Word>> {
    if ws == [] then Some([])
    else
      match (DecodeWord(ws[0]), DecodeWords(ws[1..]))
      case (Some(w), Some(rest)) => Some([w] + rest)
      case _ => None
  }

  function DecodeBytes(bs: seq<string>): Option<seq<nat>> {
    if bs == [] then Some([])
    else
      match DecodeBytes(bs[1..])
      case Some(rest) =>
        var v := NumberIn(bs[0], 16);
        if v < 256 then Some([v] + rest) else None
      case None => None
  }

  function DecodeValue(v: G.ValueText): Option<Value> {
    match v
    case StringText(t) => if |t| < 2 then None else Some(Str(t[1..|t| - 1]))
    case PhandleText(t) => if t == "" then None else Some(Phandle(t[1..]))
    case WordsText(ws) => (match DecodeWords(ws) case Some(x) => Some(Words(x)) case None => None)
    case BytesText(bs) => (match DecodeBytes(bs) case Some(x) => Some(Bytes(x)) case None => None)
  }

  function DecodeValues(vs: seq<G.ValueText>): Option<seq<Value>> {
    if vs == [] then Some([])
    else
      match (DecodeValue(vs[0]), DecodeValues(vs[1..]))
      case (Some(v), Some(rest)) => Some([v] + rest)
      case _ => None
  }

  function DecodeProperty(p: G.PropText): Option<Property> {
    match DecodeValues(p.values)
    case Some(vs) => Some(Property(p.name, vs))
    case None => None
  }

  // ---------------------------------------------------------------- where a node is

  // What LazyName comes to know.
  datatype Info = Info(name: string, path: string, route: seq<string>, ord: nat)

  // The path of a child.
  function Extend(path: string, name: string): string {
    (if |path| > 1 then path + "/" else path) + name
  }

  // The parent's path is empty for the root only.
  function Place(name: Option<string>, path: string, route: seq<string>, ords: OrdMap): Option<Info> {
    if path == "" then
      if name.None? && "/" in ords then Some(Info("/", "/", route, ords["/"])) else None
    else if name.Some? && Extend(path, name.value) in ords then
      Some(Info(name.value, Extend(path, name.value), route + [name.value], ords[Extend(path, name.value)]))
    else None
  }

  // ---------------------------------------------------------------- building

  function Props(es: seq<G.EntryText>): Option<seq<Property>> {
    if es == [] then Some([])
    else if es[0].NodeEntry? then Props(es[1..])
    else
      match (DecodeProperty(es[0].prop), Props(es[1..]))
      case (Some(p), Some(rest)) => Some([p] + rest)
      case _ => None
  }

  function Build(t: G.NodeText, path: string, route: seq<string>, ords: OrdMap): Option<Node>
    decreases t, 1
  {
    match Place(t.name, path, route, ords)
    case None => None
    case Some(info) =>
      match (Props(t.entries), BuildChildren(t, t.entries, info.path, info.route, ords))
      case (Some(ps), Some(cs)) => Some(Node(info.name, info.path, info.route, info.ord, t.labels, ps, cs))
      case _ => None
  }

  // The child nodes among the entries `es` of `t`.
  function BuildChildren(t: G.NodeText, es: seq<G.EntryText>, path: string, route: seq<string>, ords: OrdMap)
    : Option<seq<Node>>
    requires forall e :: e in es ==> e in t.entries
    decreases t, 0, |es|
  {
    if es == [] then Some([])
    else if es[0].PropEntry? then BuildChildren(t, es[1..], path, route, ords)
    else
      assert es[0] in t.entries;
      match (Build(es[0].node, path, route, ords), BuildChildren(t, es[1..], path, route, ords))
      case (Some(c), Some(rest)) => Some([c] + rest)
      case _ => None
  }

  function InsertLabels(m: map<string, Node>, labels: seq<string>, n: Node): map<string, Node>
    decreases |labels|
  {
    if labels == [] then m
    else InsertLabels(m[labels[0] := n], labels[1..], n)
  }

  // A node's labels go in after those of its descendants.
  function InsertAll(m: map<string, Node>, n: Node): map<string, Node>
    decreases n, 1
  {
    InsertLabels(InsertChildren(m, n, n.children), n.labels, n)
  }

  function InsertChildren(m: map<string, Node>, n: Node, cs: seq<Node>): map<string, Node>
    requires forall c :: c in cs ==> c in n.children
    decreases n, 0, |cs|
  {
    if cs == [] then m
    else
      assert cs[|cs| - 1] in n.children;
      InsertAll(InsertChildren(m, n, cs[..|cs| - 1]), cs[|cs| - 1])
  }

  // `parse`: the text to the tree.
  function Parse(text: string, ords: OrdMap): Option<DeviceTree> {
    match G.File(text)
    case None => None
    case Some(t) =>
      match Build(t, "", [], ords)
      case None => None
      case Some(root) => Some(DeviceTree(root, InsertAll(map[], root)))
  }

  // ---------------------------------------------------------------- the builder

  // The lists a node's entries are gathered into.
  function GatheredProps(acc: seq<Property>, rest: Option<seq<Property>>): Option<seq<Property>> {
    if rest.Some? then Some(acc + rest.value) else None
  }

  class TreeBuilder {
    const ords: OrdMap
    var labels: map<string, Node>

    constructor (ords: OrdMap)
      ensures this.ords == ords && labels == map[]
    {
      this.ords, labels := ords, map[];
    }

    // `walk_node`: one pass over the entries, gathering properties and children and filling `labels`.
    method WalkNode(t: G.NodeText, path: string, route: seq<string>) returns (r: Option<Node>)
      modifies this
      ensures r == Build(t, path, route, ords)
      ensures r.Some? ==> labels == InsertAll(old(labels), r.value)
      decreases t
    {
      var place := Place(t.name, path, route, ords);
      if place.None? {
        return None;
      }
      var info := place.value;
      var properties: seq<Property>, children: seq<Node> := [], [];
      var i := 0;
      assert t.entries[i..] == t.entries;
      Nothing(Props(t.entries), BuildChildren(t, t.entries, info.path, info.route, ords));
      while i < |t.entries|
        invariant i <= |t.entries|
        invariant Props(t.entries) == GatheredProps(properties, Props(t.entries[i..]))
        invariant BuildChildren(t, t.entries, info.path, info.route, ords) ==
          GatheredChildren(children, BuildChildren(t, t.entries[i..], info.path, info.route, ords))
        invariant labels == InsertList(old(labels), children)
      {
        var e := t.entries[i];
        assert t.entries[i..][0] == e && t.entries[i..][1..] == t.entries[i + 1..];
        match e {
          case PropEntry(p) =>
            var d := DecodeProperty(p);
            if d.None? {
              return None;
            }
            PropsAssoc(properties, d.value, Props(t.entries[i + 1..]));
            properties := properties + [d.value];
          case NodeEntry(n) =>
            assert e in t.entries;
            var c := WalkNode(n, info.path, info.route);
            if c.None? {
              return None;
            }
            ChildrenAssoc(children, c.value, BuildChildren(t, t.entries[i + 1..], info.path, info.route, ords));
            assert (children + [c.value])[..|children|] == children;
            children := children + [c.value];
        }
        i := i + 1;
      }
      assert t.entries[i..] == [] && properties + [] == properties && children + [] == children;
      var node := Node(info.name, info.path, info.route, info.ord, t.labels, properties, children);
      InsertSame(old(labels), node, children);
      InsertLabelList(node);
      r := Some(node);
    }

    method InsertLabelList(node: Node)
      modifies this`labels
      ensures labels == InsertLabels(old(labels), node.labels, node)
    {
      var i := 0;
      while i < |node.labels|
        invariant i <= |node.labels|
        invariant InsertLabels(old(labels), node.labels, node) == InsertLabels(labels, node.labels[i..], node)
      {
        assert node.labels[i..][1..] == node.labels[i + 1..];
        labels := labels[node.labels[i] := node];
        i := i + 1;
      }
    }
  }

  function GatheredChildren(acc: seq<Node>, rest: Option<seq<Node>>): Option<seq<Node>> {
    if rest.Some? then Some(acc + rest.value) else None
  }

  lemma Nothing(ps: Option<seq<Property>>, cs: Option<seq<Node>>)
    ensures GatheredProps([], ps) == ps && GatheredChildren([], cs) == cs
  {
    assert ps.Some? ==> [] + ps.value == ps.value;
    assert cs.Some? ==> [] + cs.value == cs.value;
  }

  lemma PropsAssoc(acc: seq<Property>, p: Property, rest: Option<seq<Property>>)
    ensures rest.Some? ==> acc + ([p] + rest.value) == acc + [p] + rest.value
  {
  }

  lemma ChildrenAssoc(acc: seq<Node>, c: Node, rest: Option<seq<Node>>)
    ensures rest.Some? ==> acc + ([c] + rest.value) == acc + [c] + rest.value
  {
  }

  // The labels of a list of nodes, one node after the other.
  function InsertList(m: map<string, Node>, cs: seq<Node>): map<string, Node> {
    if cs == [] then m else InsertAll(InsertList(m, cs[..|cs| - 1]), cs[|cs| - 1])
  }

  lemma {:induction false} InsertSame(m: map<string, Node>, n: Node, cs: seq<Node>)
    requires forall c :: c in cs ==> c in n.children
    ensures InsertChildren(m, n, cs) == InsertList(m, cs)
  {
    if cs != [] {
      InsertSame(m, n, cs[..|cs| - 1]);
    }
  }
}
