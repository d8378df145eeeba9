/**
 The canonical source form of a devicetree, as dtc writes it (sections 6.2 to 6.4 of the Devicetree
 Specification v0.4 give the format).  Every function writes its piece in front of `k`, the rest of the text.
 */
module DtsPrint {
  import opened Prelude
  import G = DtsGrammar
  import opened DtsTree

  // ---------------------------------------------------------------- numbers

  function HexChar(d: nat): (c: char)
    requires d < 16
    ensures G.IsHexDigit(c) && Digit(c) == d
  {
    if d < 10 then ('0' as int + d) as char else ('a' as int + (d - 10)) as char
  }

  function Hex(n: nat): (s: string)
    ensures s != ""
  {
    if n < 16 then [HexChar(n)] else Hex(n / 16) + [HexChar(n % 16)]
  }

  function HexByte(b: nat): string
    requires b < 256
  {
    [HexChar(b / 16), HexChar(b % 16)]
  }

  // ---------------------------------------------------------------- what can be written

  ghost predicate GoodName(s: string) { s != "" && forall i :: 0 <= i < |s| ==> G.IsNameChar(s[i]) }

  ghost predicate GoodLabel(s: string) {
    s != "" && G.IsAlpha(s[0]) && forall i :: 0 <= i < |s| ==> G.IsLabelChar(s[i])
  }

  ghost predicate GoodText(s: string) { forall i :: 0 <= i < |s| ==> G.IsStringChar(s[i]) }

  ghost predicate GoodWord(w: Word) {
    match w
    case Number(n) => n < U32_LIMIT
    case Ref(lab) => GoodLabel(lab)
  }

  ghost predicate GoodValue(v: Value) {
    match v
    case Words(ws) => ws != [] && forall i :: 0 <= i < |ws| ==> GoodWord(ws[i])
    case Bytes(bs) => bs != [] && forall i :: 0 <= i < |bs| ==> bs[i] < 256
    case Phandle(lab) => GoodLabel(lab)
    case Str(t) => GoodText(t)
  }

  ghost predicate GoodProperty(p: Property) {
    GoodName(p.name) && forall i :: 0 <= i < |p.value| ==> GoodValue(p.value[i])
  }

  ghost predicate GoodLists(n: Node) {
    && (forall i :: 0 <= i < |n.labels| ==> GoodLabel(n.labels[i]))
    && (forall i :: 0 <= i < |n.properties| ==> GoodProperty(n.properties[i]))
  }

  // Every node below the root has a name of its own; the root's is "/".
  ghost predicate GoodNode(n: Node) {
    && GoodLists(n)
    && forall c :: c in n.children ==> GoodName(c.name) && GoodNode(c)
  }

  ghost predicate GoodTree(root: Node) { root.name == "/" && GoodNode(root) }

  // ---------------------------------------------------------------- values

  function WordOnto(w: Word, k: string): string
  {
    match w
    case Number(n) => "0x" + (Hex(n) + k)
    case Ref(lab) => "&" + (lab + k)
  }

  // Words after the first, each after a blank.
  function WordsOnto(ws: seq<Word>, k: string): string {
    if ws == [] then k else " " + WordOnto(ws[0], WordsOnto(ws[1..], k))
  }

  function BytesOnto(bs: seq<nat>, k: string): string
    requires forall i :: 0 <= i < |bs| ==> bs[i] < 256
  {
    if bs == [] then k else " " + (HexByte(bs[0]) + BytesOnto(bs[1..], k))
  }

  function ValueOnto(v: Value, k: string): string
    requires GoodValue(v)
  {
    match v
    case Words(ws) => "<" + WordOnto(ws[0], WordsOnto(ws[1..], ">" + k))
    case Bytes(bs) => "[" + (HexByte(bs[0]) + BytesOnto(bs[1..], "]" + k))
    case Phandle(lab) => "&" + (lab + k)
    case Str(t) => "\"" + (t + ("\"" + k))
  }

  function ValuesOnto(vs: seq<Value>, k: string): string
    requires forall i :: 0 <= i < |vs| ==> GoodValue(vs[i])
  {
    if vs == [] then k else "," + (" " + ValueOnto(vs[0], ValuesOnto(vs[1..], k)))
  }

  // ---------------------------------------------------------------- nodes

  function Tabs(depth: nat, k: string): string {
    if depth == 0 then k else "\t" + Tabs(depth - 1, k)
  }

  function PropertyOnto(p: Property, k: string): string
    requires GoodProperty(p)
  {
    p.name +
    if p.value == [] then ";" + ("\n" + k)
    else " " + ("=" + (" " + ValueOnto(p.value[0], ValuesOnto(p.value[1..], ";" + ("\n" + k)))))
  }

  function PropertiesOnto(ps: seq<Property>, depth: nat, k: string): string
    requires forall i :: 0 <= i < |ps| ==> GoodProperty(ps[i])
  {
    if ps == [] then k else Tabs(depth, PropertyOnto(ps[0], PropertiesOnto(ps[1..], depth, k)))
  }

  function LabelsOnto(ls: seq<string>, k: string): string {
    if ls == [] then k else ls[0] + (":" + (" " + LabelsOnto(ls[1..], k)))
  }

  function NodeOnto(n: Node, depth: nat, k: string): string
    requires GoodNode(n)
    decreases n, 1
  {
    LabelsOnto(n.labels, n.name + (" " + ("{" + ("\n" + BodyOnto(n, depth, k)))))
  }

  // What stands between the braces, and the end.
  function BodyOnto(n: Node, depth: nat, k: string): string
    requires GoodNode(n)
    decreases n, 0, |n.children| + 1
  {
    PropertiesOnto(n.properties, depth + 1, ChildrenOnto(n, n.children, depth + 1, EndOnto(depth, k)))
  }

  function EndOnto(depth: nat, k: string): string {
    Tabs(depth, "}" + (";" + ("\n" + k)))
  }

  // A blank line before each child.
  function ChildrenOnto(n: Node, cs: seq<Node>, depth: nat, k: string): string
    requires forall c :: c in cs ==> c in n.children && GoodNode(c)
    decreases n, 0, |cs|
  {
    if cs == [] then k
    else
      assert cs[0] in cs;
      "\n" + Tabs(depth, NodeOnto(cs[0], depth, ChildrenOnto(n, cs[1..], depth, k)))
  }

  function Print(root: Node): string
    requires GoodTree(root)
  {
    "/dts-v1/" + (";" + ("\n" + ("\n" + NodeOnto(root, 0, ""))))
  }

  // ---------------------------------------------------------------- what the grammar should find

  function WordText(w: Word): G.WordText {
    match w
    case Number(n) => G.HexText("0x" + Hex(n))
    case Ref(lab) => G.RefText("&" + lab)
  }

  function WordTexts(ws: seq<Word>): seq<G.WordText> {
    if ws == [] then [] else [WordText(ws[0])] + WordTexts(ws[1..])
  }

  function ByteTexts(bs: seq<nat>): seq<string>
    requires forall i :: 0 <= i < |bs| ==> bs[i] < 256
  {
    if bs == [] then [] else [HexByte(bs[0])] + ByteTexts(bs[1..])
  }

  function ValueText(v: Value): G.ValueText
    requires GoodValue(v)
  {
    match v
    case Words(ws) => G.WordsText(WordTexts(ws))
    case Bytes(bs) => G.BytesText(ByteTexts(bs))
    case Phandle(lab) => G.PhandleText("&" + lab)
    case Str(t) => G.StringText("\"" + t + "\"")
  }

  function ValueTexts(vs: seq<Value>): seq<G.ValueText>
    requires forall i :: 0 <= i < |vs| ==> GoodValue(vs[i])
  {
    if vs == [] then [] else [ValueText(vs[0])] + ValueTexts(vs[1..])
  }

  function PropertyText(p: Property): G.PropText
    requires GoodProperty(p)
  {
    G.PropText(p.name, ValueTexts(p.value))
  }

  // Properties first, then children.
  function PropertyEntries(ps: seq<Property>, rest: seq<G.EntryText>): seq<G.EntryText>
    requires forall i :: 0 <= i < |ps| ==> GoodProperty(ps[i])
  {
    if ps == [] then rest else [G.PropEntry(PropertyText(ps[0]))] + PropertyEntries(ps[1..], rest)
  }

  function NodeText(n: Node, isRoot: bool): G.NodeText
    requires GoodNode(n)
    decreases n, 1
  {
    G.NodeText(n.labels, if isRoot then None else Some(n.name),
               PropertyEntries(n.properties, ChildEntries(n, n.children)))
  }

  function ChildEntries(n: Node, cs: seq<Node>): seq<G.EntryText>
    requires forall c :: c in cs ==> c in n.children && GoodNode(c)
    decreases n, 0, |cs|
  {
    if cs == [] then []
    else
      assert cs[0] in cs && cs[0] in n.children;
      [G.NodeEntry(NodeText(cs[0], false))] + ChildEntries(n, cs[1..])
  }
}
