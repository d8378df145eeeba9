/**
 The Rust code generated for a devicetree (output.rs and augment.rs), down to its modules and the routes it
 names, and the list of cfg names written beside it.  A panic of the walks is None.  Two panics of the original
 are not shown: it resolves every phandle before the walks and panics on a label nobody carries, where these
 functions give None only when the walks use the phandle; and `format_ident!` panics on names with characters
 that no identifier has (`FixIdChars` says which), where these functions give the name.
 */
module DtsOutput {
  import opened Prelude
  import G = DtsGrammar
  import opened DtsTree

  // ---------------------------------------------------------------- generated code

  // `cfg` is the option an item is compiled with, if it is not compiled always.
  datatype Item =
    | Mod(name: string, items: seq<Item>)
    | Use(route: seq<string>)            // pub use crate::devicetree::route::*
    // new(crate::devicetree::route::get_instance_raw(), args) and new(super::...::super::get_instance_raw(), args)
    | CallAt(route: seq<string>, args: seq<nat>, cfg: Option<string>)
    | CallUp(supers: nat, args: seq<nat>, cfg: Option<string>)
    | InstanceRaw(ord: nat, cfg: Option<string>)      // fn get_instance_raw, for the device of that ord
    | Ord(ord: nat)
    | NumberConst(name: string, n: nat)
    | TextConst(name: string, value: seq<Value>)      // the values as text
    | Raw(name: string, value: seq<Value>)            // the values one by one

  // ---------------------------------------------------------------- names

  function FixChar(c: char): char {
    if c == '#' then 'N' else if c == '-' || c == '@' || c == ',' then '_' else c
  }

  function FixId(s: string): (r: string)
    ensures |r| == |s|
  {
    if s == "" then "" else [FixChar(s[0])] + FixId(s[1..])
  }

  // `fix_id` as the loop it is.
  method FixIdLoop(text: string) returns (result: string)
    ensures result == FixId(text)
  {
    result := "";
    var i := 0;
    while i < |text|
      invariant i <= |text| && FixId(text) == result + FixId(text[i..])
    {
      assert text[i..][1..] == text[i + 1..];
      result := result + [FixChar(text[i])];
      i := i + 1;
    }
  }

  lemma {:induction false} FixIdAt(s: string, i: nat)
    requires i < |s|
    ensures FixId(s)[i] == FixChar(s[i])
  {
    if i > 0 { FixIdAt(s[1..], i - 1); }
  }

  // The words of Rust that cannot name a module (strict and reserved keywords of the 2021 edition).
  const KEYWORDS_A_F: set<string> :=
    {"as", "async", "await", "break", "const", "continue", "crate", "dyn", "else", "enum", "extern", "false", "fn",
     "for"}
  const KEYWORDS_I_R: set<string> :=
    {"if", "impl", "in", "let", "loop", "match", "mod", "move", "mut", "pub", "ref", "return"}
  const KEYWORDS_S_W: set<string> :=
    {"self", "Self", "static", "struct", "super", "trait", "true", "type", "unsafe", "use", "where", "while"}
  const KEYWORDS_RESERVED: set<string> :=
    {"abstract", "become", "box", "do", "final", "macro", "override", "priv", "try", "typeof", "unsized", "virtual",
     "yield"}

  predicate Keyword(s: string) {
    s in KEYWORDS_A_F || s in KEYWORDS_I_R || s in KEYWORDS_S_W || s in KEYWORDS_RESERVED
  }

  // The characters of an identifier.
  ghost predicate IdentChars(s: string) {
    s != "" && !G.IsDigit(s[0]) && forall i :: 0 <= i < |s| ==> G.IsLabelChar(s[i])
  }

  // A name a Rust module can have.
  ghost predicate IdentShape(s: string) { IdentChars(s) && s != "_" && !Keyword(s) }

  lemma FixCharShape(c: char)
    requires G.IsNameChar(c)
    ensures G.IsLabelChar(FixChar(c)) <==> c != '.' && c != '?'
    ensures G.IsDigit(FixChar(c)) <==> G.IsDigit(c)
  {
  }

  // Keywords consist of letters other than the one that replaces a hash sign.
  ghost predicate Plain(k: string) { forall i :: 0 <= i < |k| ==> G.IsAlpha(k[i]) && k[i] != 'N' }

  lemma PlainAF(k: string)
    requires k in KEYWORDS_A_F
    ensures Plain(k)
  {
  }

  lemma PlainIR(k: string)
    requires k in KEYWORDS_I_R
    ensures Plain(k)
  {
  }

  lemma PlainSW(k: string)
    requires k in KEYWORDS_S_W
    ensures Plain(k)
  {
  }

  lemma PlainReserved(k: string)
    requires k in KEYWORDS_RESERVED
    ensures Plain(k)
  {
  }

  lemma KeywordIsPlain(k: string)
    requires Keyword(k)
    ensures Plain(k)
  {
    hide Plain;
    if k in KEYWORDS_A_F { PlainAF(k); }
    else if k in KEYWORDS_I_R { PlainIR(k); }
    else if k in KEYWORDS_S_W { PlainSW(k); }
    else { PlainReserved(k); }
  }

  // Nothing turns into such a word, and such a word stays as it is.
  lemma PlainFixed(s: string)
    requires Plain(s) || Plain(FixId(s))
    ensures FixId(s) == s
  {
    forall i | 0 <= i < |s| ensures FixId(s)[i] == s[i] {
      FixIdAt(s, i);
    }
  }

  // The result is a keyword only for a keyword.
  lemma FixIdKeyword(s: string)
    ensures Keyword(FixId(s)) <==> Keyword(s)
  {
    hide Plain, FixId, Keyword;
    if Keyword(FixId(s)) { KeywordIsPlain(FixId(s)); PlainFixed(s); }
    if Keyword(s) { KeywordIsPlain(s); PlainFixed(s); }
  }

  lemma FixIdChars(s: string)
    requires s != "" && forall i :: 0 <= i < |s| ==> G.IsNameChar(s[i])
    ensures IdentChars(FixId(s)) <==>
      !G.IsDigit(s[0]) && forall i :: 0 <= i < |s| ==> s[i] != '.' && s[i] != '?'
  {
    forall i | 0 <= i < |s|
      ensures G.IsLabelChar(FixId(s)[i]) <==> s[i] != '.' && s[i] != '?'
      ensures G.IsDigit(FixId(s)[i]) <==> G.IsDigit(s[i])
    {
      FixIdAt(s, i);
      FixCharShape(s[i]);
    }
    hide FixId, G.IsLabelChar, G.IsNameChar, G.IsDigit;
  }

  // The result can name a Rust module exactly when the name has no full stop and no question mark, does not start
  // with a digit, is no keyword and no single underscore, hyphen, at sign or comma.
  lemma FixIdShape(s: string)
    requires s != "" && forall i :: 0 <= i < |s| ==> G.IsNameChar(s[i])
    ensures IdentShape(FixId(s)) <==>
      && !G.IsDigit(s[0]) && (forall i :: 0 <= i < |s| ==> s[i] != '.' && s[i] != '?')
      && !Keyword(s) && s !in {"_", "-", "@", ","}
  {
    hide FixId, IdentChars, Keyword, G.IsDigit;
    FixIdChars(s);
    FixIdKeyword(s);
    Underscore(s);
  }

  lemma Underscore(s: string)
    ensures FixId(s) == "_" <==> s in {"_", "-", "@", ","}
  {
    if |s| == 1 {
      assert s == [s[0]] && s[1..] == "" && FixId(s) == [FixChar(s[0])];
    }
  }

  ghost predicate NameChars(s: string) { s != "" && forall i :: 0 <= i < |s| ==> G.IsNameChar(s[i]) }

  // Names the grammar accepts that name no Rust module: a keyword, one with a full stop, one that starts with a
  // digit, and the hyphen.
  lemma BadNames()
    ensures NameChars("type") && !IdentShape(FixId("type"))
    ensures NameChars("a.b") && !IdentShape(FixId("a.b"))
    ensures NameChars("0") && !IdentShape(FixId("0"))
    ensures NameChars("-") && !IdentShape(FixId("-"))
  {
    assert Keyword("type") && "a.b"[1] == '.';
    assert NameChars("type") && NameChars("a.b") && NameChars("0") && NameChars("-");
    hide FixId, IdentShape, Keyword, FixChar;
    FixIdShape("type");
    FixIdShape("a.b");
    FixIdShape("0");
    FixIdShape("-");
  }

  function Upper(s: string): string {
    if s == "" then ""
    else [if 'a' <= s[0] <= 'z' then (s[0] as int - 'a' as int + 'A' as int) as char else s[0]] + Upper(s[1..])
  }

  // `route_to_rust`
  function Fixed(route: seq<string>): (r: seq<string>)
    ensures |r| == |route| && forall i :: 0 <= i < |route| ==> r[i] == FixId(route[i])
  {
    seq(|route|, i requires 0 <= i < |route| => FixId(route[i]))
  }

  // ---------------------------------------------------------------- augmentations

  datatype Rule =
    | Or(rules: seq<Rule>)
    | And(rules: seq<Rule>)
    | HasProp(name: string)
    | Compatible(names: seq<string>, level: nat)
    | Root

  datatype ArgInfo = Reg | ChildIdx

  datatype RawInfo = Myself | Parent(level: nat, args: seq<ArgInfo>) | PhandleOf(prop: string)

  datatype Action = Instance(raw: RawInfo) | Labels | RawProperties

  // `cfg` gates what the Instance actions generate.
  datatype Augmentation = Augmentation(rules: seq<Rule>, actions: seq<Action>, cfg: Option<string>)

  // An action with the option of its augmentation.
  datatype Job = Job(action: Action, cfg: Option<string>)

  // The labels with their nodes, the order in which they are listed, and the augmentations.
  datatype Context = Context(labels: map<string, Node>, keys: seq<string>, augs: seq<Augmentation>)

  predicate HasProperty(n: Node, name: string) { exists p :: p in n.properties && p.name == name }

  // The values of the first property of the name.
  function PropertyOf(ps: seq<Property>, name: string): Option<seq<Value>> {
    if ps == [] then None else if ps[0].name == name then Some(ps[0].value) else PropertyOf(ps[1..], name)
  }

  function WordsOf(n: Node, name: string): Option<seq<Word>> {
    match PropertyOf(n.properties, name)
    case Some(v) => if |v| == 1 && v[0].Words? then Some(v[0].words) else None
    case None => None
  }

  // `get_numbers`
  function AllNumbers(ws: seq<Word>): Option<seq<nat>> {
    if ws == [] then Some([])
    else
      match AllNumbers(ws[1..])
      case Some(rest) => if ws[0].Number? then Some([ws[0].n] + rest) else None
      case None => None
  }

  predicate StatusOkay(n: Node) {
    match PropertyOf(n.properties, "status")
    case Some(v) => !(|v| == 1 && v[0].Str?) || v[0].text == "okay" || v[0].text == "ok"
    case None => true
  }

  predicate NodeCompatible(n: Node, name: string) {
    exists p :: p in n.properties && p.name == "compatible" && Str(name) in p.value
  }

  // `up` lists a node's ancestors, its parent first: what parent_walk stores.
  predicate ParentCompatible(n: Node, up: seq<Node>, names: seq<string>, level: nat)
    decreases level
  {
    if level == 0 then exists s :: s in names && NodeCompatible(n, s)
    else up != [] && ParentCompatible(up[0], up[1..], names, level - 1)
  }

  predicate Matches(r: Rule, n: Node, up: seq<Node>) {
    match r
    case Or(rules) => exists s :: s in rules && Matches(s, n, up)
    case And(rules) => forall s :: s in rules ==> Matches(s, n, up)
    case HasProp(name) => HasProperty(n, name)
    case Compatible(names, level) => ParentCompatible(n, up, names, level)
    case Root => up == []
  }

  // `child_index`: where a node stands among its parent's children.
  function Position(cs: seq<Node>, n: Node): Option<nat> {
    if cs == [] then None
    else if cs[0] == n then Some(0)
    else
      match Position(cs[1..], n)
      case Some(i) => Some(i + 1)
      case None => None
  }

  function ArgOf(arg: ArgInfo, n: Node, up: seq<Node>): Option<seq<nat>> {
    match arg
    case Reg => (match WordsOf(n, "reg") case Some(ws) => AllNumbers(ws) case None => None)
    case ChildIdx =>
      if up == [] then None
      else
        match Position(up[0].children, n)
        case Some(i) => Some([i])
        case None => None
  }

  function ArgsOf(args: seq<ArgInfo>, n: Node, up: seq<Node>): Option<seq<nat>> {
    if args == [] then Some([])
    else
      match (ArgOf(args[0], n, up), ArgsOf(args[1..], n, up))
      case (Some(x), Some(rest)) => Some(x + rest)
      case _ => None
  }

  // The ancestor `level` levels up, if there is one.
  function Ancestor(up: seq<Node>, level: nat): Option<Node> {
    if 1 <= level <= |up| then Some(up[level - 1]) else None
  }

  function GenerateRaw(raw: RawInfo, cfg: Option<string>, n: Node, up: seq<Node>, ctx: Context)
    : Option<seq<Item>>
  {
    match raw
    case Myself => Some(if StatusOkay(n) then [InstanceRaw(n.ord, cfg)] else [])
    case PhandleOf(prop) => (
      match WordsOf(n, prop)
      case None => None
      case Some(ws) =>
        if ws != [] && ws[0].Ref? && ws[0].target in ctx.labels && AllNumbers(ws[1..]).Some?
        then Some([CallAt(Fixed(ctx.labels[ws[0].target].route), AllNumbers(ws[1..]).value, cfg)]) else None)
    case Parent(level, args) =>
      if level == 0 then None
      else if Ancestor(up, level).Some? && !StatusOkay(Ancestor(up, level).value) then Some([])
      else
        match ArgsOf(args, n, up)
        case Some(xs) => Some([CallUp(level, xs, cfg)])
        case None => None
  }

  // One module for each label.
  function LabelMods(keys: seq<string>, labels: map<string, Node>): Option<seq<Item>> {
    if keys == [] then Some([])
    else
      match LabelMods(keys[1..], labels)
      case Some(rest) =>
        if keys[0] in labels then Some([Mod(FixId(keys[0]), [Use(Fixed(labels[keys[0]].route))])] + rest) else None
      case None => None
  }

  function RawProps(ps: seq<Property>): seq<Item> {
    if ps == [] then [] else [Raw("RAW_" + FixId(Upper(ps[0].name)), ps[0].value)] + RawProps(ps[1..])
  }

  function Generate(job: Job, n: Node, up: seq<Node>, ctx: Context): Option<seq<Item>> {
    match job.action
    case Instance(raw) => GenerateRaw(raw, job.cfg, n, up, ctx)
    case RawProperties => Some(RawProps(n.properties))
    case Labels =>
      match LabelMods(ctx.keys, ctx.labels)
      case Some(mods) => Some([Mod("labels", mods)])
      case None => None
  }

  function GenerateAll(jobs: seq<Job>, n: Node, up: seq<Node>, ctx: Context): Option<seq<Item>> {
    if jobs == [] then Some([])
    else
      match (Generate(jobs[0], n, up, ctx), GenerateAll(jobs[1..], n, up, ctx))
      case (Some(x), Some(rest)) => Some(x + rest)
      case _ => None
  }

  function Jobs(aug: Augmentation): (jobs: seq<Job>)
    ensures |jobs| == |aug.actions|
    ensures forall i :: 0 <= i < |jobs| ==> jobs[i] == Job(aug.actions[i], aug.cfg)
  {
    seq(|aug.actions|, i requires 0 <= i < |aug.actions| => Job(aug.actions[i], aug.cfg))
  }

  // The actions of the augmentations whose rules all match the node, in order.
  function JobsFor(augs: seq<Augmentation>, n: Node, up: seq<Node>): seq<Job> {
    if augs == [] then []
    else
      (if forall r :: r in augs[0].rules ==> Matches(r, n, up) then Jobs(augs[0]) else [])
      + JobsFor(augs[1..], n, up)
  }

  // ---------------------------------------------------------------- the walk that generates code

  function PropertyWalk(p: Property, ctx: Context): Option<Item> {
    if |p.value| == 1 && p.value[0].Words? && |p.value[0].words| == 1 && p.value[0].words[0].Number? then
      Some(NumberConst(FixId(Upper(p.name)), p.value[0].words[0].n))
    else if |p.value| == 1 && p.value[0].Phandle? then
      if p.value[0].target in ctx.labels
      then Some(Mod(FixId(p.name), [Use(Fixed(ctx.labels[p.value[0].target].route))]))
      else None
    else Some(TextConst(FixId(Upper(p.name + "_DEBUG")), p.value))
  }

  function PropertiesWalk(ps: seq<Property>, ctx: Context): Option<seq<Item>> {
    if ps == [] then Some([])
    else
      match (PropertyWalk(ps[0], ctx), PropertiesWalk(ps[1..], ctx))
      case (Some(x), Some(rest)) => Some([x] + rest)
      case _ => None
  }

  // What `node_walk` puts inside a node's module.
  function NodeWalk(n: Node, up: seq<Node>, ctx: Context): Option<seq<Item>>
    decreases n, 1
  {
    match (PropertiesWalk(n.properties, ctx), ChildrenWalk(n, n.children, up, ctx),
           GenerateAll(JobsFor(ctx.augs, n, up), n, up, ctx))
    case (Some(ps), Some(cs), Some(as_)) => Some(ps + cs + as_)
    case _ => None
  }

  function ChildrenWalk(n: Node, cs: seq<Node>, up: seq<Node>, ctx: Context): Option<seq<Item>>
    requires forall c :: c in cs ==> c in n.children
    decreases n, 0, |cs|
  {
    if cs == [] then Some([])
    else
      assert cs[0] in n.children;
      match (NodeWalk(cs[0], [n] + up, ctx), ChildrenWalk(n, cs[1..], up, ctx))
      case (Some(x), Some(rest)) => Some([Mod(FixId(cs[0].name), [Ord(cs[0].ord)] + x)] + rest)
      case _ => None
  }

  // ---------------------------------------------------------------- modules and routes in generated code

  // The modules in the order they appear, each by its path.
  function ModPaths(items: seq<Item>, prefix: seq<string>): seq<seq<string>>
    decreases items
  {
    if items == [] then []
    else
      (if items[0].Mod? then
         [prefix + [items[0].name]] + ModPaths(items[0].items, prefix + [items[0].name])
       else [])
      + ModPaths(items[1..], prefix)
  }

  // The absolute routes named anywhere.
  function Routes(items: seq<Item>): set<seq<string>>
    decreases items
  {
    if items == [] then {}
    else
      (match items[0]
       case Mod(_, its) => Routes(its)
       case Use(r) => {r}
       case CallAt(r, _, _) => {r}
       case _ => {})
      + Routes(items[1..])
  }

  lemma {:induction false} ModPathsAppend(a: seq<Item>, b: seq<Item>, prefix: seq<string>)
    ensures ModPaths(a + b, prefix) == ModPaths(a, prefix) + ModPaths(b, prefix)
  {
    if a == [] {
      assert a + b == b;
    } else {
      assert (a + b)[1..] == a[1..] + b && (a + b)[0] == a[0];
      ModPathsAppend(a[1..], b, prefix);
    }
  }

  lemma {:induction false} RoutesAppend(a: seq<Item>, b: seq<Item>)
    ensures Routes(a + b) == Routes(a) + Routes(b)
  {
    if a == [] {
      assert a + b == b;
    } else {
      assert (a + b)[1..] == a[1..] + b && (a + b)[0] == a[0];
      RoutesAppend(a[1..], b);
    }
  }
}
