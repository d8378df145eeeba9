/**
 The functions that instances in the generated code call: which calls there are, where they lead, and when the
 function they call is there.
 */
module DtsCalls {
  import opened Prelude
  import opened DtsTree
  import opened DtsOutput
  import B = DtsBuild
  import C = DtsClosed

  // ---------------------------------------------------------------- the ancestor of a Parent instance

  // The loops of the Parent arm: the ancestor whose status is checked, and the path it writes.
  method ParentArm(up: seq<Node>, level: nat) returns (ancestor: Option<Node>, path: seq<string>)
    requires level > 0
    ensures ancestor == Ancestor(up, level)
    ensures |path| == level && forall i :: 0 <= i < level ==> path[i] == "super"
  {
    // a node and its own ancestors
    var cur: seq<Node> := up;
    var i := 1;
    while i < level
      invariant 1 <= i <= level
      invariant cur == if i - 1 <= |up| then up[i - 1..] else []
    {
      if cur != [] { cur := cur[1..]; }
      i := i + 1;
    }
    ancestor := if cur != [] then Some(cur[0]) else None;
    path := ["super"];
    i := 1;
    while i < level
      invariant 1 <= i <= level
      invariant |path| == i && forall j :: 0 <= j < i ==> path[j] == "super"
    {
      path := path + ["super"];
      i := i + 1;
    }
  }

  // `up` leads from a node to the root.
  ghost predicate IsChain(n: Node, up: seq<Node>, root: Node)
    decreases |up|
  {
    if up == [] then n == root else n in up[0].children && IsChain(up[0], up[1..], root)
  }

  lemma {:induction false} ChainRoutes(n: Node, up: seq<Node>, root: Node, ords: OrdMap, k: nat)
    requires B.PlacedRoot(root, ords) && IsChain(n, up, root) && k <= |up|
    ensures B.Placed(n, ords) && |n.route| == |up|
    ensures k > 0 ==> up[k - 1].route == n.route[..|up| - k]
    decreases |up|
  {
    if up != [] {
      ChainRoutes(up[0], up[1..], root, ords, if k > 1 then k - 1 else 0);
    }
  }

  lemma FixedPrefix(route: seq<string>, k: nat)
    requires k <= |route|
    ensures Fixed(route[..k]) == Fixed(route)[..k]
  {
  }

  // A Parent instance is generated, as a chain of `super` of its level, exactly when its arguments can be had and
  // the ancestor of that level, if the node is that deep, has status okay.  The chain then names that ancestor's
  // module; a level above the depth is not refused, and its chain leaves the devicetree.
  lemma ParentNamesAncestor(n: Node, up: seq<Node>, root: Node, ords: OrdMap, ctx: Context, level: nat,
                            args: seq<ArgInfo>, cfg: Option<string>)
    requires B.PlacedRoot(root, ords) && IsChain(n, up, root) && level > 0
    ensures |up| == |n.route|
    ensures forall xs :: GenerateRaw(Parent(level, args), cfg, n, up, ctx) == Some([CallUp(level, xs, cfg)]) <==>
      (level <= |n.route| ==> StatusOkay(up[level - 1])) && ArgsOf(args, n, up) == Some(xs)
    ensures level <= |n.route| ==>
      && IsChain(up[level - 1], up[level..], root)
      && Fixed(up[level - 1].route) == Fixed(n.route)[..|n.route| - level]
  {
    ChainRoutes(n, up, root, ords, if level <= |up| then level else 0);
    if level <= |up| {
      FixedPrefix(n.route, |n.route| - level);
      ChainAbove(n, up, root, level);
    }
  }

  lemma {:induction false} ChainAbove(n: Node, up: seq<Node>, root: Node, k: nat)
    requires IsChain(n, up, root) && 1 <= k <= |up|
    ensures IsChain(up[k - 1], up[k..], root)
    decreases |up|
  {
    if k > 1 {
      ChainAbove(up[0], up[1..], root, k - 1);
      assert up[1..][k - 1..] == up[k..];
    }
  }

  // A compatible rule looks at the ancestor of its level.
  lemma {:induction false} CompatibleLevel(n: Node, up: seq<Node>, names: seq<string>, level: nat)
    ensures ParentCompatible(n, up, names, level) <==>
      level <= |up| && exists s :: s in names && NodeCompatible(if level == 0 then n else up[level - 1], s)
    decreases level
  {
    if level > 0 && up != [] {
      CompatibleLevel(up[0], up[1..], names, level - 1);
    }
  }

  // ---------------------------------------------------------------- items and their modules

  // An item that is no module, and the module it is in.
  datatype Spot = Spot(at: seq<string>, item: Item)

  function Spots(items: seq<Item>, prefix: seq<string>): set<Spot>
    decreases items
  {
    if items == [] then {}
    else
      (if items[0].Mod? then Spots(items[0].items, prefix + [items[0].name]) else {Spot(prefix, items[0])})
      + Spots(items[1..], prefix)
  }

  // What only instances generate.
  predicate OfInstance(x: Item) { x.CallAt? || x.CallUp? || x.InstanceRaw? }

  ghost predicate Plain(items: seq<Item>, prefix: seq<string>) {
    forall s :: s in Spots(items, prefix) ==> !OfInstance(s.item)
  }

  lemma {:induction false} SpotsAppend(a: seq<Item>, b: seq<Item>, prefix: seq<string>)
    ensures Spots(a + b, prefix) == Spots(a, prefix) + Spots(b, prefix)
  {
    if a == [] {
      assert a + b == b;
    } else {
      assert (a + b)[1..] == a[1..] + b && (a + b)[0] == a[0];
      SpotsAppend(a[1..], b, prefix);
    }
  }

  lemma OneSpot(x: Item, prefix: seq<string>)
    ensures Spots([x], prefix) ==
      if x.Mod? then Spots(x.items, prefix + [x.name]) else {Spot(prefix, x)}
  {
    assert [x][1..] == [] && Spots([x][1..], prefix) == {};
  }

  lemma {:induction false} PropertiesPlain(ps: seq<Property>, ctx: Context, prefix: seq<string>)
    requires PropertiesWalk(ps, ctx).Some?
    ensures Plain(PropertiesWalk(ps, ctx).value, prefix)
  {
    if ps != [] {
      var x := PropertyWalk(ps[0], ctx).value;
      PropertiesPlain(ps[1..], ctx, prefix);
      SpotsAppend([x], PropertiesWalk(ps[1..], ctx).value, prefix);
      OneSpot(x, prefix);
      if x.Mod? { OneSpot(x.items[0], prefix + [x.name]); assert x.items == [x.items[0]]; }
    }
  }

  lemma {:induction false} LabelModsPlain(keys: seq<string>, labels: map<string, Node>, prefix: seq<string>)
    requires LabelMods(keys, labels).Some?
    ensures Plain(LabelMods(keys, labels).value, prefix)
  {
    if keys != [] {
      var x := LabelMods(keys, labels).value[0];
      LabelModsPlain(keys[1..], labels, prefix);
      SpotsAppend([x], LabelMods(keys[1..], labels).value, prefix);
      OneSpot(x, prefix);
      OneSpot(x.items[0], prefix + [x.name]);
    }
  }

  lemma {:induction false} RawPropsPlain(ps: seq<Property>, prefix: seq<string>)
    ensures Plain(RawProps(ps), prefix)
  {
    if ps != [] {
      RawPropsPlain(ps[1..], prefix);
      OneSpot(RawProps(ps)[0], prefix);
      SpotsAppend([RawProps(ps)[0]], RawProps(ps[1..]), prefix);
    }
  }

  // ---------------------------------------------------------------- what instances generate, exactly

  // An Instance action of node `n` puts the item into n's module.
  predicate Makes(n: Node, up: seq<Node>, raw: RawInfo, ctx: Context, s: Spot) {
    && OfInstance(s.item)
    && s.at == Fixed(n.route) && Job(Instance(raw), s.item.cfg) in JobsFor(ctx.augs, n, up)
    && GenerateRaw(raw, s.item.cfg, n, up, ctx) == Some([s.item])
  }

  ghost predicate MadeIn(root: Node, ctx: Context, s: Spot) {
    exists n, up, raw :: IsChain(n, up, root) && Makes(n, up, raw, ctx, s)
  }

  ghost predicate AllMade(items: seq<Item>, prefix: seq<string>, root: Node, ctx: Context) {
    forall s :: s in Spots(items, prefix) && OfInstance(s.item) ==> MadeIn(root, ctx, s)
  }

  lemma GenerateSpots(job: Job, n: Node, up: seq<Node>, ctx: Context, s: Spot)
    requires Generate(job, n, up, ctx).Some? && OfInstance(s.item)
    ensures s in Spots(Generate(job, n, up, ctx).value, Fixed(n.route)) <==>
      && job.action.Instance? && job.cfg == s.item.cfg && s.at == Fixed(n.route)
      && GenerateRaw(job.action.raw, s.item.cfg, n, up, ctx) == Some([s.item])
  {
    var items := Generate(job, n, up, ctx).value;
    var prefix := Fixed(n.route);
    match job.action {
      case RawProperties => RawPropsPlain(n.properties, prefix);
      case Labels =>
        LabelModsPlain(ctx.keys, ctx.labels, prefix + ["labels"]);
        OneSpot(items[0], prefix);
      case Instance(raw) =>
        if items != [] {
          assert items == [items[0]];
          OneSpot(items[0], prefix);
        }
    }
    hide Spots;
  }

  lemma {:induction false} JobsSpots(jobs: seq<Job>, n: Node, up: seq<Node>, ctx: Context, s: Spot)
    requires GenerateAll(jobs, n, up, ctx).Some? && OfInstance(s.item)
    ensures s in Spots(GenerateAll(jobs, n, up, ctx).value, Fixed(n.route)) <==>
      s.at == Fixed(n.route) &&
      exists raw :: Job(Instance(raw), s.item.cfg) in jobs && GenerateRaw(raw, s.item.cfg, n, up, ctx) == Some([s.item])
  {
    if jobs != [] {
      GenerateSpots(jobs[0], n, up, ctx, s);
      JobsSpots(jobs[1..], n, up, ctx, s);
      SpotsAppend(Generate(jobs[0], n, up, ctx).value, GenerateAll(jobs[1..], n, up, ctx).value, Fixed(n.route));
      assert jobs == [jobs[0]] + jobs[1..];
      hide Spots, GenerateRaw, Generate;
    }
  }

  // A node's code: its children's and what its own instances make.
  lemma NodeSpots(n: Node, up: seq<Node>, ctx: Context, s: Spot)
    requires NodeWalk(n, up, ctx).Some? && OfInstance(s.item)
    ensures s in Spots(NodeWalk(n, up, ctx).value, Fixed(n.route)) <==>
      || s in Spots(ChildrenWalk(n, n.children, up, ctx).value, Fixed(n.route))
      || exists raw :: Makes(n, up, raw, ctx, s)
  {
    var ps, cs := PropertiesWalk(n.properties, ctx).value, ChildrenWalk(n, n.children, up, ctx).value;
    var jobs := JobsFor(ctx.augs, n, up);
    PropertiesPlain(n.properties, ctx, Fixed(n.route));
    JobsSpots(jobs, n, up, ctx, s);
    SpotsAppend(ps, cs, Fixed(n.route));
    SpotsAppend(ps + cs, GenerateAll(jobs, n, up, ctx).value, Fixed(n.route));
    hide Spots, GenerateRaw, JobsFor;
    if exists raw :: Makes(n, up, raw, ctx, s) {
      var raw :| Makes(n, up, raw, ctx, s);
      assert Job(Instance(raw), s.item.cfg) in jobs;
    }
    if raw :| s.at == Fixed(n.route) && Job(Instance(raw), s.item.cfg) in jobs &&
              GenerateRaw(raw, s.item.cfg, n, up, ctx) == Some([s.item]) {
      assert Makes(n, up, raw, ctx, s);
    }
  }

  // The first child's code stands in a module of its own, before the others'.
  lemma ChildSpots(n: Node, cs: seq<Node>, up: seq<Node>, ctx: Context, ords: OrdMap, s: Spot)
    requires cs != [] && (forall c :: c in cs ==> c in n.children) && B.Placed(n, ords)
    requires ChildrenWalk(n, cs, up, ctx).Some? && OfInstance(s.item)
    ensures s in Spots(ChildrenWalk(n, cs, up, ctx).value, Fixed(n.route)) <==>
      || s in Spots(NodeWalk(cs[0], [n] + up, ctx).value, Fixed(cs[0].route))
      || s in Spots(ChildrenWalk(n, cs[1..], up, ctx).value, Fixed(n.route))
  {
    var c := cs[0];
    assert c in n.children;
    var x, rest := NodeWalk(c, [n] + up, ctx).value, ChildrenWalk(n, cs[1..], up, ctx).value;
    var m := Mod(FixId(c.name), [Ord(c.ord)] + x);
    C.FixedAppend(n.route, c.name);
    SpotsAppend([m], rest, Fixed(n.route));
    OneSpot(m, Fixed(n.route));
    SpotsAppend([Ord(c.ord)], x, Fixed(c.route));
    OneSpot(Ord(c.ord), Fixed(c.route));
    hide Spots, NodeWalk;
  }

  lemma {:induction false} NodeMade(n: Node, up: seq<Node>, ctx: Context, root: Node, ords: OrdMap)
    requires B.PlacedRoot(root, ords) && IsChain(n, up, root) && NodeWalk(n, up, ctx).Some?
    ensures AllMade(NodeWalk(n, up, ctx).value, Fixed(n.route), root, ctx)
    decreases n, 1
  {
    ChildrenMade(n, n.children, up, ctx, root, ords);
    forall s | s in Spots(NodeWalk(n, up, ctx).value, Fixed(n.route)) && OfInstance(s.item)
      ensures MadeIn(root, ctx, s)
    {
      NodeSpots(n, up, ctx, s);
    }
  }

  lemma {:induction false} ChildrenMade(n: Node, cs: seq<Node>, up: seq<Node>, ctx: Context, root: Node,
                                        ords: OrdMap)
    requires B.PlacedRoot(root, ords) && IsChain(n, up, root)
    requires (forall c :: c in cs ==> c in n.children) && ChildrenWalk(n, cs, up, ctx).Some?
    ensures AllMade(ChildrenWalk(n, cs, up, ctx).value, Fixed(n.route), root, ctx)
    decreases n, 0, |cs|
  {
    if cs != [] {
      assert cs[0] in n.children && ([n] + up)[1..] == up;
      ChainRoutes(n, up, root, ords, 0);
      NodeMade(cs[0], [n] + up, ctx, root, ords);
      ChildrenMade(n, cs[1..], up, ctx, root, ords);
      hide Spots, NodeWalk, MadeIn;
      forall s | s in Spots(ChildrenWalk(n, cs, up, ctx).value, Fixed(n.route)) && OfInstance(s.item)
        ensures MadeIn(root, ctx, s)
      {
        ChildSpots(n, cs, up, ctx, ords, s);
      }
    }
  }

  // A child's code is part of its parent's.
  lemma {:induction false} ChildIncluded(n: Node, c: Node, cs: seq<Node>, up: seq<Node>, ctx: Context,
                                         ords: OrdMap, s: Spot)
    requires (forall d :: d in cs ==> d in n.children) && c in cs && B.Placed(n, ords)
    requires ChildrenWalk(n, cs, up, ctx).Some? && OfInstance(s.item)
    ensures NodeWalk(c, [n] + up, ctx).Some?
    ensures s in Spots(NodeWalk(c, [n] + up, ctx).value, Fixed(c.route)) ==>
      s in Spots(ChildrenWalk(n, cs, up, ctx).value, Fixed(n.route))
    decreases |cs|
  {
    ChildSpots(n, cs, up, ctx, ords, s);
    if c != cs[0] {
      ChildIncluded(n, c, cs[1..], up, ctx, ords, s);
    }
    hide Spots;
  }

  lemma {:induction false} NodeIncluded(n: Node, up: seq<Node>, ctx: Context, root: Node, ords: OrdMap, s: Spot)
    requires B.PlacedRoot(root, ords) && IsChain(n, up, root) && NodeWalk(root, [], ctx).Some?
    requires OfInstance(s.item)
    ensures NodeWalk(n, up, ctx).Some?
    ensures s in Spots(NodeWalk(n, up, ctx).value, Fixed(n.route)) ==>
      s in Spots(NodeWalk(root, [], ctx).value, [])
    decreases |up|
  {
    if up == [] {
      assert Fixed(n.route) == [];
    } else {
      var p := up[0];
      NodeIncluded(p, up[1..], ctx, root, ords, s);
      ChainRoutes(p, up[1..], root, ords, 0);
      ChildIncluded(p, n, p.children, up[1..], ctx, ords, s);
      assert up == [p] + up[1..];
      NodeSpots(p, up[1..], ctx, s);
      hide Spots;
    }
  }

  // The calls and instance functions in a tree's code are exactly those that its nodes' Instance actions make,
  // each in its node's module.
  lemma MadeExactly(root: Node, ords: OrdMap, ctx: Context, s: Spot)
    requires B.PlacedRoot(root, ords) && NodeWalk(root, [], ctx).Some? && OfInstance(s.item)
    ensures s in Spots(NodeWalk(root, [], ctx).value, []) <==> MadeIn(root, ctx, s)
  {
    assert Fixed([]) == [];
    NodeMade(root, [], ctx, root, ords);
    if MadeIn(root, ctx, s) {
      var n, up, raw :| IsChain(n, up, root) && Makes(n, up, raw, ctx, s);
      NodeIncluded(n, up, ctx, root, ords, s);
      NodeSpots(n, up, ctx, s);
    }
    hide Spots, NodeWalk;
  }

  // ---------------------------------------------------------------- where calls lead

  // The item is compiled when the options `on` are enabled.
  predicate Present(cfg: Option<string>, on: set<string>) { cfg.Some? ==> cfg.value in on }

  // The module a call names, unless it leaves the devicetree.
  function CalledModule(s: Spot): Option<seq<string>> {
    match s.item
    case CallAt(r, _, _) => Some(r)
    case CallUp(k, _, _) => if k <= |s.at| then Some(s.at[..|s.at| - k]) else None
    case _ => None
  }

  // The node an instance takes its raw device from.
  function Designated(raw: RawInfo, n: Node, up: seq<Node>, ctx: Context): Option<Node> {
    match raw
    case Myself => None
    case Parent(level, _) => Ancestor(up, level)
    case PhandleOf(prop) =>
      match WordsOf(n, prop)
      case None => None
      case Some(ws) =>
        if ws != [] && ws[0].Ref? && ws[0].target in ctx.labels then Some(ctx.labels[ws[0].target]) else None
  }

  // The module has the function that calls name, when the options `on` are enabled.
  ghost predicate FunctionIn(code: seq<Item>, m: Option<seq<string>>, on: set<string>) {
    m.Some? && exists ord, cfg :: Spot(m.value, InstanceRaw(ord, cfg)) in Spots(code, []) && Present(cfg, on)
  }

  // An augmentation with option `cfg` asks for an instance of the node itself, and its status is okay.
  predicate OwnInstance(t: Node, up: seq<Node>, cfg: Option<string>, ctx: Context) {
    Job(Instance(Myself), cfg) in JobsFor(ctx.augs, t, up) && StatusOkay(t)
  }

  // The node is in the tree and has an instance of its own that is compiled.
  ghost predicate HasOwn(root: Node, t: Node, ctx: Context, on: set<string>) {
    exists up, cfg :: IsChain(t, up, root) && OwnInstance(t, up, cfg, ctx) && Present(cfg, on)
  }

  // The node is in the tree and has an instance of its own whose option is none or `c`.
  ghost predicate HasGate(root: Node, t: Node, ctx: Context, c: Option<string>) {
    exists up, cfg :: IsChain(t, up, root) && OwnInstance(t, up, cfg, ctx) && (cfg.None? || cfg == c)
  }

  // A module has the function, under the options that are enabled, exactly when a node of that module is okay and
  // has an instance of its own whose option is enabled.
  lemma FunctionExactly(root: Node, ords: OrdMap, ctx: Context, m: seq<string>, on: set<string>)
    requires B.PlacedRoot(root, ords) && NodeWalk(root, [], ctx).Some?
    ensures FunctionIn(NodeWalk(root, [], ctx).value, Some(m), on) <==>
      exists t: Node :: Fixed(t.route) == m && HasOwn(root, t, ctx, on)
  {
    var code := NodeWalk(root, [], ctx).value;
    hide NodeWalk, Spots, JobsFor, OwnInstance, B.PlacedRoot;
    if FunctionIn(code, Some(m), on) {
      var ord, cfg :| Spot(m, InstanceRaw(ord, cfg)) in Spots(code, []) && Present(cfg, on);
      var t, up := OwnOfSpot(root, ords, ctx, m, ord, cfg);
      assert HasOwn(root, t, ctx, on);
    }
    if t: Node :| Fixed(t.route) == m && HasOwn(root, t, ctx, on) {
      var up, cfg :| IsChain(t, up, root) && OwnInstance(t, up, cfg, ctx) && Present(cfg, on);
      SpotOfOwn(root, ords, ctx, t, up, cfg);
    }
  }

  lemma OwnOfSpot(root: Node, ords: OrdMap, ctx: Context, m: seq<string>, ord: nat, cfg: Option<string>)
    returns (t: Node, up: seq<Node>)
    requires B.PlacedRoot(root, ords) && NodeWalk(root, [], ctx).Some?
    requires Spot(m, InstanceRaw(ord, cfg)) in Spots(NodeWalk(root, [], ctx).value, [])
    ensures IsChain(t, up, root) && OwnInstance(t, up, cfg, ctx) && Fixed(t.route) == m && t.ord == ord
  {
    hide NodeWalk, Spots, JobsFor;
    var raw;
    MadeExactly(root, ords, ctx, Spot(m, InstanceRaw(ord, cfg)));
    t, up, raw :| IsChain(t, up, root) && Makes(t, up, raw, ctx, Spot(m, InstanceRaw(ord, cfg)));
    assert raw == Myself;
  }

  lemma SpotOfOwn(root: Node, ords: OrdMap, ctx: Context, t: Node, up: seq<Node>, cfg: Option<string>)
    requires B.PlacedRoot(root, ords) && NodeWalk(root, [], ctx).Some?
    requires IsChain(t, up, root) && OwnInstance(t, up, cfg, ctx)
    ensures Spot(Fixed(t.route), InstanceRaw(t.ord, cfg)) in Spots(NodeWalk(root, [], ctx).value, [])
  {
    hide NodeWalk, Spots, JobsFor;
    assert Makes(t, up, Myself, ctx, Spot(Fixed(t.route), InstanceRaw(t.ord, cfg)));
    MadeExactly(root, ords, ctx, Spot(Fixed(t.route), InstanceRaw(t.ord, cfg)));
  }

  // An instance of one's own is there whenever a call with option `c` is compiled, exactly when one has no option
  // or that one.
  lemma GateExactly(root: Node, t: Node, ctx: Context, c: Option<string>)
    ensures (forall on :: Present(c, on) ==> HasOwn(root, t, ctx, on)) <==> HasGate(root, t, ctx, c)
  {
    if forall on :: Present(c, on) ==> HasOwn(root, t, ctx, on) {
      var least := if c.Some? then {c.value} else {};
      assert Present(c, least);
      var up, cfg :| IsChain(t, up, root) && OwnInstance(t, up, cfg, ctx) && Present(cfg, least);
      assert cfg.None? || cfg == c;
    }
    if HasGate(root, t, ctx, c) {
      var up, cfg :| IsChain(t, up, root) && OwnInstance(t, up, cfg, ctx) && (cfg.None? || cfg == c);
      forall on | Present(c, on) ensures HasOwn(root, t, ctx, on) {
        assert Present(cfg, on);
      }
    }
  }

  // No two nodes share a module.
  ghost predicate Distinct(root: Node) {
    forall n, up, m, up' :: IsChain(n, up, root) && IsChain(m, up', root) && Fixed(n.route) == Fixed(m.route) ==> n == m
  }

  // A call names the module of the node its instance designates, or leaves the devicetree.
  lemma CallDesignates(n: Node, up: seq<Node>, raw: RawInfo, root: Node, ords: OrdMap, ctx: Context, s: Spot)
    requires B.PlacedRoot(root, ords) && IsChain(n, up, root) && Makes(n, up, raw, ctx, s)
    requires s.item.CallAt? || s.item.CallUp?
    ensures CalledModule(s) == match Designated(raw, n, up, ctx) case Some(t) => Some(Fixed(t.route)) case None => None
    ensures raw.Parent? && Designated(raw, n, up, ctx).Some? ==> StatusOkay(Designated(raw, n, up, ctx).value)
  {
    if raw.Parent? {
      ParentNamesAncestor(n, up, root, ords, ctx, raw.level, raw.args, s.item.cfg);
    }
    hide JobsFor;
  }

  // Some node in module `m` has `k` levels above it in the tree and the ancestor there, which has status okay, is
  // what `k` times `super` names; or `k` is above the node's depth.
  ghost predicate NamesAncestor(root: Node, m: seq<string>, k: nat) {
    exists n, up :: IsChain(n, up, root) && ChainNames(n, up, m, k)
  }

  predicate ChainNames(n: Node, up: seq<Node>, m: seq<string>, k: nat) {
    && m == Fixed(n.route) && |m| == |up| && k > 0
    && (k <= |m| ==> StatusOkay(up[k - 1]) && Fixed(up[k - 1].route) == m[..|m| - k])
  }

  // In the code of a parsed devicetree every chain of `super` inside the devicetree names the module of the
  // ancestor it counts to, whose status is okay.
  lemma SupersNameAncestors(text: string, ords: OrdMap, ctx: Context, m: seq<string>, k: nat, xs: seq<nat>,
                            cfg: Option<string>)
    requires Parse(text, ords).Some? && NodeWalk(Parse(text, ords).value.root, [], ctx).Some?
    requires Spot(m, CallUp(k, xs, cfg)) in Spots(NodeWalk(Parse(text, ords).value.root, [], ctx).value, [])
    ensures NamesAncestor(Parse(text, ords).value.root, m, k)
  {
    var root := Parse(text, ords).value.root;
    var s := Spot(m, CallUp(k, xs, cfg));
    B.ParsePlaces(text, ords, root);
    MadeExactly(root, ords, ctx, s);
    hide Parse, NodeWalk, Spots, JobsFor, B.PlacedRoot;
    var n, up, raw :| IsChain(n, up, root) && Makes(n, up, raw, ctx, s);
    ChainIsNamed(n, up, raw, root, ords, ctx, s);
  }

  lemma ChainIsNamed(n: Node, up: seq<Node>, raw: RawInfo, root: Node, ords: OrdMap, ctx: Context, s: Spot)
    requires B.PlacedRoot(root, ords) && IsChain(n, up, root) && Makes(n, up, raw, ctx, s) && s.item.CallUp?
    ensures NamesAncestor(root, s.at, s.item.supers)
  {
    hide JobsFor, B.PlacedRoot;
    ParentNamesAncestor(n, up, root, ords, ctx, s.item.supers, raw.args, s.item.cfg);
    assert ChainNames(n, up, s.at, s.item.supers);
  }

  lemma {:induction false} ChainTo(n: Node, m: Node, up: seq<Node>, root: Node) returns (up': seq<Node>)
    requires B.IsIn(n, m) && IsChain(m, up, root)
    ensures IsChain(n, up', root)
    decreases m
  {
    if n == m {
      up' := up;
    } else {
      var c :| c in m.children && B.IsIn(n, c);
      assert ([m] + up)[1..] == up;
      up' := ChainTo(n, c, [m] + up, root);
    }
  }

  // What an instance designates is in the tree.
  lemma DesignatedIsIn(text: string, ords: OrdMap, ctx: Context, n: Node, up: seq<Node>, raw: RawInfo)
    requires Parse(text, ords).Some? && ctx.labels == Parse(text, ords).value.labels
    requires IsChain(n, up, Parse(text, ords).value.root) && Designated(raw, n, up, ctx).Some?
    ensures exists up' :: IsChain(Designated(raw, n, up, ctx).value, up', Parse(text, ords).value.root)
  {
    var root := Parse(text, ords).value.root;
    match raw {
      case Myself =>
      case Parent(level, _) => ChainAbove(n, up, root, level);
      case PhandleOf(prop) =>
        var lab := WordsOf(n, prop).value[0].target;
        B.LabelsResolve(text, ords, lab);
        var up' := ChainTo(ctx.labels[lab], root, [], root);
    }
  }

  // Main result: every call in the code generated for a parsed devicetree is made by an Instance action of the
  // node whose module it is in.  If no two nodes share a module, then under every set of enabled options the
  // function it calls is there exactly when the instance designates a node of the tree whose status is okay and
  // which has an instance of its own whose option is enabled; and it is there whenever the call is compiled
  // exactly when that node has an instance of its own with no option or with the call's.  (A Parent instance has
  // checked the status, a Phandle instance has not; neither looks for an instance or its option; and a Parent
  // level above the depth designates nothing.)
  lemma CallFindsExactly(text: string, ords: OrdMap, ctx: Context, s: Spot)
    returns (n: Node, up: seq<Node>, raw: RawInfo)
    requires Parse(text, ords).Some? && ctx.labels == Parse(text, ords).value.labels
    requires NodeWalk(Parse(text, ords).value.root, [], ctx).Some?
    requires s in Spots(NodeWalk(Parse(text, ords).value.root, [], ctx).value, []) && (s.item.CallAt? || s.item.CallUp?)
    ensures IsChain(n, up, Parse(text, ords).value.root) && Makes(n, up, raw, ctx, s)
    ensures var root, target := Parse(text, ords).value.root, Designated(raw, n, up, ctx);
      var code := NodeWalk(root, [], ctx).value;
      Distinct(root) ==>
        && (forall on :: FunctionIn(code, CalledModule(s), on) <==>
              target.Some? && HasOwn(root, target.value, ctx, on))
        && ((forall on :: Present(s.item.cfg, on) ==> FunctionIn(code, CalledModule(s), on)) <==>
              target.Some? && HasGate(root, target.value, ctx, s.item.cfg))
  {
    var root := Parse(text, ords).value.root;
    B.ParsePlaces(text, ords, root);
    MadeExactly(root, ords, ctx, s);
    n, up, raw :| IsChain(n, up, root) && Makes(n, up, raw, ctx, s);
    CallDesignates(n, up, raw, root, ords, ctx, s);
    var target := Designated(raw, n, up, ctx);
    if target.Some? { DesignatedIsIn(text, ords, ctx, n, up, raw); }
    hide Parse, Designated, Makes, B.PlacedRoot;
    TargetHas(root, ords, ctx, CalledModule(s), target, s.item.cfg);
  }

  lemma TargetHas(root: Node, ords: OrdMap, ctx: Context, m: Option<seq<string>>, target: Option<Node>,
                  c: Option<string>)
    requires B.PlacedRoot(root, ords) && NodeWalk(root, [], ctx).Some?
    requires m == match target case Some(t) => Some(Fixed(t.route)) case None => None
    requires target.Some? ==> exists up :: IsChain(target.value, up, root)
    ensures var code := NodeWalk(root, [], ctx).value;
      Distinct(root) ==>
        && (forall on :: FunctionIn(code, m, on) <==> target.Some? && HasOwn(root, target.value, ctx, on))
        && ((forall on :: Present(c, on) ==> FunctionIn(code, m, on)) <==>
              target.Some? && HasGate(root, target.value, ctx, c))
  {
    var code := NodeWalk(root, [], ctx).value;
    if Distinct(root) {
      forall on ensures FunctionIn(code, m, on) <==> target.Some? && HasOwn(root, target.value, ctx, on) {
        if target.Some? {
          FunctionExactly(root, ords, ctx, m.value, on);
          SameModule(root, target.value, ctx, on);
        }
      }
      var least := if c.Some? then {c.value} else {};
      assert Present(c, least);
      if target.Some? { GateExactly(root, target.value, ctx, c); }
      assert target.None? ==> !FunctionIn(code, m, least);
      hide NodeWalk, Spots, Distinct, HasOwn, HasGate;
    }
  }

  lemma SameModule(root: Node, t: Node, ctx: Context, on: set<string>)
    requires Distinct(root) && exists up :: IsChain(t, up, root)
    ensures (exists m: Node :: Fixed(m.route) == Fixed(t.route) && HasOwn(root, m, ctx, on)) <==>
      HasOwn(root, t, ctx, on)
  {
    var up :| IsChain(t, up, root);
    forall m: Node | Fixed(m.route) == Fixed(t.route) && HasOwn(root, m, ctx, on) ensures m == t {
      var up', cfg :| IsChain(m, up', root) && OwnInstance(m, up', cfg, ctx) && Present(cfg, on);
    }
  }
}
