/**
 The code generated for a devicetree, item by item: which items stand in which module, with which contents, in which
 order, and when there is code at all.
 */
module DtsItems {
  import opened Prelude
  import opened DtsTree
  import opened DtsOutput
  import opened DtsCalls
  import opened DtsTokens
  import opened DtsLookups
  import B = DtsBuild
  import C = DtsClosed

  // ---------------------------------------------------------------- where an item comes from

  // A property in module `at` gives a number, what its one phandle refers to, or its text.
  ghost predicate FromProperty(p: Property, at: seq<string>, ctx: Context, s: Spot) {
    match s.item
    case NumberConst(name, k) => s.at == at && name == FixId(Upper(p.name)) && p.value == [Words([Number(k)])]
    case Use(r) =>
      s.at == at + [FixId(p.name)] &&
      exists lab :: p.value == [Phandle(lab)] && lab in ctx.labels && r == Fixed(ctx.labels[lab].route)
    case TextConst(name, v) => s.at == at && name == FixId(Upper(p.name) + "_DEBUG") && v == p.value && !Short(v)
    case _ => false
  }

  // One number or one phandle.
  ghost predicate Short(v: seq<Value>) {
    (exists k :: v == [Words([Number(k)])]) || exists lab :: v == [Phandle(lab)]
  }

  // The property gives the phandle `lab` in front of the arguments.
  ghost predicate Refers(n: Node, prop: string, lab: string, args: seq<nat>) {
    IsFirst(n.properties, prop, [Words([Ref(lab)] + NumberWords(args))])
  }

  ghost predicate FromInstance(raw: RawInfo, cfg: Option<string>, n: Node, up: seq<Node>, ctx: Context, x: Item) {
    match raw
    case Myself => x == InstanceRaw(n.ord, cfg) && StatusOkay(n)
    case PhandleOf(prop) =>
      exists lab, args ::
        Refers(n, prop, lab, args) && lab in ctx.labels && x == CallAt(Fixed(ctx.labels[lab].route), args, cfg)
    case Parent(level, args) =>
      && level > 0 && (level <= |up| ==> StatusOkay(up[level - 1]))
      && exists xs :: ArgsOf(args, n, up) == Some(xs) && x == CallUp(level, xs, cfg)
  }

  ghost predicate FromJob(job: Job, n: Node, up: seq<Node>, ctx: Context, s: Spot) {
    match job.action
    case Instance(raw) => s.at == Fixed(n.route) && FromInstance(raw, job.cfg, n, up, ctx, s.item)
    case RawProperties => s.at == Fixed(n.route) && exists p :: p in n.properties && RawOf(p, s.item)
    case Labels =>
      exists lab ::
        && lab in ctx.keys && lab in ctx.labels
        && s == Spot(Fixed(n.route) + ["labels"] + [FixId(lab)], Use(Fixed(ctx.labels[lab].route)))
  }

  predicate RawOf(p: Property, x: Item) { x == Raw("RAW_" + FixId(Upper(p.name)), p.value) }

  // The item comes from a property or an augmentation of the node.
  ghost predicate FromInside(n: Node, up: seq<Node>, ctx: Context, s: Spot) {
    || (exists p :: p in n.properties && FromProperty(p, Fixed(n.route), ctx, s))
    || (exists job :: job in JobsFor(ctx.augs, n, up) && FromJob(job, n, up, ctx, s))
  }

  // Every node below the root has its ord.
  ghost predicate FromNode(n: Node, up: seq<Node>, ctx: Context, s: Spot) {
    (up != [] && s == Spot(Fixed(n.route), Ord(n.ord))) || FromInside(n, up, ctx, s)
  }

  ghost predicate InTree(root: Node, ctx: Context, s: Spot) {
    exists n, up :: IsChain(n, up, root) && FromNode(n, up, ctx, s)
  }

  // ---------------------------------------------------------------- properties

  lemma PropertySpots(p: Property, at: seq<string>, ctx: Context, s: Spot)
    requires PropertyWalk(p, ctx).Some?
    ensures s in Spots([PropertyWalk(p, ctx).value], at) <==> FromProperty(p, at, ctx, s)
  {
    var x := PropertyWalk(p, ctx).value;
    UpperAppend(p.name, "_DEBUG");
    DebugUpper();
    OneSpot(x, at);
    if x.Mod? { OneSpot(x.items[0], at + [x.name]); }
    ShortShape(p.value);
    hide FixId, Upper, Fixed, Spots;
  }

  lemma DebugUpper()
    ensures Upper("_DEBUG") == "_DEBUG"
  {
    var t := "_DEBUG";
    forall i: nat | i < |t| ensures |Upper(t)| == |t| && Upper(t)[i] == t[i] {
      UpperExactly(t, i);
      assert t[0] == '_' && t[1] == 'D' && t[2] == 'E' && t[3] == 'B' && t[4] == 'U' && t[5] == 'G';
    }
    UpperExactly(t, 0);
  }

  lemma ShortShape(v: seq<Value>)
    ensures (|v| == 1 && v[0].Words? && |v[0].words| == 1 && v[0].words[0].Number?) <==>
      exists k :: v == [Words([Number(k)])]
    ensures (|v| == 1 && v[0].Phandle?) <==> exists lab :: v == [Phandle(lab)]
  {
    if |v| == 1 && v[0].Words? && |v[0].words| == 1 && v[0].words[0].Number? {
      assert v[0].words == [Number(v[0].words[0].n)];
      assert v == [Words([Number(v[0].words[0].n)])];
    }
    if |v| == 1 && v[0].Phandle? { assert v == [Phandle(v[0].target)]; }
  }

  lemma {:induction false} PropertiesSpots(ps: seq<Property>, at: seq<string>, ctx: Context, s: Spot)
    requires PropertiesWalk(ps, ctx).Some?
    ensures s in Spots(PropertiesWalk(ps, ctx).value, at) <==> exists p :: p in ps && FromProperty(p, at, ctx, s)
  {
    if ps != [] {
      PropertySpots(ps[0], at, ctx, s);
      PropertiesSpots(ps[1..], at, ctx, s);
      SpotsAppend([PropertyWalk(ps[0], ctx).value], PropertiesWalk(ps[1..], ctx).value, at);
      assert ps == [ps[0]] + ps[1..];
      hide FromProperty, Spots, PropertyWalk;
    }
  }

  // ---------------------------------------------------------------- augmentations

  lemma {:induction false} RawSpots(ps: seq<Property>, at: seq<string>, s: Spot)
    ensures s in Spots(RawProps(ps), at) <==> s.at == at && exists p :: p in ps && RawOf(p, s.item)
  {
    if ps != [] {
      var x := RawProps(ps)[0];
      RawSpots(ps[1..], at, s);
      OneSpot(x, at);
      SpotsAppend([x], RawProps(ps[1..]), at);
      assert RawOf(ps[0], x) && ps == [ps[0]] + ps[1..];
      hide Spots;
    }
  }

  ghost predicate LabelSpot(lab: string, ctx: Context, at: seq<string>, s: Spot) {
    lab in ctx.labels && s == Spot(at + [FixId(lab)], Use(Fixed(ctx.labels[lab].route)))
  }

  lemma OneLabel(lab: string, ctx: Context, at: seq<string>, s: Spot)
    requires lab in ctx.labels
    ensures s in Spots([Mod(FixId(lab), [Use(Fixed(ctx.labels[lab].route))])], at) <==> LabelSpot(lab, ctx, at, s)
  {
    var x := Mod(FixId(lab), [Use(Fixed(ctx.labels[lab].route))]);
    OneSpot(x, at);
    OneSpot(x.items[0], at + [x.name]);
  }

  lemma {:induction false} LabelSpots(keys: seq<string>, ctx: Context, at: seq<string>, s: Spot)
    requires LabelMods(keys, ctx.labels).Some?
    ensures s in Spots(LabelMods(keys, ctx.labels).value, at) <==>
      exists lab :: lab in keys && LabelSpot(lab, ctx, at, s)
  {
    if keys != [] {
      var x := LabelMods(keys, ctx.labels).value[0];
      LabelSpots(keys[1..], ctx, at, s);
      OneLabel(keys[0], ctx, at, s);
      SpotsAppend([x], LabelMods(keys[1..], ctx.labels).value, at);
      assert keys == [keys[0]] + keys[1..];
      hide Spots, LabelSpot;
    }
  }

  // What a Phandle instance takes from its property.
  lemma TargetExactly(n: Node, prop: string, lab: string, args: seq<nat>)
    ensures Refers(n, prop, lab, args) <==>
      var ws := WordsOf(n, prop);
      ws.Some? && ws.value != [] && ws.value[0] == Ref(lab) && AllNumbers(ws.value[1..]) == Some(args)
  {
    var whole := [Ref(lab)] + NumberWords(args);
    WordsExactly(n, prop, whole);
    forall i | 0 <= i < |args| ensures NumberWords(args)[i] == Number(args[i]) { NumberWordsAre(args, i); }
    hide IsFirst, WordsOf, NumberWords, AllNumbers;
    NumbersExactly(NumberWords(args), args);
    assert whole[1..] == NumberWords(args);
    var ws := WordsOf(n, prop);
    if ws.Some? && ws.value != [] && ws.value[0] == Ref(lab) && AllNumbers(ws.value[1..]) == Some(args) {
      NumbersExactly(ws.value[1..], args);
      assert ws.value[1..] == NumberWords(args);
      assert ws.value == [ws.value[0]] + ws.value[1..];
    }
  }

  // An instance gives one item or none.
  lemma InstanceItem(raw: RawInfo, cfg: Option<string>, n: Node, up: seq<Node>, ctx: Context, x: Item)
    requires GenerateRaw(raw, cfg, n, up, ctx).Some?
    ensures GenerateRaw(raw, cfg, n, up, ctx).value == [] || |GenerateRaw(raw, cfg, n, up, ctx).value| == 1
    ensures GenerateRaw(raw, cfg, n, up, ctx).value == [x] <==> FromInstance(raw, cfg, n, up, ctx, x)
    ensures FromInstance(raw, cfg, n, up, ctx, x) ==> OfInstance(x)
  {
    hide StatusOkay, Refers, Fixed, WordsOf, AllNumbers, ArgsOf;
    match raw
    case Myself =>
    case Parent(level, args) =>
    case PhandleOf(prop) =>
      forall lab, args
        ensures Refers(n, prop, lab, args) <==>
          var ws := WordsOf(n, prop);
          ws.Some? && ws.value != [] && ws.value[0] == Ref(lab) && AllNumbers(ws.value[1..]) == Some(args)
      {
        TargetExactly(n, prop, lab, args);
      }
      var ws := WordsOf(n, prop).value;
      var lab, args := ws[0].target, AllNumbers(ws[1..]).value;
      assert Refers(n, prop, lab, args);
  }

  lemma JobSpots(job: Job, n: Node, up: seq<Node>, ctx: Context, s: Spot)
    requires Generate(job, n, up, ctx).Some?
    ensures s in Spots(Generate(job, n, up, ctx).value, Fixed(n.route)) <==> FromJob(job, n, up, ctx, s)
  {
    var items, at := Generate(job, n, up, ctx).value, Fixed(n.route);
    match job.action {
      case RawProperties => RawSpots(n.properties, at, s);
      case Labels =>
        LabelSpots(ctx.keys, ctx, at + ["labels"], s);
        OneSpot(items[0], at);
      case Instance(raw) =>
        InstanceItem(raw, job.cfg, n, up, ctx, s.item);
        if items != [] {
          InstanceItem(raw, job.cfg, n, up, ctx, items[0]);
          assert items == [items[0]];
          OneSpot(items[0], at);
        }
    }
    hide Spots, FromInstance, GenerateRaw, OfInstance, RawOf;
  }

  lemma {:induction false} AllJobsSpots(jobs: seq<Job>, n: Node, up: seq<Node>, ctx: Context, s: Spot)
    requires GenerateAll(jobs, n, up, ctx).Some?
    ensures s in Spots(GenerateAll(jobs, n, up, ctx).value, Fixed(n.route)) <==>
      exists job :: job in jobs && FromJob(job, n, up, ctx, s)
  {
    if jobs != [] {
      JobSpots(jobs[0], n, up, ctx, s);
      AllJobsSpots(jobs[1..], n, up, ctx, s);
      SpotsAppend(Generate(jobs[0], n, up, ctx).value, GenerateAll(jobs[1..], n, up, ctx).value, Fixed(n.route));
      assert jobs == [jobs[0]] + jobs[1..];
      hide Spots, Generate, FromJob;
    }
  }

  // ---------------------------------------------------------------- nodes

  lemma InsideSpots(n: Node, up: seq<Node>, ctx: Context, s: Spot)
    requires NodeWalk(n, up, ctx).Some?
    ensures s in Spots(NodeWalk(n, up, ctx).value, Fixed(n.route)) <==>
      s in Spots(ChildrenWalk(n, n.children, up, ctx).value, Fixed(n.route)) || FromInside(n, up, ctx, s)
  {
    var ps, cs := PropertiesWalk(n.properties, ctx).value, ChildrenWalk(n, n.children, up, ctx).value;
    var jobs, at := JobsFor(ctx.augs, n, up), Fixed(n.route);
    PropertiesSpots(n.properties, at, ctx, s);
    AllJobsSpots(jobs, n, up, ctx, s);
    SpotsAppend(ps, cs, at);
    SpotsAppend(ps + cs, GenerateAll(jobs, n, up, ctx).value, at);
    hide Spots, FromProperty, FromJob, JobsFor, Fixed;
  }

  // The code of the first child stands in its own module, in front of that of the others.
  lemma FirstChild(n: Node, cs: seq<Node>, up: seq<Node>, ctx: Context, ords: OrdMap, s: Spot)
    requires cs != [] && (forall c :: c in cs ==> c in n.children) && B.Placed(n, ords)
    requires ChildrenWalk(n, cs, up, ctx).Some?
    ensures s in Spots(ChildrenWalk(n, cs, up, ctx).value, Fixed(n.route)) <==>
      || s == Spot(Fixed(cs[0].route), Ord(cs[0].ord))
      || s in Spots(NodeWalk(cs[0], [n] + up, ctx).value, Fixed(cs[0].route))
      || s in Spots(ChildrenWalk(n, cs[1..], up, ctx).value, Fixed(n.route))
  {
    var c := cs[0];
    assert c in n.children;
    var x, rest := NodeWalk(c, [n] + up, ctx).value, ChildrenWalk(n, cs[1..], up, ctx).value;
    var m := Mod(FixId(c.name), [Ord(c.ord)] + x);
    C.FixedAppend(n.route, c.name);
    SpotsAppend([m], rest, Fixed(n.route));
    OneSpot(m, Fixed(n.route));
    SpotsAppend([Ord(c.ord)], x, Fixed(c.route));
    OneSpot(Ord(c.ord), Fixed(c.route));
    hide Spots, NodeWalk;
  }

  ghost predicate AllIn(items: seq<Item>, at: seq<string>, root: Node, ctx: Context) {
    forall s :: s in Spots(items, at) ==> InTree(root, ctx, s)
  }

  lemma {:induction false} NodeIn(n: Node, up: seq<Node>, ctx: Context, root: Node, ords: OrdMap)
    requires B.PlacedRoot(root, ords) && IsChain(n, up, root) && NodeWalk(n, up, ctx).Some?
    ensures AllIn(NodeWalk(n, up, ctx).value, Fixed(n.route), root, ctx)
    decreases n, 1
  {
    ChildrenIn(n, n.children, up, ctx, root, ords);
    hide FromInside, Spots;
    forall s | s in Spots(NodeWalk(n, up, ctx).value, Fixed(n.route)) ensures InTree(root, ctx, s) {
      InsideSpots(n, up, ctx, s);
      assert FromInside(n, up, ctx, s) ==> FromNode(n, up, ctx, s);
    }
  }

  lemma {:induction false} ChildrenIn(n: Node, cs: seq<Node>, up: seq<Node>, ctx: Context, root: Node, ords: OrdMap)
    requires B.PlacedRoot(root, ords) && IsChain(n, up, root)
    requires (forall c :: c in cs ==> c in n.children) && ChildrenWalk(n, cs, up, ctx).Some?
    ensures AllIn(ChildrenWalk(n, cs, up, ctx).value, Fixed(n.route), root, ctx)
    decreases n, 0, |cs|
  {
    if cs != [] {
      assert cs[0] in n.children && ([n] + up)[1..] == up;
      ChainRoutes(n, up, root, ords, 0);
      NodeIn(cs[0], [n] + up, ctx, root, ords);
      ChildrenIn(n, cs[1..], up, ctx, root, ords);
      assert InTree(root, ctx, Spot(Fixed(cs[0].route), Ord(cs[0].ord))) by {
        assert FromNode(cs[0], [n] + up, ctx, Spot(Fixed(cs[0].route), Ord(cs[0].ord)));
      }
      hide Spots, NodeWalk, InTree;
      forall s | s in Spots(ChildrenWalk(n, cs, up, ctx).value, Fixed(n.route)) ensures InTree(root, ctx, s) {
        FirstChild(n, cs, up, ctx, ords, s);
      }
    }
  }

  lemma {:induction false} ChildHas(n: Node, c: Node, cs: seq<Node>, up: seq<Node>, ctx: Context, ords: OrdMap, s: Spot)
    requires (forall d :: d in cs ==> d in n.children) && c in cs && B.Placed(n, ords)
    requires ChildrenWalk(n, cs, up, ctx).Some?
    ensures NodeWalk(c, [n] + up, ctx).Some?
    ensures s in Spots(NodeWalk(c, [n] + up, ctx).value, Fixed(c.route)) || s == Spot(Fixed(c.route), Ord(c.ord)) ==>
      s in Spots(ChildrenWalk(n, cs, up, ctx).value, Fixed(n.route))
    decreases |cs|
  {
    FirstChild(n, cs, up, ctx, ords, s);
    if c != cs[0] {
      ChildHas(n, c, cs[1..], up, ctx, ords, s);
    }
    hide Spots;
  }

  lemma {:induction false} TreeHas(n: Node, up: seq<Node>, ctx: Context, root: Node, ords: OrdMap, s: Spot)
    requires B.PlacedRoot(root, ords) && IsChain(n, up, root) && NodeWalk(root, [], ctx).Some?
    ensures NodeWalk(n, up, ctx).Some?
    ensures
      (up != [] && s == Spot(Fixed(n.route), Ord(n.ord))) || s in Spots(NodeWalk(n, up, ctx).value, Fixed(n.route)) ==>
        s in Spots(NodeWalk(root, [], ctx).value, [])
    decreases |up|
  {
    if up == [] {
      assert Fixed(n.route) == [];
    } else {
      var p := up[0];
      TreeHas(p, up[1..], ctx, root, ords, s);
      ChainRoutes(p, up[1..], root, ords, 0);
      ChildHas(p, n, p.children, up[1..], ctx, ords, s);
      assert up == [p] + up[1..];
      InsideSpots(p, up[1..], ctx, s);
      hide Spots, FromInside;
    }
  }

  // Main result: an item stands in a module of a tree's code exactly when a node below the root has that module and
  // the item is its ord, or a property or an augmentation of some node gives the item there.
  lemma ItemsExactly(root: Node, ords: OrdMap, ctx: Context, s: Spot)
    requires B.PlacedRoot(root, ords) && NodeWalk(root, [], ctx).Some?
    ensures s in Spots(NodeWalk(root, [], ctx).value, []) <==> InTree(root, ctx, s)
  {
    assert Fixed([]) == [];
    NodeIn(root, [], ctx, root, ords);
    if InTree(root, ctx, s) {
      var n, up :| IsChain(n, up, root) && FromNode(n, up, ctx, s);
      TreeHas(n, up, ctx, root, ords, s);
      InsideSpots(n, up, ctx, s);
    }
    hide Spots, NodeWalk, FromInside;
  }

  // ---------------------------------------------------------------- order

  lemma {:induction false} PropertyItems(ps: seq<Property>, ctx: Context, i: nat)
    requires PropertiesWalk(ps, ctx).Some?
    ensures |PropertiesWalk(ps, ctx).value| == |ps|
    ensures i < |ps| ==> PropertyWalk(ps[i], ctx) == Some(PropertiesWalk(ps, ctx).value[i])
  {
    hide PropertyWalk;
    if ps != [] { PropertyItems(ps[1..], ctx, if i > 0 then i - 1 else 0); }
  }

  ghost predicate ChildItem(n: Node, c: Node, up: seq<Node>, ctx: Context, x: Item) {
    NodeWalk(c, [n] + up, ctx).Some? &&
    x == Mod(FixId(c.name), [Ord(c.ord)] + NodeWalk(c, [n] + up, ctx).value)
  }

  lemma {:induction false} ChildItems(n: Node, cs: seq<Node>, up: seq<Node>, ctx: Context, i: nat)
    requires (forall c :: c in cs ==> c in n.children) && ChildrenWalk(n, cs, up, ctx).Some?
    ensures |ChildrenWalk(n, cs, up, ctx).value| == |cs|
    ensures i < |cs| ==> ChildItem(n, cs[i], up, ctx, ChildrenWalk(n, cs, up, ctx).value[i])
    decreases |cs|
  {
    if cs != [] {
      assert cs[0] in n.children;
      ChildItems(n, cs[1..], up, ctx, if i > 0 then i - 1 else 0);
    }
    hide NodeWalk;
  }

  // A node's items: one for each property, then one module for each child, in order, then those of its jobs.
  lemma NodeItems(n: Node, up: seq<Node>, ctx: Context, i: nat)
    requires NodeWalk(n, up, ctx).Some?
    ensures var v, np, nc := NodeWalk(n, up, ctx).value, |n.properties|, |n.children|;
      && |v| >= np + nc
      && (i < np ==> PropertyWalk(n.properties[i], ctx) == Some(v[i]))
      && (i < nc ==> ChildItem(n, n.children[i], up, ctx, v[np + i]))
      && GenerateAll(JobsFor(ctx.augs, n, up), n, up, ctx) == Some(v[np + nc..])
  {
    PropertyItems(n.properties, ctx, i);
    ChildItems(n, n.children, up, ctx, i);
    hide PropertyWalk, ChildItem;
  }

  lemma {:induction false} JobsInOrder(a: seq<Job>, b: seq<Job>, n: Node, up: seq<Node>, ctx: Context)
    ensures GenerateAll(a + b, n, up, ctx) ==
      match (GenerateAll(a, n, up, ctx), GenerateAll(b, n, up, ctx))
      case (Some(x), Some(y)) => Some(x + y)
      case _ => None
  {
    hide Generate;
    if a == [] {
      assert a + b == b;
      if GenerateAll(b, n, up, ctx).Some? {
        assert [] + GenerateAll(b, n, up, ctx).value == GenerateAll(b, n, up, ctx).value;
      }
    } else {
      assert (a + b)[1..] == a[1..] + b && (a + b)[0] == a[0];
      JobsInOrder(a[1..], b, n, up, ctx);
      if GenerateAll(a + b, n, up, ctx).Some? {
        var x, y := Generate(a[0], n, up, ctx).value, GenerateAll(a[1..], n, up, ctx).value;
        var z := GenerateAll(b, n, up, ctx).value;
        assert x + (y + z) == x + y + z;
      }
    }
  }

  // ---------------------------------------------------------------- when there is code

  // No phandle that stands alone is without a node.
  ghost predicate PropertyFine(p: Property, ctx: Context) {
    forall lab :: p.value == [Phandle(lab)] ==> lab in ctx.labels
  }

  ghost predicate JobFine(job: Job, n: Node, up: seq<Node>, ctx: Context) {
    match job.action
    case Labels => forall lab :: lab in ctx.keys ==> lab in ctx.labels
    case RawProperties => true
    case Instance(Myself) => true
    case Instance(PhandleOf(prop)) => exists lab, args :: Refers(n, prop, lab, args) && lab in ctx.labels
    case Instance(Parent(level, args)) =>
      level > 0 && ((level <= |up| && !StatusOkay(up[level - 1])) || ArgsOf(args, n, up) != None)
  }

  ghost predicate NodeFine(n: Node, up: seq<Node>, ctx: Context) {
    && (forall p :: p in n.properties ==> PropertyFine(p, ctx))
    && (forall job :: job in JobsFor(ctx.augs, n, up) ==> JobFine(job, n, up, ctx))
  }

  lemma {:induction false} PropertiesRun(ps: seq<Property>, ctx: Context)
    ensures PropertiesWalk(ps, ctx) != None <==> forall p :: p in ps ==> PropertyFine(p, ctx)
  {
    if ps != [] {
      PropertyRuns(ps[0], ctx);
      PropertiesRun(ps[1..], ctx);
      assert ps == [ps[0]] + ps[1..];
      hide PropertyWalk, PropertyFine;
    }
  }

  lemma PropertyRuns(p: Property, ctx: Context)
    ensures PropertyWalk(p, ctx) != None <==> PropertyFine(p, ctx)
  {
    ShortShape(p.value);
    hide FixId, Upper, Fixed;
  }

  lemma {:induction false} LabelsRun(keys: seq<string>, labels: map<string, Node>)
    ensures LabelMods(keys, labels) != None <==> forall lab :: lab in keys ==> lab in labels
  {
    if keys != [] {
      LabelsRun(keys[1..], labels);
      assert keys == [keys[0]] + keys[1..];
    }
  }

  lemma JobRuns(job: Job, n: Node, up: seq<Node>, ctx: Context)
    ensures Generate(job, n, up, ctx) != None <==> JobFine(job, n, up, ctx)
  {
    hide StatusOkay, Refers, Fixed, WordsOf, AllNumbers, ArgsOf, RawProps, LabelMods;
    LabelsRun(ctx.keys, ctx.labels);
    if job.action.Instance? && job.action.raw.PhandleOf? {
      var prop := job.action.raw.prop;
      forall lab, args
        ensures Refers(n, prop, lab, args) <==>
          var ws := WordsOf(n, prop);
          ws.Some? && ws.value != [] && ws.value[0] == Ref(lab) && AllNumbers(ws.value[1..]) == Some(args)
      {
        TargetExactly(n, prop, lab, args);
      }
      if Generate(job, n, up, ctx) != None {
        var ws := WordsOf(n, prop).value;
        assert Refers(n, prop, ws[0].target, AllNumbers(ws[1..]).value);
      }
    }
  }

  lemma {:induction false} JobsRun(jobs: seq<Job>, n: Node, up: seq<Node>, ctx: Context)
    ensures GenerateAll(jobs, n, up, ctx) != None <==> forall job :: job in jobs ==> JobFine(job, n, up, ctx)
  {
    if jobs != [] {
      JobRuns(jobs[0], n, up, ctx);
      JobsRun(jobs[1..], n, up, ctx);
      assert jobs == [jobs[0]] + jobs[1..];
      hide Generate, JobFine;
    }
  }

  // Every node of the tree above or at the end of the chain.
  ghost predicate TreeFine(n: Node, up: seq<Node>, ctx: Context)
    decreases n
  {
    NodeFine(n, up, ctx) && forall c :: c in n.children ==> TreeFine(c, [n] + up, ctx)
  }

  lemma {:induction false} WalkRuns(n: Node, up: seq<Node>, ctx: Context)
    ensures NodeWalk(n, up, ctx) != None <==> TreeFine(n, up, ctx)
    decreases n, 1
  {
    PropertiesRun(n.properties, ctx);
    JobsRun(JobsFor(ctx.augs, n, up), n, up, ctx);
    ChildrenRun(n, n.children, up, ctx);
    hide PropertyFine, JobFine, JobsFor;
  }

  lemma {:induction false} ChildrenRun(n: Node, cs: seq<Node>, up: seq<Node>, ctx: Context)
    requires forall c :: c in cs ==> c in n.children
    ensures ChildrenWalk(n, cs, up, ctx) != None <==> forall c :: c in cs ==> TreeFine(c, [n] + up, ctx)
    decreases n, 0, |cs|
  {
    if cs != [] {
      assert cs[0] in n.children;
      WalkRuns(cs[0], [n] + up, ctx);
      ChildrenRun(n, cs[1..], up, ctx);
      assert cs == [cs[0]] + cs[1..];
      hide NodeWalk, TreeFine;
    }
  }

  lemma {:induction false} ChainFine(n: Node, up: seq<Node>, root: Node, ctx: Context)
    requires TreeFine(root, [], ctx) && IsChain(n, up, root)
    ensures TreeFine(n, up, ctx)
    decreases |up|
  {
    if up != [] {
      ChainFine(up[0], up[1..], root, ctx);
      assert up == [up[0]] + up[1..];
      hide NodeFine;
    }
  }

  lemma {:induction false} AllFine(n: Node, up: seq<Node>, root: Node, ctx: Context)
    requires IsChain(n, up, root)
    requires forall m, ups :: IsChain(m, ups, root) ==> NodeFine(m, ups, ctx)
    ensures TreeFine(n, up, ctx)
    decreases n
  {
    hide NodeFine;
    forall c | c in n.children ensures TreeFine(c, [n] + up, ctx) {
      assert ([n] + up)[1..] == up;
      AllFine(c, [n] + up, root, ctx);
    }
  }

  // Main result: there is code exactly when, in every node, the phandles used have nodes and the instances' arguments
  // can be had.
  lemma CodeExactly(root: Node, ctx: Context)
    ensures NodeWalk(root, [], ctx) != None <==> forall n, up :: IsChain(n, up, root) ==> NodeFine(n, up, ctx)
  {
    hide NodeFine, NodeWalk;
    WalkRuns(root, [], ctx);
    if TreeFine(root, [], ctx) {
      forall n, up | IsChain(n, up, root) ensures NodeFine(n, up, ctx) {
        ChainFine(n, up, root, ctx);
      }
    }
    if forall n, up :: IsChain(n, up, root) ==> NodeFine(n, up, ctx) {
      AllFine(root, [], root, ctx);
    }
  }
}
