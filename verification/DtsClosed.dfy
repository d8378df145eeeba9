/**
 The code generated for a devicetree names only modules that are generated.
 */
module DtsClosed {
  import opened Prelude
  import opened DtsTree
  import opened DtsOutput
  import B = DtsBuild

  // ---------------------------------------------------------------- routes come from labels

  // Every route is that of a labelled node.
  ghost predicate FromLabels(items: seq<Item>, ctx: Context) {
    forall r :: r in Routes(items) ==> exists lab :: lab in ctx.labels && r == Fixed(ctx.labels[lab].route)
  }

  lemma FromAppend(a: seq<Item>, b: seq<Item>, ctx: Context)
    requires FromLabels(a, ctx) && FromLabels(b, ctx)
    ensures FromLabels(a + b, ctx)
  {
    RoutesAppend(a, b);
  }

  lemma OneItem(x: Item)
    ensures Routes([x]) ==
      match x
      case Mod(_, its) => Routes(its)
      case Use(r) => {r}
      case CallAt(r, _, _) => {r}
      case _ => {}
  {
    assert [x][1..] == [] && Routes([x][1..]) == {};
  }

  lemma FromTarget(x: Item, lab: string, ctx: Context)
    requires lab in ctx.labels
    requires (x.CallAt? && x.route == Fixed(ctx.labels[lab].route))
          || (x.Mod? && x.items == [Use(Fixed(ctx.labels[lab].route))])
    ensures FromLabels([x], ctx)
  {
    OneItem(x);
    OneItem(Use(Fixed(ctx.labels[lab].route)));
  }

  lemma {:induction false} PropertiesFrom(ps: seq<Property>, ctx: Context)
    requires PropertiesWalk(ps, ctx).Some?
    ensures FromLabels(PropertiesWalk(ps, ctx).value, ctx)
  {
    if ps != [] {
      var x := PropertyWalk(ps[0], ctx).value;
      PropertiesFrom(ps[1..], ctx);
      if x.Mod? {
        FromTarget(x, ps[0].value[0].target, ctx);
      } else {
        OneItem(x);
      }
      FromAppend([x], PropertiesWalk(ps[1..], ctx).value, ctx);
    }
  }

  lemma {:induction false} LabelModsFrom(keys: seq<string>, ctx: Context)
    requires LabelMods(keys, ctx.labels).Some?
    ensures FromLabels(LabelMods(keys, ctx.labels).value, ctx)
  {
    if keys != [] {
      LabelModsFrom(keys[1..], ctx);
      var x := LabelMods(keys, ctx.labels).value[0];
      FromTarget(x, keys[0], ctx);
      FromAppend([x], LabelMods(keys[1..], ctx.labels).value, ctx);
    }
  }

  lemma {:induction false} RawFrom(ps: seq<Property>, ctx: Context)
    ensures FromLabels(RawProps(ps), ctx)
  {
    if ps != [] {
      RawFrom(ps[1..], ctx);
      OneItem(RawProps(ps)[0]);
      FromAppend([RawProps(ps)[0]], RawProps(ps[1..]), ctx);
    }
  }

  lemma GenerateFrom(job: Job, n: Node, up: seq<Node>, ctx: Context)
    requires Generate(job, n, up, ctx).Some?
    ensures FromLabels(Generate(job, n, up, ctx).value, ctx)
  {
    var items := Generate(job, n, up, ctx).value;
    match job.action {
      case RawProperties => RawFrom(n.properties, ctx);
      case Labels =>
        LabelModsFrom(ctx.keys, ctx);
        OneItem(items[0]);
        assert items == [items[0]];
      case Instance(raw) =>
        if items != [] {
          assert items == [items[0]];
          OneItem(items[0]);
          if raw.PhandleOf? { FromTarget(items[0], WordsOf(n, raw.prop).value[0].target, ctx); }
        }
    }
  }

  lemma {:induction false} JobsFrom(jobs: seq<Job>, n: Node, up: seq<Node>, ctx: Context)
    requires GenerateAll(jobs, n, up, ctx).Some?
    ensures FromLabels(GenerateAll(jobs, n, up, ctx).value, ctx)
  {
    if jobs != [] {
      GenerateFrom(jobs[0], n, up, ctx);
      JobsFrom(jobs[1..], n, up, ctx);
      FromAppend(Generate(jobs[0], n, up, ctx).value, GenerateAll(jobs[1..], n, up, ctx).value, ctx);
    }
  }

  lemma {:induction false} NodeFrom(n: Node, up: seq<Node>, ctx: Context)
    requires NodeWalk(n, up, ctx).Some?
    ensures FromLabels(NodeWalk(n, up, ctx).value, ctx)
    decreases n, 1
  {
    var ps, cs := PropertiesWalk(n.properties, ctx).value, ChildrenWalk(n, n.children, up, ctx).value;
    PropertiesFrom(n.properties, ctx);
    ChildrenFrom(n, n.children, up, ctx);
    JobsFrom(JobsFor(ctx.augs, n, up), n, up, ctx);
    FromAppend(ps, cs, ctx);
    FromAppend(ps + cs, GenerateAll(JobsFor(ctx.augs, n, up), n, up, ctx).value, ctx);
  }

  lemma {:induction false} ChildrenFrom(n: Node, cs: seq<Node>, up: seq<Node>, ctx: Context)
    requires (forall c :: c in cs ==> c in n.children) && ChildrenWalk(n, cs, up, ctx).Some?
    ensures FromLabels(ChildrenWalk(n, cs, up, ctx).value, ctx)
    decreases n, 0, |cs|
  {
    if cs != [] {
      assert cs[0] in n.children;
      var x := NodeWalk(cs[0], [n] + up, ctx).value;
      var m := Mod(FixId(cs[0].name), [Ord(cs[0].ord)] + x);
      NodeFrom(cs[0], [n] + up, ctx);
      ChildrenFrom(n, cs[1..], up, ctx);
      OneItem(Ord(cs[0].ord));
      FromAppend([Ord(cs[0].ord)], x, ctx);
      OneItem(m);
      FromAppend([m], ChildrenWalk(n, cs[1..], up, ctx).value, ctx);
      hide Routes, NodeWalk;
    }
  }

  // ---------------------------------------------------------------- nodes have modules

  lemma FixedAppend(route: seq<string>, name: string)
    ensures Fixed(route + [name]) == Fixed(route) + [FixId(name)]
  {
  }

  // A node below `m` has a module inside m's.
  lemma {:induction false} HasModule(n: Node, m: Node, up: seq<Node>, ctx: Context, ords: OrdMap)
    requires B.IsIn(n, m) && n != m && B.Placed(m, ords) && NodeWalk(m, up, ctx).Some?
    ensures Fixed(n.route) in ModPaths(NodeWalk(m, up, ctx).value, Fixed(m.route))
    decreases m, 1
  {
    var c :| c in m.children && B.IsIn(n, c);
    var ps, cs := PropertiesWalk(m.properties, ctx).value, ChildrenWalk(m, m.children, up, ctx).value;
    var as_ := GenerateAll(JobsFor(ctx.augs, m, up), m, up, ctx).value;
    ChildHasModule(n, c, m, m.children, up, ctx, ords);
    ModPathsAppend(ps, cs, Fixed(m.route));
    ModPathsAppend(ps + cs, as_, Fixed(m.route));
  }

  lemma {:induction false} ChildHasModule(n: Node, c: Node, m: Node, cs: seq<Node>, up: seq<Node>, ctx: Context,
                                          ords: OrdMap)
    requires (forall d :: d in cs ==> d in m.children) && c in cs && B.IsIn(n, c)
    requires B.Placed(m, ords) && ChildrenWalk(m, cs, up, ctx).Some?
    ensures Fixed(n.route) in ModPaths(ChildrenWalk(m, cs, up, ctx).value, Fixed(m.route))
    decreases m, 0, |cs|
  {
    var d := cs[0];
    assert d in m.children;
    var x, rest := NodeWalk(d, [m] + up, ctx).value, ChildrenWalk(m, cs[1..], up, ctx).value;
    var prefix, inner := Fixed(m.route), Fixed(d.route);
    var mod := Mod(FixId(d.name), [Ord(d.ord)] + x);
    FixedAppend(m.route, d.name);
    assert inner == prefix + [mod.name];
    assert ModPaths([mod] + rest, prefix) == [inner] + ModPaths(mod.items, inner) + ModPaths(rest, prefix) by {
      Cons(mod, rest);
    }
    if c == d {
      ModPathsAppend([Ord(d.ord)], x, inner);
      if n != d { HasModule(n, d, [m] + up, ctx, ords); }
    } else {
      ChildHasModule(n, c, m, cs[1..], up, ctx, ords);
    }
  }

  // Main result: every route in the code generated for a parsed devicetree is the devicetree module itself or
  // a module that is generated.
  lemma Closed(text: string, ords: OrdMap, ctx: Context, r: seq<string>)
    requires Parse(text, ords).Some? && ctx.labels == Parse(text, ords).value.labels
    requires NodeWalk(Parse(text, ords).value.root, [], ctx).Some?
    requires r in Routes(NodeWalk(Parse(text, ords).value.root, [], ctx).value)
    ensures r == [] || r in ModPaths(NodeWalk(Parse(text, ords).value.root, [], ctx).value, [])
  {
    var dt := Parse(text, ords).value;
    NodeFrom(dt.root, [], ctx);
    var lab :| lab in ctx.labels && r == Fixed(ctx.labels[lab].route);
    B.LabelsResolve(text, ords, lab);
    B.ParsePlaces(text, ords, dt.root);
    var n := ctx.labels[lab];
    assert Fixed([]) == [];
    if n != dt.root {
      HasModule(n, dt.root, [], ctx, ords);
    }
  }
}
