/**
 The two walks over a devicetree, the one that generates modules (`node_walk`) and the one that lists their
 names (`output_path_walk`), and where the routes in the generated code lead.
 */
module DtsWalks {
  import opened Prelude
  import opened DtsTree
  import opened DtsOutput
  import B = DtsBuild

  // ---------------------------------------------------------------- the walk that lists names

  function Cfg(name: string): string { "cargo:rustc-cfg=dt=\"" + (name + "\"") }

  // The name of something in the module `name`; None is the root.
  function Inside(name: Option<string>, id: string): string {
    match name
    case Some(x) => x + ("::" + id)
    case None => id
  }

  // `output_path`: a property that is a single phandle counts as a module.
  function PropertyLine(p: Property, name: string): seq<string> {
    if |p.value| == 1 && p.value[0].Phandle? then [Cfg(Inside(Some(name), FixId(p.name)))] else []
  }

  function PropertyLines(ps: seq<Property>, name: string): seq<string> {
    if ps == [] then [] else PropertyLine(ps[0], name) + PropertyLines(ps[1..], name)
  }

  function PathLines(n: Node, name: Option<string>): seq<string>
    decreases n, 1
  {
    ChildLines(n, n.children, name)
  }

  function ChildLines(n: Node, cs: seq<Node>, name: Option<string>): seq<string>
    requires forall c :: c in cs ==> c in n.children
    decreases n, 0, |cs|
  {
    if cs == [] then []
    else
      assert cs[0] in n.children;
      var childName := Inside(name, FixId(cs[0].name));
      [Cfg(childName)] + PropertyLines(cs[0].properties, childName) + PathLines(cs[0], Some(childName))
      + ChildLines(n, cs[1..], name)
  }

  // The lines for the labels, after those for the nodes.
  function LabelLines(keys: seq<string>): seq<string> {
    if keys == [] then [] else [Cfg("labels::" + FixId(keys[0]))] + LabelLines(keys[1..])
  }

  // `output_node_paths`
  function NodePathLines(root: Node, keys: seq<string>): seq<string> {
    PathLines(root, None) + ([Cfg("labels")] + LabelLines(keys))
  }

  lemma Assoc(a: seq<string>, b: seq<string>, c: seq<string>)
    ensures a + (b + c) == a + b + c && a + [] == a
  {
  }

  lemma Regroup(a: seq<string>, b: seq<string>, c: seq<string>, d: seq<string>, e: seq<string>)
    ensures a + (b + c + d + e) == a + b + c + d + e
  {
  }

  // `output_path_walk` as it is, writing line by line.
  class Writer {
    var lines: seq<string>

    constructor ()
      ensures lines == []
    {
      lines := [];
    }

    method OutputPathWalk(n: Node, name: Option<string>)
      modifies this
      ensures lines == old(lines) + PathLines(n, name)
      decreases n
    {
      var i := 0;
      assert lines + [] == lines;
      while i < |n.children|
        invariant i <= |n.children|
        invariant old(lines) + PathLines(n, name) == lines + ChildLines(n, n.children[i..], name)
      {
        var child := n.children[i];
        var childName := Inside(name, FixId(child.name));
        assert n.children[i..][0] == child && n.children[i..][1..] == n.children[i + 1..];
        Regroup(lines, [Cfg(childName)], PropertyLines(child.properties, childName),
                PathLines(child, Some(childName)), ChildLines(n, n.children[i + 1..], name));
        lines := lines + [Cfg(childName)];
        OutputProperties(child.properties, childName);
        OutputPathWalk(child, Some(childName));
        i := i + 1;
      }
      assert lines + [] == lines;
    }

    method OutputProperties(ps: seq<Property>, name: string)
      modifies this
      ensures lines == old(lines) + PropertyLines(ps, name)
    {
      var i := 0;
      assert ps[i..] == ps;
      while i < |ps|
        invariant i <= |ps|
        invariant old(lines) + PropertyLines(ps, name) == lines + PropertyLines(ps[i..], name)
      {
        assert ps[i..][1..] == ps[i + 1..];
        Assoc(lines, PropertyLine(ps[i], name), PropertyLines(ps[i + 1..], name));
        if |ps[i].value| == 1 && ps[i].value[0].Phandle? {
          lines := lines + [Cfg(Inside(Some(name), FixId(ps[i].name)))];
        }
        i := i + 1;
      }
      assert lines + [] == lines;
    }

    method OutputNodePaths(root: Node, keys: seq<string>)
      modifies this
      ensures lines == old(lines) + NodePathLines(root, keys)
    {
      OutputPathWalk(root, None);
      ghost var before := lines;
      Assoc(lines, [Cfg("labels")], LabelLines(keys));
      Assoc(old(lines), PathLines(root, None), [Cfg("labels")] + LabelLines(keys));
      lines := lines + [Cfg("labels")];
      var i := 0;
      assert keys[i..] == keys;
      while i < |keys|
        invariant i <= |keys|
        invariant before + ([Cfg("labels")] + LabelLines(keys)) == lines + LabelLines(keys[i..])
      {
        assert keys[i..][1..] == keys[i + 1..];
        Assoc(lines, [Cfg("labels::" + FixId(keys[i]))], LabelLines(keys[i + 1..]));
        lines := lines + [Cfg("labels::" + FixId(keys[i]))];
        i := i + 1;
      }
      assert lines + [] == lines;
    }
  }

  // ---------------------------------------------------------------- names of module paths

  // A module path as it is written.
  function Written(path: seq<string>): string
    requires path != []
  {
    if |path| == 1 then path[0] else Written(path[..|path| - 1]) + ("::" + path[|path| - 1])
  }

  function CfgLines(paths: seq<seq<string>>): seq<string>
    requires forall i :: 0 <= i < |paths| ==> paths[i] != []
  {
    if paths == [] then []
    else ["cargo:rustc-cfg=dt=\"" + (Written(paths[0]) + "\"")] + CfgLines(paths[1..])
  }

  function NameOf(prefix: seq<string>): Option<string> {
    if prefix == [] then None else Some(Written(prefix))
  }

  lemma InsideWritten(prefix: seq<string>, id: string)
    ensures Written(prefix + [id]) == Inside(NameOf(prefix), id)
  {
    assert (prefix + [id])[..|prefix|] == prefix;
  }

  ghost predicate NonEmpty(paths: seq<seq<string>>) { forall i :: 0 <= i < |paths| ==> paths[i] != [] }

  lemma {:induction false} PathsNonEmpty(items: seq<Item>, prefix: seq<string>)
    ensures NonEmpty(ModPaths(items, prefix))
    decreases items
  {
    if items != [] {
      if items[0].Mod? { PathsNonEmpty(items[0].items, prefix + [items[0].name]); }
      PathsNonEmpty(items[1..], prefix);
    }
  }

  lemma {:induction false} CfgAppend(a: seq<seq<string>>, b: seq<seq<string>>)
    requires NonEmpty(a) && NonEmpty(b)
    ensures NonEmpty(a + b) && CfgLines(a + b) == CfgLines(a) + CfgLines(b)
  {
    if a == [] {
      assert a + b == b;
    } else {
      assert (a + b)[1..] == a[1..] + b && (a + b)[0] == a[0];
      CfgAppend(a[1..], b);
    }
  }

  // The cfg lines of the modules in generated code.
  function Lines(items: seq<Item>, prefix: seq<string>): seq<string> {
    PathsNonEmpty(items, prefix);
    CfgLines(ModPaths(items, prefix))
  }

  lemma LinesAppend(a: seq<Item>, b: seq<Item>, prefix: seq<string>)
    ensures Lines(a + b, prefix) == Lines(a, prefix) + Lines(b, prefix)
  {
    ModPathsAppend(a, b, prefix);
    PathsNonEmpty(a, prefix);
    PathsNonEmpty(b, prefix);
    CfgAppend(ModPaths(a, prefix), ModPaths(b, prefix));
  }

  lemma LinesMod(name: string, its: seq<Item>, prefix: seq<string>)
    ensures Lines([Mod(name, its)], prefix) == [Cfg(Inside(NameOf(prefix), name))] + Lines(its, prefix + [name])
  {
    var p := prefix + [name];
    var m := Mod(name, its);
    assert [m][1..] == [];
    assert ModPaths([m], prefix) == [p] + ModPaths(its, p) + [] == [p] + ModPaths(its, p);
    PathsNonEmpty(its, p);
    CfgAppend([p], ModPaths(its, p));
    assert CfgLines([p]) == [Cfg(Written(p))] + CfgLines([]);
    InsideWritten(prefix, name);
  }

  // ---------------------------------------------------------------- what each generator adds

  function CountLabels(jobs: seq<Job>): nat {
    if jobs == [] then 0 else (if jobs[0].action.Labels? then 1 else 0) + CountLabels(jobs[1..])
  }

  lemma LinesNone(x: Item, prefix: seq<string>)
    requires !x.Mod?
    ensures Lines([x], prefix) == []
  {
    assert [x][1..] == [] && ModPaths([x], prefix) == [] + ModPaths([x][1..], prefix);
  }

  lemma {:induction false} RawLines(ps: seq<Property>, prefix: seq<string>)
    ensures Lines(RawProps(ps), prefix) == []
  {
    if ps != [] {
      RawLines(ps[1..], prefix);
      LinesNone(RawProps(ps)[0], prefix);
      LinesAppend([RawProps(ps)[0]], RawProps(ps[1..]), prefix);
    }
  }

  lemma GenerateLines(job: Job, n: Node, up: seq<Node>, ctx: Context, prefix: seq<string>)
    requires Generate(job, n, up, ctx).Some? && !job.action.Labels?
    ensures Lines(Generate(job, n, up, ctx).value, prefix) == []
  {
    match job.action {
      case RawProperties => RawLines(n.properties, prefix);
      case Instance(raw) =>
        var items := Generate(job, n, up, ctx).value;
        if items != [] { LinesNone(items[0], prefix); assert items == [items[0]]; }
    }
  }

  lemma UseLines(name: string, route: seq<string>, prefix: seq<string>)
    ensures Lines([Mod(name, [Use(route)])], prefix) == [Cfg(Inside(NameOf(prefix), name))]
  {
    LinesMod(name, [Use(route)], prefix);
    LinesNone(Use(route), prefix + [name]);
  }

  lemma {:induction false} LabelModLines(keys: seq<string>, labels: map<string, Node>)
    requires LabelMods(keys, labels).Some?
    ensures Lines(LabelMods(keys, labels).value, ["labels"]) == LabelLines(keys)
  {
    if keys != [] {
      var rest := LabelMods(keys[1..], labels).value;
      LabelModLines(keys[1..], labels);
      var m := Mod(FixId(keys[0]), [Use(Fixed(labels[keys[0]].route))]);
      UseLines(FixId(keys[0]), Fixed(labels[keys[0]].route), ["labels"]);
      LinesAppend([m], rest, ["labels"]);
      assert "labels" + ("::" + FixId(keys[0])) == "labels::" + FixId(keys[0]);
    }
  }

  lemma LabelsLines(job: Job, n: Node, up: seq<Node>, ctx: Context)
    requires job.action.Labels? && Generate(job, n, up, ctx).Some?
    ensures Lines(Generate(job, n, up, ctx).value, []) == [Cfg("labels")] + LabelLines(ctx.keys)
  {
    LabelModLines(ctx.keys, ctx.labels);
    assert [] + ["labels"] == ["labels"];
    LinesMod("labels", LabelMods(ctx.keys, ctx.labels).value, []);
  }

  // Without a Labels action the augmentations add no module.
  lemma {:induction false} NoLabelsLines(jobs: seq<Job>, n: Node, up: seq<Node>, ctx: Context,
                                         prefix: seq<string>)
    requires GenerateAll(jobs, n, up, ctx).Some? && CountLabels(jobs) == 0
    ensures Lines(GenerateAll(jobs, n, up, ctx).value, prefix) == []
  {
    if jobs != [] {
      GenerateLines(jobs[0], n, up, ctx, prefix);
      NoLabelsLines(jobs[1..], n, up, ctx, prefix);
      LinesAppend(Generate(jobs[0], n, up, ctx).value, GenerateAll(jobs[1..], n, up, ctx).value, prefix);
    }
  }

  lemma {:induction false} OneLabelsLines(jobs: seq<Job>, n: Node, up: seq<Node>, ctx: Context)
    requires GenerateAll(jobs, n, up, ctx).Some? && CountLabels(jobs) == 1
    ensures Lines(GenerateAll(jobs, n, up, ctx).value, []) == [Cfg("labels")] + LabelLines(ctx.keys)
  {
    LinesAppend(Generate(jobs[0], n, up, ctx).value, GenerateAll(jobs[1..], n, up, ctx).value, []);
    if jobs[0].action.Labels? {
      LabelsLines(jobs[0], n, up, ctx);
      NoLabelsLines(jobs[1..], n, up, ctx, []);
    } else {
      GenerateLines(jobs[0], n, up, ctx, []);
      OneLabelsLines(jobs[1..], n, up, ctx);
    }
  }

  // The names of the root's own single-phandle properties, which the list of names leaves out.
  function RootLines(ps: seq<Property>): seq<string> {
    if ps == [] then []
    else
      (if |ps[0].value| == 1 && ps[0].value[0].Phandle? then [Cfg(FixId(ps[0].name))] else [])
      + RootLines(ps[1..])
  }

  lemma {:induction false} PropertiesAgree(ps: seq<Property>, ctx: Context, prefix: seq<string>)
    requires PropertiesWalk(ps, ctx).Some?
    ensures Lines(PropertiesWalk(ps, ctx).value, prefix) ==
      if prefix == [] then RootLines(ps) else PropertyLines(ps, Written(prefix))
  {
    if ps != [] {
      var x, rest := PropertyWalk(ps[0], ctx).value, PropertiesWalk(ps[1..], ctx).value;
      PropertiesAgree(ps[1..], ctx, prefix);
      LinesAppend([x], rest, prefix);
      if x.Mod? {
        UseLines(x.name, x.items[0].route, prefix);
        assert x.items == [x.items[0]];
      } else {
        LinesNone(x, prefix);
      }
    }
  }

  // ---------------------------------------------------------------- the two walks agree

  // No node below `n` runs a Labels action.
  ghost predicate NoLabelsBelow(n: Node, up: seq<Node>, ctx: Context) {
    forall c :: c in n.children ==>
      CountLabels(JobsFor(ctx.augs, c, [n] + up)) == 0 && NoLabelsBelow(c, [n] + up, ctx)
  }

  lemma {:induction false} ChildrenAgree(n: Node, cs: seq<Node>, up: seq<Node>, ctx: Context, prefix: seq<string>)
    requires (forall c :: c in cs ==> c in n.children) && NoLabelsBelow(n, up, ctx)
    requires ChildrenWalk(n, cs, up, ctx).Some?
    ensures Lines(ChildrenWalk(n, cs, up, ctx).value, prefix) == ChildLines(n, cs, NameOf(prefix))
    decreases n, 0, |cs|
  {
    if cs != [] {
      var c := cs[0];
      assert c in n.children;
      var x, rest := NodeWalk(c, [n] + up, ctx).value, ChildrenWalk(n, cs[1..], up, ctx).value;
      ChildAgrees(n, c, up, ctx, prefix);
      ChildrenAgree(n, cs[1..], up, ctx, prefix);
      LinesAppend([Mod(FixId(c.name), [Ord(c.ord)] + x)], rest, prefix);
      hide Lines, NodeWalk, PropertyLines, PathLines, Inside, Cfg;
    }
  }

  lemma {:induction false} ChildAgrees(n: Node, c: Node, up: seq<Node>, ctx: Context, prefix: seq<string>)
    requires c in n.children && NoLabelsBelow(n, up, ctx) && NodeWalk(c, [n] + up, ctx).Some?
    ensures var name := Inside(NameOf(prefix), FixId(c.name));
      Lines([Mod(FixId(c.name), [Ord(c.ord)] + NodeWalk(c, [n] + up, ctx).value)], prefix)
      == [Cfg(name)] + PropertyLines(c.properties, name) + PathLines(c, Some(name))
    decreases n, 0, 0
  {
    var id := FixId(c.name);
    var inner, up' := prefix + [id], [n] + up;
    var ps := PropertiesWalk(c.properties, ctx).value;
    var cs := ChildrenWalk(c, c.children, up', ctx).value;
    var jobs := JobsFor(ctx.augs, c, up');
    var as_ := GenerateAll(jobs, c, up', ctx).value;
    InsideWritten(prefix, id);
    LinesMod(id, [Ord(c.ord)] + (ps + cs + as_), prefix);
    LinesAppend([Ord(c.ord)], ps + cs + as_, inner);
    LinesNone(Ord(c.ord), inner);
    LinesAppend(ps + cs, as_, inner);
    LinesAppend(ps, cs, inner);
    PropertiesAgree(c.properties, ctx, inner);
    ChildrenAgree(c, c.children, up', ctx, inner);
    NoLabelsLines(jobs, c, up', ctx, inner);
    hide Lines, PropertyLines, Cfg, Inside, CountLabels;
    assert [] + (Lines(ps, inner) + Lines(cs, inner) + []) == Lines(ps, inner) + Lines(cs, inner);
  }

  // Main result: the cfg lines are the module paths of the generated code, in the same order, but for the
  // modules that the root's own phandle properties make.
  lemma WalksAgree(root: Node, ctx: Context)
    requires NodeWalk(root, [], ctx).Some?
    requires CountLabels(JobsFor(ctx.augs, root, [])) == 1 && NoLabelsBelow(root, [], ctx)
    ensures Lines(NodeWalk(root, [], ctx).value, []) == RootLines(root.properties) + NodePathLines(root, ctx.keys)
  {
    var ps := PropertiesWalk(root.properties, ctx).value;
    var cs := ChildrenWalk(root, root.children, [], ctx).value;
    var jobs := JobsFor(ctx.augs, root, []);
    var as_ := GenerateAll(jobs, root, [], ctx).value;
    LinesAppend(ps + cs, as_, []);
    LinesAppend(ps, cs, []);
    PropertiesAgree(root.properties, ctx, []);
    ChildrenAgree(root, root.children, [], ctx, []);
    OneLabelsLines(jobs, root, [], ctx);
    hide Lines, Cfg, LabelLines, ChildLines;
    Assoc(RootLines(root.properties), PathLines(root, None), [Cfg("labels")] + LabelLines(ctx.keys));
  }

  // One augmentation has one Labels action, for the root only, as in dt-rust.yaml.
  ghost predicate LabelsAtRoot(augs: seq<Augmentation>) {
    exists i :: 0 <= i < |augs| && augs[i].rules == [Root] && CountLabels(Jobs(augs[i])) == 1
             && forall j :: 0 <= j < |augs| && j != i ==> CountLabels(Jobs(augs[j])) == 0
  }

  lemma {:induction false} CountAppend(a: seq<Job>, b: seq<Job>)
    ensures CountLabels(a + b) == CountLabels(a) + CountLabels(b)
  {
    if a == [] {
      assert a + b == b;
    } else {
      assert (a + b)[1..] == a[1..] + b && (a + b)[0] == a[0];
      CountAppend(a[1..], b);
    }
  }

  lemma {:induction false} CountZero(augs: seq<Augmentation>, n: Node, up: seq<Node>)
    requires forall j :: 0 <= j < |augs| ==> CountLabels(Jobs(augs[j])) == 0
    ensures CountLabels(JobsFor(augs, n, up)) == 0
  {
    if augs != [] {
      CountZero(augs[1..], n, up);
      CountAppend(Jobs(augs[0]), JobsFor(augs[1..], n, up));
      CountAppend([], JobsFor(augs[1..], n, up));
    }
  }

  lemma {:induction false} CountRun(augs: seq<Augmentation>, i: nat, n: Node, up: seq<Node>)
    requires i < |augs| && augs[i].rules == [Root] && CountLabels(Jobs(augs[i])) == 1
    requires forall j :: 0 <= j < |augs| && j != i ==> CountLabels(Jobs(augs[j])) == 0
    ensures CountLabels(JobsFor(augs, n, up)) == if up == [] then 1 else 0
  {
    var rest := JobsFor(augs[1..], n, up);
    CountAppend(Jobs(augs[0]), rest);
    CountAppend([], rest);
    if i == 0 {
      CountZero(augs[1..], n, up);
      assert Matches(Root, n, up) == (up == []);
      assert (forall r :: r in augs[0].rules ==> Matches(r, n, up)) == (up == []) by {
        assert Root in augs[0].rules;
      }
    } else {
      CountRun(augs[1..], i - 1, n, up);
    }
  }

  lemma {:induction false} NoneBelow(n: Node, up: seq<Node>, ctx: Context)
    requires LabelsAtRoot(ctx.augs)
    ensures NoLabelsBelow(n, up, ctx)
  {
    var i :| 0 <= i < |ctx.augs| && ctx.augs[i].rules == [Root] && CountLabels(Jobs(ctx.augs[i])) == 1
          && forall j :: 0 <= j < |ctx.augs| && j != i ==> CountLabels(Jobs(ctx.augs[j])) == 0;
    forall c | c in n.children
      ensures CountLabels(JobsFor(ctx.augs, c, [n] + up)) == 0 && NoLabelsBelow(c, [n] + up, ctx)
    {
      CountRun(ctx.augs, i, c, [n] + up);
      NoneBelow(c, [n] + up, ctx);
    }
  }

  // So with the augmentations of dt-rust.yaml the two walks agree on every devicetree.
  lemma WalksAgreeAtRoot(root: Node, ctx: Context)
    requires NodeWalk(root, [], ctx).Some? && LabelsAtRoot(ctx.augs)
    ensures Lines(NodeWalk(root, [], ctx).value, []) == RootLines(root.properties) + NodePathLines(root, ctx.keys)
  {
    var i :| 0 <= i < |ctx.augs| && ctx.augs[i].rules == [Root] && CountLabels(Jobs(ctx.augs[i])) == 1
          && forall j :: 0 <= j < |ctx.augs| && j != i ==> CountLabels(Jobs(ctx.augs[j])) == 0;
    CountRun(ctx.augs, i, root, []);
    NoneBelow(root, [], ctx);
    WalksAgree(root, ctx);
  }
}
