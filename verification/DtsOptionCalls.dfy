/**
 The GPIO keys of dt-rust.yaml: the instance of a key is always compiled, the function it calls in the module of
 its controller only with CONFIG_GPIO.
 */
module DtsOptionCalls {
  import opened Prelude
  import G = DtsGrammar
  import opened DtsTree
  import opened DtsPrint
  import opened DtsOutput
  import opened DtsCalls
  import B = DtsBuild

  const CONTROLLER := Node("gpio", "/gpio", ["gpio"], 1, ["ctl"], [Property("gpio-controller", [])], [])
  const KEY :=
    Node("key", "/keys/key", ["keys", "key"], 3, [], [Property("gpios", [Words([Ref("ctl"), Number(1)])])], [])
  const KEYS := Node("keys", "/keys", ["keys"], 2, [], [Property("compatible", [Str("gpio-keys")])], [KEY])
  const ROOT := Node("/", "/", [], 0, [], [], [CONTROLLER, KEYS])
  const ORDS: OrdMap := map["/" := 0, "/gpio" := 1, "/keys" := 2, "/keys/key" := 3]

  const GPIO := "CONFIG_GPIO"

  // The first three entries of dt-rust.yaml.
  const AUGMENTATIONS := [
    Augmentation([HasProp("gpio-controller")], [Instance(Myself)], Some(GPIO)),
    Augmentation([Compatible(["gpio-leds"], 1)], [Instance(PhandleOf("gpios"))], Some(GPIO)),
    Augmentation([Compatible(["gpio-keys"], 1)], [Instance(PhandleOf("gpios"))], None)]

  const CONTEXT := Context(map["ctl" := CONTROLLER], ["ctl"], AUGMENTATIONS)

  // ---------------------------------------------------------------- the tree is parsed

  lemma NodesGood()
    ensures GoodNode(CONTROLLER) && GoodNode(KEY) && GoodNode(KEYS)
    ensures GoodName("gpio") && GoodName("key") && GoodName("keys")
  {
    assert GoodWord(Ref("ctl")) && GoodWord(Number(1));
    assert forall c :: c in KEYS.children ==> c == KEY;
  }

  lemma NodesPlaced()
    ensures B.Placed(CONTROLLER, ORDS) && B.Placed(KEY, ORDS) && B.Placed(KEYS, ORDS)
  {
    NodesGood();
    assert B.Slashed(["gpio"]) == "/" + ("gpio" + B.Slashed([]));
    assert B.Slashed(["keys"]) == "/" + ("keys" + B.Slashed([]));
    assert ["keys", "key"][1..] == ["key"];
    assert B.Slashed(["key"]) == "/" + ("key" + B.Slashed([]));
    assert B.Slashed(["keys", "key"]) == "/" + ("keys" + B.Slashed(["key"]));
    assert KEY.path == "/" + ("keys" + ("/" + "key"));
    assert forall c :: c in KEYS.children ==> c == KEY;
    assert ["keys"] + ["key"] == ["keys", "key"];
  }

  lemma TreeGood()
    ensures GoodTree(ROOT) && B.PlacedRoot(ROOT, ORDS)
  {
    NodesGood();
    NodesPlaced();
    assert forall c :: c in ROOT.children ==> c == CONTROLLER || c == KEYS;
    assert forall c :: c in ROOT.children ==> c.route == ROOT.route + [c.name];
  }

  lemma TreeLabels()
    ensures InsertAll(map[], ROOT) == CONTEXT.labels
  {
    var m: map<string, Node> := map[];
    assert InsertAll(m, CONTROLLER) == InsertLabels(InsertChildren(m, CONTROLLER, []), ["ctl"], CONTROLLER);
    assert InsertLabels(m, ["ctl"], CONTROLLER) == m["ctl" := CONTROLLER];
    var m1 := m["ctl" := CONTROLLER];
    assert InsertAll(m1, KEY) == m1;
    assert KEYS.children[..0] == [] && InsertChildren(m1, KEYS, KEYS.children[..0]) == m1;
    assert InsertChildren(m1, KEYS, KEYS.children) == m1;
    assert InsertAll(m1, KEYS) == m1;
    var cs := ROOT.children;
    assert cs[..1] == [CONTROLLER] && cs[..1][..0] == [];
    assert InsertChildren(m, ROOT, cs[..1][..0]) == m;
    assert InsertChildren(m, ROOT, cs[..1]) == m1;
    assert InsertChildren(m, ROOT, cs) == m1;
  }

  // ---------------------------------------------------------------- its code

  // The three entries, each with its one rule.
  lemma Unrolled(n: Node, up: seq<Node>)
    ensures JobsFor(AUGMENTATIONS, n, up) ==
      (if HasProperty(n, "gpio-controller") then [Job(Instance(Myself), Some(GPIO))] else [])
      + (if ParentCompatible(n, up, ["gpio-leds"], 1) then [Job(Instance(PhandleOf("gpios")), Some(GPIO))] else [])
      + (if ParentCompatible(n, up, ["gpio-keys"], 1) then [Job(Instance(PhandleOf("gpios")), None)] else [])
  {
    var a := AUGMENTATIONS;
    assert a[0].rules[0] in a[0].rules && a[1].rules[0] in a[1].rules && a[2].rules[0] in a[2].rules;
    assert Matches(a[0].rules[0], n, up) == HasProperty(n, "gpio-controller");
    assert Matches(a[1].rules[0], n, up) == ParentCompatible(n, up, ["gpio-leds"], 1);
    assert Matches(a[2].rules[0], n, up) == ParentCompatible(n, up, ["gpio-keys"], 1);
    assert a[1..] == [a[1], a[2]] && a[1..][1..] == [a[2]] && a[1..][1..][1..] == [];
    assert JobsFor(a[1..][1..][1..], n, up) == [];
    hide Matches, ParentCompatible, HasProperty;
    assert JobsFor(a[1..][1..], n, up) ==
      if ParentCompatible(n, up, ["gpio-keys"], 1) then [Job(Instance(PhandleOf("gpios")), None)] else [];
  }

  lemma Parents()
    ensures !NodeCompatible(ROOT, "gpio-leds") && !NodeCompatible(ROOT, "gpio-keys")
    ensures !NodeCompatible(KEYS, "gpio-leds") && NodeCompatible(KEYS, "gpio-keys")
  {
    var p := KEYS.properties[0];
    assert p in KEYS.properties && p.value[0] == Str("gpio-keys");
    assert "gpio-keys"[5] != "gpio-leds"[5];
    assert forall q :: q in KEYS.properties ==> q == p;
    assert forall v :: v in p.value ==> v == Str("gpio-keys");
  }

  lemma Properties()
    ensures HasProperty(CONTROLLER, "gpio-controller") && !HasProperty(ROOT, "gpio-controller")
    ensures !HasProperty(KEYS, "gpio-controller") && !HasProperty(KEY, "gpio-controller")
  {
    assert CONTROLLER.properties[0] in CONTROLLER.properties;
    assert "gpio-controller"[0] != "compatible"[0];
    assert |"gpio-controller"| != |"gpios"|;
  }

  lemma TreeJobs()
    ensures JobsFor(AUGMENTATIONS, ROOT, []) == [] && JobsFor(AUGMENTATIONS, KEYS, [ROOT]) == []
    ensures JobsFor(AUGMENTATIONS, CONTROLLER, [ROOT]) == [Job(Instance(Myself), Some(GPIO))]
    ensures JobsFor(AUGMENTATIONS, KEY, [KEYS, ROOT]) == [Job(Instance(PhandleOf("gpios")), None)]
  {
    Parents();
    Properties();
    Unrolled(ROOT, []);
    Unrolled(KEYS, [ROOT]);
    Unrolled(CONTROLLER, [ROOT]);
    Unrolled(KEY, [KEYS, ROOT]);
    assert "gpio-leds" in ["gpio-leds"] && "gpio-keys" in ["gpio-keys"];
    CompatibleLevel(KEYS, [ROOT], ["gpio-leds"], 1);
    CompatibleLevel(KEYS, [ROOT], ["gpio-keys"], 1);
    CompatibleLevel(CONTROLLER, [ROOT], ["gpio-leds"], 1);
    CompatibleLevel(CONTROLLER, [ROOT], ["gpio-keys"], 1);
    CompatibleLevel(KEY, [KEYS, ROOT], ["gpio-leds"], 1);
    CompatibleLevel(KEY, [KEYS, ROOT], ["gpio-keys"], 1);
    CompatibleLevel(ROOT, [], ["gpio-leds"], 1);
    CompatibleLevel(ROOT, [], ["gpio-keys"], 1);
    hide NodeCompatible, HasProperty, ParentCompatible, JobsFor;
  }

  lemma NamesFixed()
    ensures Fixed([]) == [] && Fixed(["gpio"]) == ["gpio"]
    ensures Fixed(["keys"]) == ["keys"] && Fixed(["keys", "key"]) == ["keys", "key"]
  {
    assert FixId("io") == "io" && "gpio"[1..] == "pio" && "pio"[1..] == "io";
    assert FixId("pio") == "pio" && FixId("gpio") == "gpio";
    assert "key"[1..] == "ey" && FixId("ey") == "ey" && FixId("key") == "key";
    assert "keys"[1..] == "eys" && "eys"[1..] == "ys" && FixId("ys") == "ys";
    assert FixId("eys") == "eys" && FixId("keys") == "keys";
  }

  lemma KeyCalls()
    ensures GenerateRaw(PhandleOf("gpios"), None, KEY, [KEYS, ROOT], CONTEXT) == Some([CallAt(["gpio"], [1], None)])
  {
    var ws: seq<Word> := [Ref("ctl"), Number(1)];
    assert WordsOf(KEY, "gpios") == Some(ws);
    assert ws[1..] == [Number(1)] && ws[1..][1..] == [] && AllNumbers(ws[1..][1..]) == Some([]);
    var one: seq<nat> := [1];
    assert one + [] == one && AllNumbers(ws[1..]) == Some(one + []);
    NamesFixed();
  }

  // A node with one property and at most one job.
  lemma OneWalks(n: Node, up: seq<Node>, jobs: seq<Job>)
    requires JobsFor(AUGMENTATIONS, n, up) == jobs && |jobs| <= 1 && |n.properties| <= 1
    requires jobs != [] ==> Generate(jobs[0], n, up, CONTEXT).Some?
    requires n.properties != [] ==> PropertyWalk(n.properties[0], CONTEXT).Some?
    requires ChildrenWalk(n, n.children, up, CONTEXT).Some?
    ensures NodeWalk(n, up, CONTEXT).Some?
  {
    var ps := n.properties;
    if ps != [] { assert ps[1..] == [] && PropertiesWalk(ps[1..], CONTEXT) == Some([]); }
    if jobs != [] { assert jobs[1..] == [] && GenerateAll(jobs[1..], n, up, CONTEXT) == Some([]); }
    hide Generate, PropertyWalk, ChildrenWalk, JobsFor;
  }

  lemma TreeWalks()
    ensures NodeWalk(ROOT, [], CONTEXT).Some?
  {
    var ctx := CONTEXT;
    TreeJobs();
    KeyCalls();
    hide JobsFor, GenerateRaw, NodeWalk;
    assert Generate(Job(Instance(Myself), Some(GPIO)), CONTROLLER, [ROOT], ctx).Some? by { Okay(); }
    OneWalks(CONTROLLER, [ROOT], [Job(Instance(Myself), Some(GPIO))]);
    OneWalks(KEY, [KEYS, ROOT], [Job(Instance(PhandleOf("gpios")), None)]);
    assert [KEYS] + [ROOT] == [KEYS, ROOT] && [ROOT] + [] == [ROOT];
    assert KEYS.children[1..] == [] && ChildrenWalk(KEYS, KEYS.children[1..], [ROOT], ctx) == Some([]);
    assert ChildrenWalk(KEYS, KEYS.children, [ROOT], ctx).Some?;
    OneWalks(KEYS, [ROOT], []);
    var cs := ROOT.children;
    assert cs[1..] == [KEYS] && cs[1..][1..] == [];
    assert ChildrenWalk(ROOT, cs[1..][1..], [], ctx) == Some([]);
    assert ChildrenWalk(ROOT, cs[1..], [], ctx).Some?;
    assert ChildrenWalk(ROOT, cs, [], ctx).Some?;
    OneWalks(ROOT, [], []);
  }

  lemma Okay()
    ensures StatusOkay(CONTROLLER)
    ensures GenerateRaw(Myself, Some(GPIO), CONTROLLER, [ROOT], CONTEXT) == Some([InstanceRaw(1, Some(GPIO))])
  {
    assert |"gpio-controller"| != |"status"|;
    assert CONTROLLER.properties[1..] == [];
  }

  // ---------------------------------------------------------------- when the function is there

  lemma {:induction false} Chains(n: Node, up: seq<Node>)
    requires IsChain(n, up, ROOT)
    ensures || (n == ROOT && up == [])
            || ((n == CONTROLLER || n == KEYS) && up == [ROOT])
            || (n == KEY && up == [KEYS, ROOT])
    decreases |up|
  {
    if up != [] {
      Chains(up[0], up[1..]);
      assert up == [up[0]] + up[1..];
    }
  }

  lemma TreeDistinct()
    ensures Distinct(ROOT)
  {
    NamesFixed();
    assert "gpio"[0] != "keys"[0];
    forall n, up, m, up' | IsChain(n, up, ROOT) && IsChain(m, up', ROOT) && Fixed(n.route) == Fixed(m.route)
      ensures n == m
    {
      Chains(n, up);
      Chains(m, up');
    }
  }

  lemma ControllerHas(on: set<string>)
    ensures HasOwn(ROOT, CONTROLLER, CONTEXT, on) <==> GPIO in on
  {
    TreeJobs();
    Okay();
    hide JobsFor, StatusOkay;
    assert CONTROLLER in ROOT.children && IsChain(CONTROLLER, [ROOT], ROOT) by { assert [ROOT][1..] == []; }
    if GPIO in on {
      assert OwnInstance(CONTROLLER, [ROOT], Some(GPIO), CONTEXT) && Present(Some(GPIO), on);
    }
    forall up, cfg | IsChain(CONTROLLER, up, ROOT) && OwnInstance(CONTROLLER, up, cfg, CONTEXT)
      ensures cfg == Some(GPIO)
    {
      Chains(CONTROLLER, up);
    }
  }

  // The devicetree is that of some text and no two of its nodes share a module.  The key's call is compiled under
  // all options; the function it calls is there exactly with CONFIG_GPIO, although the controller is okay.
  lemma KeyNeedsGpio() returns (text: string)
    ensures Parse(text, ORDS) == Some(DeviceTree(ROOT, CONTEXT.labels))
    ensures NodeWalk(ROOT, [], CONTEXT).Some? && Distinct(ROOT)
    ensures var code, call := NodeWalk(ROOT, [], CONTEXT).value, Spot(["keys", "key"], CallAt(["gpio"], [1], None));
      && call in Spots(code, []) && (forall on :: Present(call.item.cfg, on))
      && forall on :: FunctionIn(code, CalledModule(call), on) <==> GPIO in on
  {
    TreeGood();
    TreeLabels();
    text := Print(ROOT);
    B.RoundTrip(ROOT, ORDS);
    TreeWalks();
    TreeDistinct();
    hide Print, GoodTree, Parse, InsertAll, Distinct;
    CallIsThere();
    forall on
      ensures FunctionIn(NodeWalk(ROOT, [], CONTEXT).value, Some(["gpio"]), on) <==> GPIO in on
    {
      FunctionWithGpio(on);
    }
    hide NodeWalk, Spots;
  }

  lemma CallIsThere()
    requires B.PlacedRoot(ROOT, ORDS) && NodeWalk(ROOT, [], CONTEXT).Some?
    ensures Spot(["keys", "key"], CallAt(["gpio"], [1], None)) in Spots(NodeWalk(ROOT, [], CONTEXT).value, [])
  {
    var call := Spot(["keys", "key"], CallAt(["gpio"], [1], None));
    TreeJobs();
    KeyCalls();
    NamesFixed();
    hide JobsFor, GenerateRaw, NodeWalk, Spots, B.PlacedRoot;
    assert [KEYS, ROOT][1..] == [ROOT] && [ROOT][1..] == [];
    assert KEYS in ROOT.children && KEY in KEYS.children;
    assert IsChain(KEYS, [ROOT], ROOT);
    assert IsChain(KEY, [KEYS, ROOT], ROOT);
    assert Makes(KEY, [KEYS, ROOT], PhandleOf("gpios"), CONTEXT, call);
    MadeExactly(ROOT, ORDS, CONTEXT, call);
  }

  lemma FunctionWithGpio(on: set<string>)
    requires B.PlacedRoot(ROOT, ORDS) && NodeWalk(ROOT, [], CONTEXT).Some? && Distinct(ROOT)
    ensures FunctionIn(NodeWalk(ROOT, [], CONTEXT).value, Some(["gpio"]), on) <==> GPIO in on
  {
    NamesFixed();
    ControllerHas(on);
    FunctionExactly(ROOT, ORDS, CONTEXT, ["gpio"], on);
    assert IsChain(CONTROLLER, [ROOT], ROOT) by { assert [ROOT][1..] == []; }
    SameModule(ROOT, CONTROLLER, CONTEXT, on);
    hide NodeWalk, Spots, HasOwn, B.PlacedRoot, Distinct;
  }
}
