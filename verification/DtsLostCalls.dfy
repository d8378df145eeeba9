/**
 A devicetree whose generated code calls two functions that are not there: one in the module of a disabled GPIO
 controller, and one beyond the root.
 */
module DtsLostCalls {
  import opened Prelude
  import G = DtsGrammar
  import opened DtsTree
  import opened DtsPrint
  import opened DtsOutput
  import opened DtsCalls
  import B = DtsBuild
  import E = DtsExact

  const CONTROLLER := Node("gpio", "/gpio", ["gpio"], 1, ["ctl"], [Property("status", [Str("disabled")])], [])
  const LED := Node("led", "/led", ["led"], 2, [], [Property("gpios", [Words([Ref("ctl"), Number(1)])])], [])
  const ROOT := Node("/", "/", [], 0, [], [], [CONTROLLER, LED])
  const ORDS: OrdMap := map["/" := 0, "/gpio" := 1, "/led" := 2]

  // Nodes with a status have instances of their own; nodes with gpios have one of the controller the gpios name,
  // and one of the parent of their parent.
  const AUGMENTATIONS := [
    Augmentation([HasProp("status")], [Instance(Myself)], None),
    Augmentation([HasProp("gpios")], [Instance(PhandleOf("gpios")), Instance(Parent(2, []))], None)]

  const CONTEXT := Context(map["ctl" := CONTROLLER], ["ctl"], AUGMENTATIONS)

  // ---------------------------------------------------------------- the tree is parsed

  lemma LeafGood(n: Node)
    requires n == CONTROLLER || n == LED
    ensures GoodNode(n) && GoodName(n.name)
  {
    if n == LED { assert GoodWord(Ref("ctl")) && GoodWord(Number(1)); }
  }

  lemma LeafPlaced(n: Node)
    requires n == CONTROLLER || n == LED
    ensures B.Placed(n, ORDS)
  {
    assert B.Slashed([n.name]) == "/" + (n.name + B.Slashed([]));
    assert n.path == "/" + n.name;
    LeafGood(n);
  }

  lemma TreeGood()
    ensures GoodTree(ROOT) && B.PlacedRoot(ROOT, ORDS)
  {
    forall c | c in ROOT.children ensures GoodName(c.name) && GoodNode(c) && B.Placed(c, ORDS) {
      LeafGood(c);
      LeafPlaced(c);
    }
    assert forall c :: c in ROOT.children ==> c.route == ROOT.route + [c.name];
  }

  lemma TreeLabels()
    ensures InsertAll(map[], ROOT) == CONTEXT.labels
  {
    var m: map<string, Node> := map[];
    assert InsertAll(m, CONTROLLER) == InsertLabels(InsertChildren(m, CONTROLLER, []), ["ctl"], CONTROLLER);
    assert InsertLabels(m, ["ctl"], CONTROLLER) == m["ctl" := CONTROLLER];
    var m1 := m["ctl" := CONTROLLER];
    assert InsertAll(m1, LED) == m1;
    var cs := ROOT.children;
    assert cs[..1] == [CONTROLLER] && cs[..1][..0] == [];
    assert InsertChildren(m, ROOT, cs[..1][..0]) == m;
    assert InsertChildren(m, ROOT, cs[..1]) == m1;
    assert InsertChildren(m, ROOT, cs) == m1;
  }

  // ---------------------------------------------------------------- its code

  lemma LeafActions()
    ensures JobsFor(AUGMENTATIONS, CONTROLLER, [ROOT]) == [Job(Instance(Myself), None)]
    ensures JobsFor(AUGMENTATIONS, LED, [ROOT]) ==
      [Job(Instance(PhandleOf("gpios")), None), Job(Instance(Parent(2, [])), None)]
  {
    var a := AUGMENTATIONS;
    assert a[1..] == [a[1]] && a[1..][1..] == [];
    assert CONTROLLER.properties[0] in CONTROLLER.properties && LED.properties[0] in LED.properties;
    assert forall p :: p in CONTROLLER.properties ==> p.name == "status";
    assert forall p :: p in LED.properties ==> p.name == "gpios";
    assert "gpios"[0] != "status"[0];
    assert a[0].rules == [HasProp("status")] && a[1].rules == [HasProp("gpios")];
    assert HasProperty(CONTROLLER, "status") && !HasProperty(CONTROLLER, "gpios");
    assert HasProperty(LED, "gpios") && !HasProperty(LED, "status");
    assert Matches(HasProp("status"), CONTROLLER, [ROOT]) && !Matches(HasProp("gpios"), CONTROLLER, [ROOT]);
    assert Matches(HasProp("gpios"), LED, [ROOT]) && !Matches(HasProp("status"), LED, [ROOT]);
    assert JobsFor(a[1..][1..], CONTROLLER, [ROOT]) == [] && JobsFor(a[1..][1..], LED, [ROOT]) == [];
    assert HasProp("gpios") in a[1].rules && HasProp("status") in a[0].rules;
    assert JobsFor(a[1..], CONTROLLER, [ROOT]) == [];
    assert JobsFor(a[1..], LED, [ROOT]) == Jobs(a[1]);
  }

  lemma NamesFixed()
    ensures Fixed([]) == [] && Fixed(["gpio"]) == ["gpio"] && Fixed(["led"]) == ["led"]
  {
    assert FixId("io") == "io" && "gpio"[1..] == "pio" && "pio"[1..] == "io";
    assert FixId("pio") == "pio" && FixId("gpio") == "gpio";
    assert "led"[1..] == "ed" && FixId("ed") == "ed" && FixId("led") == "led";
  }

  lemma LedCalls()
    ensures GenerateRaw(PhandleOf("gpios"), None, LED, [ROOT], CONTEXT) == Some([CallAt(["gpio"], [1], None)])
    ensures GenerateRaw(Parent(2, []), None, LED, [ROOT], CONTEXT) == Some([CallUp(2, [], None)])
  {
    var ws: seq<Word> := [Ref("ctl"), Number(1)];
    assert WordsOf(LED, "gpios") == Some(ws);
    assert ws[1..] == [Number(1)] && ws[1..][1..] == [] && AllNumbers(ws[1..][1..]) == Some([]);
    var one: seq<nat> := [1];
    assert one + [] == one && AllNumbers(ws[1..]) == Some(one + []);
    NamesFixed();
  }

  lemma TreeWalks()
    ensures NodeWalk(ROOT, [], CONTEXT).Some?
  {
    var ctx := CONTEXT;
    LeafActions();
    LedCalls();
    assert GenerateAll([], CONTROLLER, [ROOT], ctx) == Some([]) && GenerateAll([], LED, [ROOT], ctx) == Some([]);
    var own := [Job(Instance(Myself), None)];
    var both := [Job(Instance(PhandleOf("gpios")), None), Job(Instance(Parent(2, [])), None)];
    assert own[1..] == [] && both[1..] == [both[1]] && both[1..][1..] == [];
    assert GenerateAll(own, CONTROLLER, [ROOT], ctx).Some?;
    assert GenerateAll(both[1..], LED, [ROOT], ctx).Some?;
    assert GenerateAll(both, LED, [ROOT], ctx).Some?;
    LeafWalks(CONTROLLER);
    LeafWalks(LED);
    var cs := ROOT.children;
    assert [ROOT] + [] == [ROOT];
    assert cs[1..] == [LED] && cs[1..][1..] == [];
    assert ChildrenWalk(ROOT, cs[1..][1..], [], ctx) == Some([]);
    assert ChildrenWalk(ROOT, cs[1..], [], ctx).Some?;
    assert ChildrenWalk(ROOT, cs, [], ctx).Some?;
    RootActions();
  }

  lemma RootActions()
    ensures JobsFor(AUGMENTATIONS, ROOT, []) == []
  {
    var a := AUGMENTATIONS;
    assert HasProp("status") in a[0].rules && HasProp("gpios") in a[1].rules;
    assert !Matches(HasProp("status"), ROOT, []) && !Matches(HasProp("gpios"), ROOT, []);
    assert a[1..] == [a[1]] && a[1..][1..] == [];
    assert JobsFor(a[1..][1..], ROOT, []) == [];
    assert JobsFor(a[1..], ROOT, []) == [];
  }

  lemma LeafWalks(n: Node)
    requires n == CONTROLLER || n == LED
    requires GenerateAll(JobsFor(AUGMENTATIONS, n, [ROOT]), n, [ROOT], CONTEXT).Some?
    ensures NodeWalk(n, [ROOT], CONTEXT).Some?
  {
    var ps := n.properties;
    assert ps[1..] == [] && PropertiesWalk(ps[1..], CONTEXT) == Some([]);
    assert PropertyWalk(ps[0], CONTEXT).Some?;
    assert ChildrenWalk(n, n.children, [ROOT], CONTEXT) == Some([]);
  }

  // ---------------------------------------------------------------- what is missing

  lemma {:induction false} Chains(n: Node, up: seq<Node>)
    requires IsChain(n, up, ROOT)
    ensures (n == ROOT && up == []) || ((n == CONTROLLER || n == LED) && up == [ROOT])
    decreases |up|
  {
    if up != [] {
      Chains(up[0], up[1..]);
      assert up == [up[0]] + up[1..];
    }
  }

  lemma TreeDistinct()
    ensures Distinct(ROOT)
  {
    NamesFixed();
    forall n, up, m, up' | IsChain(n, up, ROOT) && IsChain(m, up', ROOT) && Fixed(n.route) == Fixed(m.route)
      ensures n == m
    {
      Chains(n, up);
      Chains(m, up');
      assert "gpio"[0] != "led"[0];
    }
  }

  // The devicetree is that of some text, no two of its nodes share a module, and its code is generated; but the
  // call that takes the LED's controller from the phandle names a module without the function, because the
  // controller is disabled, and the call that takes the LED's second ancestor names nothing at all.
  lemma CallsAreLost() returns (text: string)
    ensures Parse(text, ORDS) == Some(DeviceTree(ROOT, CONTEXT.labels))
    ensures NodeWalk(ROOT, [], CONTEXT).Some? && Distinct(ROOT)
    ensures var code := NodeWalk(ROOT, [], CONTEXT).value;
      && Spot(["led"], CallAt(["gpio"], [1], None)) in Spots(code, [])
      && (forall on :: !FunctionIn(code, Some(["gpio"]), on))
      && Spot(["led"], CallUp(2, [], None)) in Spots(code, [])
      && CalledModule(Spot(["led"], CallUp(2, [], None))) == None
  {
    TreeGood();
    TreeLabels();
    text := Print(ROOT);
    B.RoundTrip(ROOT, ORDS);
    TreeWalks();
    TreeDistinct();
    LedCalls();
    LeafActions();
    NamesFixed();
    var at, up := Spot(["led"], CallAt(["gpio"], [1], None)), Spot(["led"], CallUp(2, [], None));
    assert LED in ROOT.children && IsChain(LED, [ROOT], ROOT) by { assert [ROOT][1..] == []; }
    assert Makes(LED, [ROOT], PhandleOf("gpios"), CONTEXT, at);
    assert Makes(LED, [ROOT], Parent(2, []), CONTEXT, up);
    MadeExactly(ROOT, ORDS, CONTEXT, at);
    MadeExactly(ROOT, ORDS, CONTEXT, up);
    forall on ensures !FunctionIn(NodeWalk(ROOT, [], CONTEXT).value, Some(["gpio"]), on) {
      NoFunction(on);
    }
    hide NodeWalk, Spots, Parse, JobsFor, GenerateRaw, Print;
  }

  lemma NoFunction(on: set<string>)
    requires NodeWalk(ROOT, [], CONTEXT).Some? && B.PlacedRoot(ROOT, ORDS)
    ensures !FunctionIn(NodeWalk(ROOT, [], CONTEXT).value, Some(["gpio"]), on)
  {
    FunctionExactly(ROOT, ORDS, CONTEXT, ["gpio"], on);
    NamesFixed();
    assert !StatusOkay(CONTROLLER) && "gpio"[0] != "led"[0];
    forall t: Node | Fixed(t.route) == ["gpio"] ensures !HasOwn(ROOT, t, CONTEXT, on) {
      forall up, cfg | IsChain(t, up, ROOT) ensures !OwnInstance(t, up, cfg, CONTEXT) {
        Chains(t, up);
      }
    }
  }
}
