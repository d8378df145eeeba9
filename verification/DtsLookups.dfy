/**
 What the look-ups of devicetree.rs and the rules of augment.rs find, without following how they look.
 */
module DtsLookups {
  import opened Prelude
  import opened DtsTree
  import opened DtsOutput
  import opened DtsTokens
  import C = DtsCalls
  import B = DtsBuild

  // ---------------------------------------------------------------- names

  const LOWER := "abcdefghijklmnopqrstuvwxyz"
  const UPPER := "ABCDEFGHIJKLMNOPQRSTUVWXYZ"

  lemma LetterCodes(j: nat)
    requires j < 26
    ensures |LOWER| == |UPPER| == 26
    ensures LOWER[j] as int == 'a' as int + j && UPPER[j] as int == 'A' as int + j
  {
  }

  // Small letters become capital ones and nothing else changes.
  lemma {:induction false} UpperExactly(s: string, i: nat)
    requires i < |s|
    ensures |Upper(s)| == |s| && |LOWER| == |UPPER|
    ensures forall j :: 0 <= j < |LOWER| && s[i] == LOWER[j] ==> Upper(s)[i] == UPPER[j]
    ensures s[i] !in LOWER ==> Upper(s)[i] == s[i]
  {
    if i > 0 {
      UpperExactly(s[1..], i - 1);
    } else {
      UpperLength(s);
      forall j: nat | j < 26 ensures LOWER[j] as int == 'a' as int + j && UPPER[j] as int == 'A' as int + j {
        LetterCodes(j);
      }
      if 'a' <= s[0] <= 'z' {
        var j := s[0] as int - 'a' as int;
        LetterCodes(j);
        assert s[0] == LOWER[j];
      }
    }
  }

  lemma {:induction false} UpperLength(s: string)
    ensures |Upper(s)| == |s|
  {
    if s != "" { UpperLength(s[1..]); }
  }

  lemma {:induction false} UpperAppend(s: string, t: string)
    ensures Upper(s + t) == Upper(s) + Upper(t)
  {
    if s == "" {
      assert s + t == t;
    } else {
      assert (s + t)[1..] == s[1..] + t && (s + t)[0] == s[0];
      UpperAppend(s[1..], t);
    }
  }

  // `fix_id` replaces four characters and keeps the others.
  lemma FixIdExactly(s: string, i: nat)
    requires i < |s|
    ensures s[i] == '#' ==> FixId(s)[i] == 'N'
    ensures s[i] in "-@," ==> FixId(s)[i] == '_'
    ensures s[i] !in "#-@," ==> FixId(s)[i] == s[i]
  {
    FixIdAt(s, i);
    assert "#-@,"[0] == '#' && "#-@,"[1] == '-' && "#-@,"[2] == '@' && "#-@,"[3] == ',';
  }

  // ---------------------------------------------------------------- properties

  // `v` is the value of the first property of the name.
  ghost predicate IsFirst(ps: seq<Property>, name: string, v: seq<Value>) {
    exists i :: 0 <= i < |ps| && ps[i] == Property(name, v) && forall j :: 0 <= j < i ==> ps[j].name != name
  }

  lemma {:induction false} FirstProperty(ps: seq<Property>, name: string, v: seq<Value>)
    ensures PropertyOf(ps, name) == Some(v) <==> IsFirst(ps, name, v)
    ensures PropertyOf(ps, name) == None <==> forall i :: 0 <= i < |ps| ==> ps[i].name != name
  {
    if ps != [] {
      FirstProperty(ps[1..], name, v);
      if IsFirst(ps[1..], name, v) && ps[0].name != name {
        var i :| 0 <= i < |ps| - 1 && ps[1..][i] == Property(name, v) &&
                 forall j :: 0 <= j < i ==> ps[1..][j].name != name;
        assert ps[i + 1] == ps[1..][i];
        forall j | 0 <= j < i + 1 ensures ps[j].name != name {
          if j > 0 { assert ps[j] == ps[1..][j - 1]; }
        }
      }
      if i :| 0 < i < |ps| && ps[i] == Property(name, v) && forall j :: 0 <= j < i ==> ps[j].name != name {
        assert ps[1..][i - 1] == ps[i];
      }
      assert forall i :: 0 <= i < |ps| ==> ps[i] == if i == 0 then ps[0] else ps[1..][i - 1];
    }
  }

  lemma PropertyThere(n: Node, name: string)
    ensures HasProperty(n, name) <==> PropertyOf(n.properties, name) != None
  {
    FirstProperty(n.properties, name, []);
  }

  // The words of a name are those of its first property, if that has nothing else.
  lemma WordsExactly(n: Node, name: string, ws: seq<Word>)
    ensures WordsOf(n, name) == Some(ws) <==> IsFirst(n.properties, name, [Words(ws)])
  {
    FirstProperty(n.properties, name, [Words(ws)]);
    hide IsFirst, PropertyOf;
    if WordsOf(n, name) == Some(ws) { assert PropertyOf(n.properties, name).value == [Words(ws)]; }
  }

  lemma {:induction false} NumbersExactly(ws: seq<Word>, ns: seq<nat>)
    ensures AllNumbers(ws) == Some(ns) <==> |ns| == |ws| && forall i :: 0 <= i < |ws| ==> ws[i] == Number(ns[i])
  {
    if ws != [] && ns != [] {
      NumbersExactly(ws[1..], ns[1..]);
      assert ns == [ns[0]] + ns[1..];
      assert forall i :: 0 < i < |ws| ==> ws[i] == ws[1..][i - 1];
      assert forall i :: 0 < i < |ns| ==> ns[i] == ns[1..][i - 1];
      if |ns| == |ws| && forall i :: 0 <= i < |ws| ==> ws[i] == Number(ns[i]) {
        assert forall i :: 0 <= i < |ws| - 1 ==> ws[1..][i] == ws[i + 1] && ns[1..][i] == ns[i + 1];
      }
    }
  }

  // A node is not okay exactly when its first status is a single string other than these two.
  lemma StatusExactly(n: Node)
    ensures !StatusOkay(n) <==> exists t :: IsFirst(n.properties, "status", [Str(t)]) && t != "okay" && t != "ok"
  {
    hide IsFirst, PropertyOf;
    var ps := n.properties;
    forall t ensures PropertyOf(ps, "status") == Some([Str(t)]) <==> IsFirst(ps, "status", [Str(t)]) {
      FirstProperty(ps, "status", [Str(t)]);
    }
    if !StatusOkay(n) {
      var v := PropertyOf(n.properties, "status").value;
      assert v == [Str(v[0].text)];
    }
  }

  lemma CompatibleExactly(n: Node, name: string)
    ensures NodeCompatible(n, name) <==>
      exists i, j :: 0 <= i < |n.properties| && n.properties[i].name == "compatible" &&
                     0 <= j < |n.properties[i].value| && n.properties[i].value[j] == Str(name)
  {
    if NodeCompatible(n, name) {
      var p :| p in n.properties && p.name == "compatible" && Str(name) in p.value;
      var i :| 0 <= i < |n.properties| && n.properties[i] == p;
      var j :| 0 <= j < |p.value| && p.value[j] == Str(name);
    }
  }

  // ---------------------------------------------------------------- gpio phandles

  // The label is that of a gpio controller whose cells count is `k`.
  ghost predicate Controller(labels: map<string, Node>, lab: string, k: nat) {
    && lab in labels
    && (exists i :: 0 <= i < |labels[lab].properties| && labels[lab].properties[i].name == "gpio-controller")
    && IsFirst(labels[lab].properties, "#gpio-cells", [Words([Number(k)])])
  }

  lemma CellsExactly(labels: map<string, Node>, lab: string, k: nat)
    ensures Cells(labels, lab) == Some(k) <==> Controller(labels, lab, k)
  {
    hide IsFirst, WordsOf;
    if lab in labels {
      WordsExactly(labels[lab], "#gpio-cells", [Number(k)]);
      if Cells(labels, lab) == Some(k) {
        var ws := WordsOf(labels[lab], "#gpio-cells").value;
        assert ws == [Number(k)];
      }
    }
  }

  // A phandle takes these arguments exactly when its controller's cells ask for as many and they are the numbers
  // that follow; otherwise it takes none.
  lemma GpioArguments(labels: map<string, Node>, lab: string, ws: seq<Word>, args: seq<nat>)
    ensures TokenFor(labels, lab, ws) == GpioToken(lab, args) <==>
      && Controller(labels, lab, |args|) && |args| <= |ws|
      && forall i :: 0 <= i < |args| ==> ws[i] == Number(args[i])
    ensures TokenFor(labels, lab, ws) == PhandleToken(lab) || TokenFor(labels, lab, ws).GpioToken?
  {
    hide Controller, Cells;
    CellsExactly(labels, lab, |args|);
    if Cells(labels, lab).Some? && Cells(labels, lab).value <= |ws| {
      NumbersExactly(ws[..Cells(labels, lab).value], args);
    }
    hide AllNumbers;
  }

  // ---------------------------------------------------------------- rules

  lemma RulesCompose(a: seq<Rule>, b: seq<Rule>, r: Rule, n: Node, up: seq<Node>)
    ensures !Matches(Or([]), n, up) && Matches(And([]), n, up)
    ensures Matches(Or([r]), n, up) == Matches(And([r]), n, up) == Matches(r, n, up)
    ensures Matches(Or(a + b), n, up) <==> Matches(Or(a), n, up) || Matches(Or(b), n, up)
    ensures Matches(And(a + b), n, up) <==> Matches(And(a), n, up) && Matches(And(b), n, up)
  {
    assert r in [r];
    if s :| s in a && Matches(s, n, up) { assert s in a + b; }
    if s :| s in b && Matches(s, n, up) { assert s in a + b; }
    if s :| s in a && !Matches(s, n, up) { assert s in a + b; }
    if s :| s in b && !Matches(s, n, up) { assert s in a + b; }
  }

  // A compatible rule matches a node that has an ancestor of its level, or is itself, compatible with one of the names.
  lemma CompatibleRule(n: Node, up: seq<Node>, names: seq<string>, level: nat)
    ensures Matches(Compatible(names, level), n, up) <==>
      level <= |up| &&
      exists i :: 0 <= i < |names| && NodeCompatible(if level == 0 then n else up[level - 1], names[i])
  {
    C.CompatibleLevel(n, up, names, level);
    hide NodeCompatible;
    if level <= |up| {
      var m := if level == 0 then n else up[level - 1];
      if s :| s in names && NodeCompatible(m, s) {
        var i :| 0 <= i < |names| && names[i] == s;
      }
    }
  }

  lemma HasPropExactly(n: Node, up: seq<Node>, name: string)
    ensures Matches(HasProp(name), n, up) <==> exists i :: 0 <= i < |n.properties| && n.properties[i].name == name
  {
    PropertyThere(n, name);
    FirstProperty(n.properties, name, []);
  }

  lemma RootExactly(n: Node, up: seq<Node>, root: Node, ords: OrdMap)
    requires C.IsChain(n, up, root) && B.PlacedRoot(root, ords)
    ensures Matches(Root, n, up) <==> n == root
    ensures n == root <==> n.route == []
  {
    C.ChainRoutes(n, up, root, ords, 0);
  }

  // ---------------------------------------------------------------- arguments

  // The arguments of a list are those of its parts, one after the other.
  lemma {:induction false} ArgsAppend(a: seq<ArgInfo>, b: seq<ArgInfo>, n: Node, up: seq<Node>)
    ensures ArgsOf(a + b, n, up) ==
      match (ArgsOf(a, n, up), ArgsOf(b, n, up))
      case (Some(x), Some(y)) => Some(x + y)
      case _ => None
  {
    if a == [] {
      assert a + b == b;
      assert ArgsOf(b, n, up).Some? ==> [] + ArgsOf(b, n, up).value == ArgsOf(b, n, up).value;
    } else {
      assert (a + b)[1..] == a[1..] + b && (a + b)[0] == a[0];
      ArgsAppend(a[1..], b, n, up);
      hide ArgOf;
      if ArgsOf(a + b, n, up).Some? {
        var x, y, z := ArgOf(a[0], n, up).value, ArgsOf(a[1..], n, up).value, ArgsOf(b, n, up).value;
        assert x + (y + z) == x + y + z;
      }
    }
  }

  lemma OneArg(arg: ArgInfo, n: Node, up: seq<Node>)
    ensures ArgsOf([arg], n, up) == ArgOf(arg, n, up)
  {
    hide ArgOf;
    assert [arg][1..] == [] && ArgsOf([arg][1..], n, up) == Some([]);
    if ArgOf(arg, n, up).Some? { assert ArgOf(arg, n, up).value + [] == ArgOf(arg, n, up).value; }
  }

  // The numbers of `reg`.
  lemma RegExactly(n: Node, up: seq<Node>, xs: seq<nat>)
    ensures ArgsOf([Reg], n, up) == Some(xs) <==> IsFirst(n.properties, "reg", [Words(NumberWords(xs))])
  {
    OneArg(Reg, n, up);
    RegNumbers(n, up, xs);
    hide IsFirst, NumberWords, ArgOf;
  }

  // The place of the node among its siblings.
  lemma ChildIdxExactly(n: Node, up: seq<Node>, i: nat)
    ensures ArgsOf([ChildIdx], n, up) == Some([i]) <==> up != [] && IsPosition(up[0].children, n, i)
  {
    OneArg(ChildIdx, n, up);
    hide IsPosition, Position;
    if up != [] {
      PositionExactly(up[0].children, n, i);
      if ArgOf(ChildIdx, n, up) == Some([i]) { assert [Position(up[0].children, n).value][0] == [i][0]; }
    }
  }

  ghost predicate IsPosition(cs: seq<Node>, n: Node, i: nat) {
    i < |cs| && cs[i] == n && forall j :: 0 <= j < i ==> cs[j] != n
  }

  lemma {:induction false} PositionExactly(cs: seq<Node>, n: Node, i: nat)
    ensures Position(cs, n) == Some(i) <==> IsPosition(cs, n, i)
  {
    if cs != [] && i > 0 {
      PositionExactly(cs[1..], n, i - 1);
      if IsPosition(cs, n, i) {
        assert forall j :: 0 <= j < i ==> cs[1..][j] == cs[j + 1];
      }
      if IsPosition(cs[1..], n, i - 1) && cs[0] != n {
        forall j | 0 <= j < i ensures cs[j] != n {
          if j > 0 { assert cs[j] == cs[1..][j - 1]; }
        }
      }
    }
  }

  lemma {:induction false} NumberWordsAre(ns: seq<nat>, i: nat)
    requires i < |ns|
    ensures NumberWords(ns)[i] == Number(ns[i])
  {
    if i > 0 { NumberWordsAre(ns[1..], i - 1); }
  }

  lemma RegNumbers(n: Node, up: seq<Node>, xs: seq<nat>)
    ensures ArgOf(Reg, n, up) == Some(xs) <==> IsFirst(n.properties, "reg", [Words(NumberWords(xs))])
  {
    var ws := NumberWords(xs);
    WordsExactly(n, "reg", ws);
    forall i | 0 <= i < |xs| ensures ws[i] == Number(xs[i]) { NumberWordsAre(xs, i); }
    NumbersExactly(ws, xs);
    hide IsFirst, NumberWords;
    if ArgOf(Reg, n, up) == Some(xs) {
      var vs := WordsOf(n, "reg").value;
      NumbersExactly(vs, xs);
      assert vs == ws;
    }
  }

  // ---------------------------------------------------------------- augmentations

  // The jobs for a node are the actions, with their options, of the augmentations all of whose rules match.
  lemma {:induction false} JobsExactly(augs: seq<Augmentation>, n: Node, up: seq<Node>, job: Job)
    ensures job in JobsFor(augs, n, up) <==>
      exists a :: a in augs && job.cfg == a.cfg && job.action in a.actions && Matches(And(a.rules), n, up)
  {
    if augs != [] {
      JobsExactly(augs[1..], n, up, job);
      assert augs == [augs[0]] + augs[1..];
      hide Matches;
    }
  }

  lemma {:induction false} JobsAppend(a: seq<Augmentation>, b: seq<Augmentation>, n: Node, up: seq<Node>)
    ensures JobsFor(a + b, n, up) == JobsFor(a, n, up) + JobsFor(b, n, up)
  {
    if a == [] {
      assert a + b == b;
    } else {
      assert (a + b)[1..] == a[1..] + b && (a + b)[0] == a[0];
      JobsAppend(a[1..], b, n, up);
      hide Matches, Jobs;
    }
  }
}
