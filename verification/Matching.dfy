/**
 Choosing different values for the members of a set, each from its own set of values: Hall's condition is enough,
 and as many members as a smallest cover has elements can be served at once (Koenig's theorem).
 */
module Matching {
  // The values of the members of `s`.
  ghost function Values(s: set<nat>, g: map<nat, set<nat>>): set<nat>
    requires s <= g.Keys
  {
    set x, y | x in s && y in g[x] :: y
  }

  // Different members get different values, each one of its own.
  ghost predicate Matches(m: map<nat, nat>, g: map<nat, set<nat>>) {
    && m.Keys <= g.Keys
    && (forall x :: x in m ==> m[x] in g[x])
    && (forall x, y :: x in m && y in m && x != y ==> m[x] != m[y])
  }

  ghost predicate Hall(a: set<nat>, g: map<nat, set<nat>>) {
    a <= g.Keys && forall s :: s <= a ==> |s| <= |Values(s, g)|
  }

  // The members `a` without the values `v`.
  ghost function Less(a: set<nat>, g: map<nat, set<nat>>, v: set<nat>): map<nat, set<nat>>
    requires a <= g.Keys
  {
    map x | x in a :: g[x] - v
  }

  lemma LessValues(a: set<nat>, g: map<nat, set<nat>>, v: set<nat>, s: set<nat>)
    requires s <= a <= g.Keys
    ensures Values(s, Less(a, g, v)) == Values(s, g) - v
  {
    forall y | y in Values(s, g) - v ensures y in Values(s, Less(a, g, v)) {
      var x :| x in s && y in g[x];
      assert y in Less(a, g, v)[x];
    }
  }

  lemma {:induction false} SubsetSize(a: set<nat>, b: set<nat>)
    requires a <= b
    ensures |a| <= |b|
  {
    assert b == a + (b - a) && a !! (b - a);
  }

  // Hall's theorem.
  lemma {:induction false} HallMatches(a: set<nat>, g: map<nat, set<nat>>) returns (m: map<nat, nat>)
    requires Hall(a, g)
    ensures Matches(m, g) && m.Keys == a
    decreases |a|
  {
    if a == {} {
      m := map[];
    } else if s :| s <= a && s != {} && s != a && |s| == |Values(s, g)| {
      m := HallSplit(a, g, s);
    } else {
      m := HallOne(a, g);
    }
  }

  // A part with no value to spare is served by itself, the rest without its values.
  lemma {:induction false} HallSplit(a: set<nat>, g: map<nat, set<nat>>, s: set<nat>) returns (m: map<nat, nat>)
    requires Hall(a, g) && s <= a && s != {} && s != a && |s| == |Values(s, g)|
    ensures Matches(m, g) && m.Keys == a
    decreases |a|, 0
  {
    hide Hall, Values, Less, Matches;
    SubHall(a, g, a);
    SubHall(a, g, s);
    RestHall(a, g, s);
    assert |a| == |s| + |a - s| by { assert a == s + (a - s); }
    var v := Values(s, g);
    var m1 := HallMatches(s, g);
    var m2 := HallMatches(a - s, Less(a - s, g, v));
    Served(s, g, m1);
    m := Union(a - s, g, v, m1, m2);
    assert s + (a - s) == a;
  }

  lemma SubHall(a: set<nat>, g: map<nat, set<nat>>, s: set<nat>)
    requires Hall(a, g) && s <= a
    ensures Hall(s, g) && a <= g.Keys
  {
  }

  // One choice within the values `v` and one without them.
  lemma Union(b: set<nat>, g: map<nat, set<nat>>, v: set<nat>, m1: map<nat, nat>, m2: map<nat, nat>)
    returns (m: map<nat, nat>)
    requires b <= g.Keys && Matches(m1, g) && Matches(m2, Less(b, g, v)) && m1.Keys !! m2.Keys
    requires forall x :: x in m1 ==> m1[x] in v
    ensures Matches(m, g) && m.Keys == m1.Keys + m2.Keys
  {
    assert forall x :: x in m2 ==> m2[x] in Less(b, g, v)[x];
    m := m1 + m2;
    assert forall x :: x in m2 ==> m[x] == m2[x] && m2[x] !in v;
    assert forall x :: x in m1 ==> m[x] == m1[x];
  }

  lemma Served(s: set<nat>, g: map<nat, set<nat>>, m: map<nat, nat>)
    requires Matches(m, g) && m.Keys <= s <= g.Keys
    ensures forall x :: x in m ==> m[x] in Values(s, g)
  {
  }

  lemma RestHall(a: set<nat>, g: map<nat, set<nat>>, s: set<nat>)
    requires Hall(a, g) && s <= a && |s| == |Values(s, g)|
    ensures Hall(a - s, Less(a - s, g, Values(s, g)))
  {
    forall r | r <= a - s ensures |r| <= |Values(r, Less(a - s, g, Values(s, g)))| {
      assert s + r <= a;
      RestOne(a, g, s, r);
    }
  }

  lemma RestOne(a: set<nat>, g: map<nat, set<nat>>, s: set<nat>, r: set<nat>)
    requires s <= a <= g.Keys && r <= a - s && |s| == |Values(s, g)| && |s + r| <= |Values(s + r, g)|
    ensures |r| <= |Values(r, Less(a - s, g, Values(s, g)))|
  {
    var v := Values(s, g);
    LessValues(a - s, g, v, r);
    ValuesOfBoth(g, s, r);
    hide Values;
    assert |v + (Values(r, g) - v)| == |v| + |Values(r, g) - v|;
    assert |s + r| == |s| + |r|;
  }

  lemma ValuesOfBoth(g: map<nat, set<nat>>, s: set<nat>, r: set<nat>)
    requires s + r <= g.Keys
    ensures Values(s + r, g) == Values(s, g) + (Values(r, g) - Values(s, g))
  {
  }

  // Otherwise any member may take any of its values.
  lemma {:induction false} HallOne(a: set<nat>, g: map<nat, set<nat>>) returns (m: map<nat, nat>)
    requires Hall(a, g) && a != {}
    requires forall s :: s <= a && s != {} && s != a ==> |s| != |Values(s, g)|
    ensures Matches(m, g) && m.Keys == a
    decreases |a|, 0
  {
    var x :| x in a;
    assert {x} <= a && Values({x}, g) == g[x];
    assert |g[x]| > 0;
    var y :| y in g[x];
    var g' := Less(a - {x}, g, {y});
    forall r | r <= a - {x} ensures |r| <= |Values(r, g')| {
      LessValues(a - {x}, g, {y}, r);
      if r != {} {
        assert r <= a && r != a;
        assert |r| <= |Values(r, g)| && |r| != |Values(r, g)|;
      }
    }
    var m' := HallMatches(a - {x}, g');
    assert forall z :: z in m' ==> m'[z] in g'[z] && m'[z] != y;
    m := m'[x := y];
  }

  // ---------------------------------------------------------------- covers

  // Every member with a value is in `f`, or the value is in `q`.
  ghost predicate Covers(g: map<nat, set<nat>>, f: set<nat>, q: set<nat>) {
    f <= g.Keys && forall x, y :: x in g && y in g[x] ==> x in f || y in q
  }

  // The members, other than those of `f`, that have a value.
  ghost function Takers(g: map<nat, set<nat>>, f: set<nat>, y: nat): set<nat> {
    set x | x in g.Keys && x !in f && y in g[x]
  }

  ghost predicate Least(g: map<nat, set<nat>>, f: set<nat>, q: set<nat>) {
    Covers(g, f, q) && forall f', q' :: Covers(g, f', q') ==> |f| + |q| <= |f'| + |q'|
  }

  lemma {:induction false} LeastExists(g: map<nat, set<nat>>, f: set<nat>, q: set<nat>)
    returns (f1: set<nat>, q1: set<nat>)
    requires Covers(g, f, q)
    ensures Least(g, f1, q1)
    decreases |f| + |q|
  {
    if f', q' :| Covers(g, f', q') && |f'| + |q'| < |f| + |q| {
      f1, q1 := LeastExists(g, f', q');
    } else {
      f1, q1 := f, q;
    }
  }

  // In a least cover its members can be served outside its values.
  lemma MembersServed(g: map<nat, set<nat>>, f: set<nat>, q: set<nat>)
    requires Least(g, f, q)
    ensures Hall(f, Less(f, g, q))
  {
    forall s | s <= f ensures |s| <= |Values(s, Less(f, g, q))| {
      LessValues(f, g, q, s);
      MembersCover(g, f, q, s);
      assert |f - s| == |f| - |s|;
      var v := Values(s, g) - q;
      assert |q + v| == |q| + |v|;
      hide Values, Covers, Less;
    }
  }

  lemma MembersCover(g: map<nat, set<nat>>, f: set<nat>, q: set<nat>, s: set<nat>)
    requires Covers(g, f, q) && s <= f
    ensures Covers(g, f - s, q + (Values(s, g) - q))
  {
  }

  // And its values can be served by members outside it.
  lemma ValuesServed(g: map<nat, set<nat>>, f: set<nat>, q: set<nat>)
    requires Least(g, f, q)
    ensures Hall(q, map y | y in q :: Takers(g, f, y))
  {
    var h := map y | y in q :: Takers(g, f, y);
    forall s | s <= q ensures |s| <= |Values(s, h)| {
      TakersCover(g, f, q, s, h);
      assert |q - s| == |q| - |s|;
      var v := Values(s, h);
      assert |f + v| == |f| + |v|;
      hide Values, Covers, Takers;
    }
  }

  lemma TakersCover(g: map<nat, set<nat>>, f: set<nat>, q: set<nat>, s: set<nat>, h: map<nat, set<nat>>)
    requires Covers(g, f, q) && s <= q && h == map y | y in q :: Takers(g, f, y)
    ensures Covers(g, f + Values(s, h), q - s) && f !! Values(s, h)
  {
    forall x, y | x in g && y in g[x] ensures x in f + Values(s, h) || y in q - s {
      if x !in f && y in s { assert x in h[y]; }
    }
  }

  // Koenig's theorem: a least cover is as large as some set of members that can be served at once.
  lemma LeastIsServed(g: map<nat, set<nat>>, f: set<nat>, q: set<nat>) returns (m: map<nat, nat>)
    requires Least(g, f, q)
    ensures Matches(m, g) && |m| == |f| + |q|
  {
    MembersServed(g, f, q);
    ValuesServed(g, f, q);
    var m1 := HallMatches(f, Less(f, g, q));
    var h := map y | y in q :: Takers(g, f, y);
    var m2 := HallMatches(q, h);
    assert forall y :: y in m2 ==> m2[y] in h[y];
    m := Joined(g, f, q, m1, m2);
  }

  // Members served by `m1`, and the ones that values serve in `m2`.
  ghost predicate Joint(m: map<nat, nat>, f: set<nat>, m1: map<nat, nat>, m2: map<nat, nat>)
    requires m1.Keys == f
  {
    && (forall x :: x in f ==> x in m && m[x] == m1[x])
    && (forall x :: x in m && x !in f ==> m[x] in m2 && m2[m[x]] == x)
    && |m| == |f| + |m2|
  }

  lemma {:induction false} Join(f: set<nat>, m1: map<nat, nat>, m2: map<nat, nat>) returns (m: map<nat, nat>)
    requires m1.Keys == f && forall y :: y in m2 ==> m2[y] !in f
    requires forall y, z :: y in m2 && z in m2 && y != z ==> m2[y] != m2[z]
    ensures Joint(m, f, m1, m2)
    decreases |m2|
  {
    if m2 == map[] {
      m := m1;
      assert |m.Keys| == |f|;
    } else {
      var y :| y in m2;
      var m2' := m2 - {y};
      assert m2.Keys == m2'.Keys + {y};
      var m' := Join(f, m1, m2');
      var x := m2[y];
      assert x !in m';
      m := m'[x := y];
      assert m.Keys == m'.Keys + {x};
    }
  }

  lemma Joined(g: map<nat, set<nat>>, f: set<nat>, q: set<nat>, m1: map<nat, nat>, m2: map<nat, nat>)
    returns (m: map<nat, nat>)
    requires Covers(g, f, q) && Matches(m1, Less(f, g, q)) && m1.Keys == f && m2.Keys <= q
    requires forall y :: y in m2 ==> m2[y] in Takers(g, f, y)
    requires forall y, z :: y in m2 && z in m2 && y != z ==> m2[y] != m2[z]
    ensures Matches(m, g) && |m| == |f| + |m2|
  {
    assert forall y :: y in m2 ==> m2[y] in g.Keys && m2[y] !in f && y in g[m2[y]];
    assert forall x :: x in f ==> m1[x] in Less(f, g, q)[x] && m1[x] in g[x] && m1[x] !in q;
    m := Join(f, m1, m2);
    hide Takers, Covers;
  }
}
