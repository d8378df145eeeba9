// Shared vocabulary of the model.
module Prelude {
  datatype Option<+T> = None | Some(value: T)

  // No element of a sequence occurs twice.
  ghost predicate NoDup<T(!new)>(s: seq<T>) {
    forall i, j :: 0 <= i < j < |s| ==> s[i] != s[j]
  }

  lemma TailOf<T(!new)>(q: seq<T>)
    requires NoDup(q) && q != []
    ensures NoDup(q[1..])
    ensures forall x :: x in q[1..] <==> x in q && x != q[0]
  {
    forall x | x in q && x != q[0] ensures x in q[1..] {
      var i :| 0 <= i < |q| && q[i] == x;
      assert q[1..][i - 1] == x;
    }
  }

  lemma Appended<T(!new)>(q: seq<T>, x: T)
    requires NoDup(q) && x !in q
    ensures NoDup(q + [x])
    ensures forall y :: y in q + [x] <==> y in q || y == x
  {
  }

  function Sum(s: seq<nat>): nat {
    if s == [] then 0 else s[0] + Sum(s[1..])
  }

  lemma {:induction false} SumChange(a: seq<nat>, b: seq<nat>, i: nat)
    requires |a| == |b| && i < |a| && (forall j :: 0 <= j < |a| && j != i ==> a[j] == b[j])
    ensures Sum(b) + a[i] == Sum(a) + b[i]
  {
    if i == 0 {
      assert a[1..] == b[1..];
    } else {
      SumChange(a[1..], b[1..], i - 1);
    }
  }

  lemma {:induction false} SumBound(a: seq<nat>, c: nat)
    requires forall j :: 0 <= j < |a| ==> a[j] <= c
    ensures Sum(a) <= |a| * c
  {
    if a != [] {
      SumBound(a[1..], c);
    }
  }

  lemma Multiples(x: nat, y: nat, b: nat)
    requires x < y
    ensures x * b + b <= y * b
  {
    assert (x + 1) * b <= y * b;
  }

  lemma Times(x: nat, y: nat, b: nat)
    requires x <= y
    ensures x * b <= y * b
  {
  }

  lemma Cons<T>(x: T, s: seq<T>)
    ensures ([x] + s)[0] == x && ([x] + s)[1..] == s
  {
  }
}
