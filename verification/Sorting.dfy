// Names in the order sort.Slice and sort.Strings give them.
module Sorting {

  predicate Before(a: string, b: string) {
    if b == "" then false
    else if a == "" then true
    else a[0] < b[0] || (a[0] == b[0] && Before(a[1..], b[1..]))
  }

  // b goes on where a ends, or has the greater character where they first differ.
  predicate Differs(a: string, b: string, k: nat) {
    k <= |a| && k < |b| && a[..k] == b[..k] && (k == |a| || a[k] < b[k])
  }

  lemma FirstTells(a: string, b: string, k: nat)
    ensures Differs(a, b, k) && k > 0 ==> a != "" && b != "" && a[0] == b[0]
    ensures Differs(a, b, 0) <==> b != "" && (a == "" || a[0] < b[0])
  {
    if Differs(a, b, k) && k > 0 {
      assert a[..k][0] == a[0] && b[..k][0] == b[0];
    }
  }

  // The order is the one of `<` on strings: character by character, a proper prefix first.
  lemma {:induction false} BeforeIs(a: string, b: string)
    ensures Before(a, b) <==> exists k: nat :: Differs(a, b, k)
  {
    FirstTells(a, b, 0);
    forall k: nat | Differs(a, b, k) ensures k > 0 ==> a != "" && b != "" && a[0] == b[0] {
      FirstTells(a, b, k);
    }
    if a != "" && b != "" && a[0] == b[0] {
      BeforeIs(a[1..], b[1..]);
      if k: nat :| Differs(a[1..], b[1..], k) {
        assert a[..k + 1] == [a[0]] + a[1..][..k] && b[..k + 1] == [b[0]] + b[1..][..k];
        assert Differs(a, b, k + 1);
      }
      if k: nat :| Differs(a, b, k) {
        assert a[1..][..k - 1] == a[..k][1..] && b[1..][..k - 1] == b[..k][1..];
        assert Differs(a[1..], b[1..], k - 1);
      }
    } else if Before(a, b) {
      assert Differs(a, b, 0);
    }
  }

  predicate Ascending(names: seq<string>) {
    forall i, j :: 0 <= i < j < |names| ==> Before(names[i], names[j])
  }

  lemma {:induction false} OneWay(a: string, b: string)
    ensures a == b ==> !Before(a, b)
    ensures Before(a, b) ==> !Before(b, a)
    ensures a != b ==> Before(a, b) || Before(b, a)
  {
    if a != "" && b != "" {
      OneWay(a[1..], b[1..]);
      assert a == [a[0]] + a[1..] && b == [b[0]] + b[1..];
    }
  }

  lemma {:induction false} Transitive(a: string, b: string, c: string)
    requires Before(a, b) && Before(b, c)
    ensures Before(a, c)
  {
    if a != "" && a[0] == b[0] == c[0] {
      Transitive(a[1..], b[1..], c[1..]);
    }
  }

  lemma HeadApart(p: seq<string>)
    requires Ascending(p) && p != []
    ensures forall x :: x in p[1..] <==> x in p && x != p[0]
  {
    forall k | 1 <= k < |p| ensures p[k] != p[0] {
      OneWay(p[0], p[k]);
    }
    assert p == [p[0]] + p[1..];
  }

  lemma Inhabited(p: seq<string>)
    ensures p != [] ==> exists x :: x in p
  {
    if p != [] {
      assert p[0] in p;
    }
  }

  // The order is settled by the names alone: sorting is deterministic whatever
  // order a map yields them in.
  lemma {:induction false} AscendingUnique(p: seq<string>, q: seq<string>)
    requires Ascending(p) && Ascending(q) && (forall x :: x in p <==> x in q)
    ensures p == q
  {
    Inhabited(p);
    Inhabited(q);
    if p != [] {
      assert p[0] in q;
      assert q[0] in p;
      var i :| 0 <= i < |q| && q[i] == p[0];
      var j :| 0 <= j < |p| && p[j] == q[0];
      OneWay(p[0], q[0]);
      assert p[0] == q[0];
      HeadApart(p);
      HeadApart(q);
      AscendingUnique(p[1..], q[1..]);
      assert p == [p[0]] + p[1..] && q == [q[0]] + q[1..];
    }
  }

  // The names of a set in order.
  ghost function InOrder(names: set<string>): (r: seq<string>)
    ensures Ascending(r) && forall x :: x in r <==> x in names
  {
    if names == {} then []
    else
      var x :| x in names;
      var rest := InOrder(names - {x});
      assert forall y :: y in names <==> y == x || y in names - {x};
      Inserted(rest, x)
  }

  ghost function Inserted(names: seq<string>, x: string): (r: seq<string>)
    requires Ascending(names) && x !in names
    ensures Ascending(r) && forall y :: y in r <==> y == x || y in names
  {
    if names == [] then [x]
    else if Before(x, names[0]) then
      FrontPut(names, x);
      [x] + names
    else
      assert forall y :: y in names[1..] ==> y in names;
      var rest := Inserted(names[1..], x);
      TailPut(names, x, rest);
      [names[0]] + rest
  }

  lemma FrontPut(names: seq<string>, x: string)
    requires Ascending(names) && names != [] && Before(x, names[0])
    ensures Ascending([x] + names)
  {
    forall k | 1 <= k < |names| ensures Before(x, names[k]) {
      Transitive(x, names[0], names[k]);
    }
  }

  lemma TailPut(names: seq<string>, x: string, rest: seq<string>)
    requires Ascending(names) && names != [] && x !in names && !Before(x, names[0])
    requires Ascending(rest) && forall y :: y in rest <==> y == x || y in names[1..]
    ensures Ascending([names[0]] + rest) && forall y :: y in [names[0]] + rest <==> y == x || y in names
  {
    OneWay(names[0], x);
    assert names == [names[0]] + names[1..];
    forall k | 0 <= k < |rest| ensures Before(names[0], rest[k]) {
      assert rest[k] in rest;
    }
  }

  // One name put into its place.
  method Insert(names: seq<string>, x: string) returns (r: seq<string>)
    requires Ascending(names) && x !in names
    ensures Ascending(r) && forall y :: y in r <==> y == x || y in names
  {
    var i := 0;
    while i < |names| && Before(names[i], x)
      invariant 0 <= i <= |names|
      invariant forall k :: 0 <= k < i ==> Before(names[k], x)
    {
      i := i + 1;
    }
    forall k | i <= k < |names| ensures Before(x, names[k]) {
      OneWay(x, names[i]);
      if k > i { Transitive(x, names[i], names[k]); }
    }
    r := names[..i] + [x] + names[i..];
    assert names == names[..i] + names[i..];
  }

  method Sorted(names: set<string>) returns (r: seq<string>)
    ensures r == InOrder(names)
  {
    var todo := names;
    r := [];
    while todo != {}
      invariant todo <= names && Ascending(r) && forall y :: y in r <==> y in names - todo
      decreases todo
    {
      var x :| x in todo;
      r := Insert(r, x);
      todo := todo - {x};
    }
    AscendingUnique(r, InOrder(names));
  }
}
