// What the generator makes of the backends it is asked for.
module Requests {
  import opened Basics
  import opened Aliases
  import opened Importing
  import opened Generating

  // A backend and its adapter, or a backend that is called like its adapter.
  predicate Asks(spec: string, name: string, adapter: string) {
    && name != "" && ':' !in name && adapter != ""
    && (spec == name + ":" + adapter || (spec == name && adapter == name))
  }

  lemma {:induction false} CutIs(spec: string)
    ensures ':' !in Cut(spec).0
    ensures spec == Cut(spec).0 + if Cut(spec).1.Some? then ":" + Cut(spec).1.value else ""
  {
    if spec != "" && spec[0] != ':' {
      CutIs(spec[1..]);
      assert spec == [spec[0]] + spec[1..];
    }
  }

  // A spec is taken exactly when it asks for something, and then for just that.
  lemma SpecIs(spec: string, name: string, adapter: string)
    ensures Asks(spec, name, adapter) ==>
      ParseSpec(spec) == Some((name, if adapter in BUILTIN then BUILTIN[adapter] else adapter))
    ensures ParseSpec(spec).Some? ==> exists n, a :: Asks(spec, n, a)
  {
    if Asks(spec, name, adapter) {
      SpecRoundTrip(name, adapter);
    }
    if ParseSpec(spec).Some? {
      var (n, after) := Cut(spec);
      CutIs(spec);
      assert Asks(spec, n, if after.None? then n else after.value);
    }
  }

  const ADAPTERS := "github.com/loykin/dbstore/adapters/"

  // The adapters that have a name of their own.
  function PackageOf(adapter: string): Path {
    if adapter in ["sqlite", "mysql", "postgres", "sqlx"] then ADAPTERS + "sqlx"
    else if adapter in ["rest", "opensearch", "elasticsearch"] then ADAPTERS + adapter
    else adapter
  }

  lemma BuiltinIs(adapter: string)
    ensures PackageOf(adapter) == if adapter in BUILTIN then BUILTIN[adapter] else adapter
  {
    assert ADAPTERS + "sqlx" == "github.com/loykin/dbstore/adapters/sqlx";
    assert ADAPTERS + "rest" == "github.com/loykin/dbstore/adapters/rest";
    assert ADAPTERS + "opensearch" == "github.com/loykin/dbstore/adapters/opensearch";
    assert ADAPTERS + "elasticsearch" == "github.com/loykin/dbstore/adapters/elasticsearch";
  }

  lemma Builtins(name: string, adapter: string)
    requires name != "" && ':' !in name && adapter != ""
    ensures ParseSpec(name + ":" + adapter) == Some((name, PackageOf(adapter)))
  {
    SpecRoundTrip(name, adapter);
    BuiltinIs(adapter);
  }

  function NameOf(spec: string): string { if ParseSpec(spec).Some? then ParseSpec(spec).value.0 else "" }

  function PathOf(spec: string): Path { if ParseSpec(spec).Some? then ParseSpec(spec).value.1 else "" }

  // It can be read, comes under a new name, and its package can be used.
  predicate Accepted(tools: Tools, specs: seq<string>, i: int) {
    && 0 <= i < |specs| && ParseSpec(specs[i]).Some?
    && (forall j :: 0 <= j < i ==> NameOf(specs[j]) != NameOf(specs[i]))
    && tools.resolve(NameOf(specs[i]), PathOf(specs[i])).Some?
  }

  // The first that is not accepted, and what is wrong with it.
  predicate Blames(tools: Tools, specs: seq<string>, i: int, why: Problem) {
    && 0 <= i < |specs| && !Accepted(tools, specs, i) && (forall j :: 0 <= j < i ==> Accepted(tools, specs, j))
    && match why
       case BadSpec(spec) => spec == specs[i] && ParseSpec(specs[i]).None?
       case Duplicate(name) =>
         name == NameOf(specs[i]) != "" && exists j :: 0 <= j < i && NameOf(specs[j]) == name
       case Unresolved(name) =>
         && name == NameOf(specs[i]) != "" && (forall j :: 0 <= j < i ==> NameOf(specs[j]) != name)
         && tools.resolve(name, PathOf(specs[i])).None?
       case _ => false
  }

  lemma AcceptedEarlier(tools: Tools, specs: seq<string>, n: nat, i: int)
    requires i < n <= |specs|
    ensures Accepted(tools, specs[..n], i) <==> Accepted(tools, specs, i)
  {
    if 0 <= i {
      assert specs[..n][i] == specs[i] && forall j :: 0 <= j < i ==> specs[..n][j] == specs[j];
    }
  }

  // Every spec is accepted and gives its backend, or the first that is not is blamed.
  ghost predicate Requested(tools: Tools, specs: seq<string>, r: Resolution) {
    match r
    case Resolved(bs) =>
      && |bs| == |specs|
      && forall i :: 0 <= i < |specs| ==>
        && Accepted(tools, specs, i) && bs[i].name == NameOf(specs[i]) && bs[i].path == PathOf(specs[i])
        && tools.resolve(bs[i].name, bs[i].path) == Some(bs[i].pkgName)
    case Refused(why) => exists i :: Blames(tools, specs, i, why)
  }

  lemma {:induction false} ResolveIs(tools: Tools, specs: seq<string>)
    ensures Requested(tools, specs, Resolve(tools, specs))
  {
    if specs != [] {
      var n := |specs| - 1;
      ResolveIs(tools, specs[..n]);
      forall i | i < n ensures Accepted(tools, specs[..n], i) <==> Accepted(tools, specs, i) {
        AcceptedEarlier(tools, specs, n, i);
      }
      match Resolve(tools, specs[..n])
      case Refused(why) =>
        var i :| Blames(tools, specs[..n], i, why);
        BlamedEarlier(tools, specs, n, i, why);
      case Resolved(bs) => LastSpec(tools, specs, bs);
    }
  }

  lemma BlamedEarlier(tools: Tools, specs: seq<string>, n: nat, i: int, why: Problem)
    requires n <= |specs| && Blames(tools, specs[..n], i, why)
    ensures Blames(tools, specs, i, why)
  {
    forall j | 0 <= j <= i ensures Accepted(tools, specs[..n], j) <==> Accepted(tools, specs, j) {
      AcceptedEarlier(tools, specs, n, j);
    }
    assert forall j :: 0 <= j <= i ==> specs[..n][j] == specs[j];
  }

  // Whether the last spec comes under a new name.
  lemma LastName(specs: seq<string>, bs: seq<Backend>)
    requires specs != [] && |bs| == |specs| - 1
    requires forall i :: 0 <= i < |bs| ==> bs[i].name == NameOf(specs[i])
    ensures NameOf(specs[|specs| - 1]) in NamesOf(bs) <==>
      exists j :: 0 <= j < |specs| - 1 && NameOf(specs[j]) == NameOf(specs[|specs| - 1])
  {
    assert forall j :: 0 <= j < |bs| ==> NamesOf(bs)[j] == NameOf(specs[j]);
  }

  lemma LastBlamed(tools: Tools, specs: seq<string>, bs: seq<Backend>)
    requires specs != [] && Resolve(tools, specs[..|specs| - 1]) == Resolved(bs) && |bs| == |specs| - 1
    requires forall i :: 0 <= i < |bs| ==> bs[i].name == NameOf(specs[i]) && Accepted(tools, specs, i)
    requires Resolve(tools, specs).Refused?
    ensures Blames(tools, specs, |specs| - 1, Resolve(tools, specs).why)
  {
    LastName(specs, bs);
    assert ParseSpec(specs[|specs| - 1]).Some? ==> NameOf(specs[|specs| - 1]) != "";
  }

  lemma LastSpec(tools: Tools, specs: seq<string>, bs: seq<Backend>)
    requires specs != [] && Resolve(tools, specs[..|specs| - 1]) == Resolved(bs)
    requires Requested(tools, specs[..|specs| - 1], Resolved(bs))
    requires forall i :: 0 <= i < |specs| - 1 ==> Accepted(tools, specs, i)
    ensures Requested(tools, specs, Resolve(tools, specs))
  {
    assert forall j :: 0 <= j < |specs| - 1 ==> specs[..|specs| - 1][j] == specs[j];
    if Resolve(tools, specs).Refused? {
      LastBlamed(tools, specs, bs);
    } else {
      LastName(specs, bs);
      assert Accepted(tools, specs, |specs| - 1);
    }
  }
}
