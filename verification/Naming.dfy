// The names and paths the generator derives.
module Naming {
  predicate EndsWith(s: string, suffix: string) {
    |suffix| <= |s| && s[|s| - |suffix|..] == suffix
  }

  function Trim(s: string, suffix: string): string {
    if EndsWith(s, suffix) then s[..|s| - |suffix|] else s
  }

  // A trailing "Repository" goes, unless it is the whole name.
  function BaseName(iface: string): string {
    if |iface| > |"Repository"| then Trim(iface, "Repository") else iface
  }

  function Upper(c: char): char { if 'a' <= c <= 'z' then c - 'a' + 'A' else c }

  function Lower(c: char): char { if 'A' <= c <= 'Z' then c - 'A' + 'a' else c }

  function UpperFirst(s: string): string { if s == "" then s else [Upper(s[0])] + s[1..] }

  function LowerFirst(s: string): string { if s == "" then s else [Lower(s[0])] + s[1..] }

  function StructName(base: string, backend: string): string { UpperFirst(backend) + base + "Backend" }

  function WrapperStruct(base: string): string { LowerFirst(base) + "Repo" }

  // File names in the directory of the source file.
  function Stem(source: string): string { Trim(source, ".go") }

  function GenPath(stem: string): string { stem + "_gen.go" }

  function SuitePath(stem: string): string { stem + "_compliance_test.go" }

  function RegistryPath(stem: string): string { stem + "_compliance_gen_test.go" }

  function FixturePath(stem: string, backend: string): string { stem + "_" + backend + "_test.go" }

  function StubPath(stem: string, backend: string): string { stem + "_" + backend + ".go" }

  // inspectBackend reads production files of the directory only.
  predicate Scanned(path: string) {
    '/' !in path && EndsWith(path, ".go") && !EndsWith(path, "_test.go")
  }

  lemma Suffixed(s: string, suffix: string)
    ensures EndsWith(s + suffix, suffix) && Trim(s + suffix, suffix) == s
  {
    assert (s + suffix)[|s|..] == suffix;
  }

  lemma Cancel(p: string, a: string, b: string, s: string)
    requires p + a + s == p + b + s
    ensures a == b
  {
    var x, y := p + a + s, p + b + s;
    assert |a| == |b|;
    assert a == x[|p|..|p| + |a|] && b == y[|p|..|p| + |b|];
  }

  // "Repository" goes from the end of a longer name, and nothing else goes.
  lemma BaseNameOf(iface: string, base: string)
    ensures base != "" && iface == base + "Repository" ==> BaseName(iface) == base
    ensures (forall b: string :: b != "" ==> iface != b + "Repository") ==> BaseName(iface) == iface
    ensures BaseName("Repository") == "Repository" && (BaseName(iface) == "" ==> iface == "")
  {
    Suffixed(base, "Repository");
    if EndsWith(iface, "Repository") && |iface| > |"Repository"| {
      var b := iface[..|iface| - |"Repository"|];
      assert iface == b + "Repository";
    }
  }

  // A backend's struct is named after the backend, its first letter raised, and the interface.
  lemma StructIs(base: string, backend: string)
    requires backend != ""
    ensures var s, c := StructName(base, backend), backend[0];
      && |s| == |backend| + |base| + 7
      && (if 'a' <= c <= 'z' then s[0] as int == c as int - 32 else s[0] == c)
      && s[1..|backend|] == backend[1..] && s[|backend|..] == base + "Backend"
  {
    var s := StructName(base, backend);
    assert s == UpperFirst(backend) + (base + "Backend");
    assert s[1..|backend|] == UpperFirst(backend)[1..];
  }

  // The wrapper after the interface, its first letter lowered.
  lemma WrapperIs(base: string)
    requires base != ""
    ensures var s, c := WrapperStruct(base), base[0];
      && |s| == |base| + 4
      && (if 'A' <= c <= 'Z' then s[0] as int == c as int + 32 else s[0] == c)
      && s[1..|base|] == base[1..] && s[|base|..] == "Repo"
  {
    assert WrapperStruct(base)[1..|base|] == LowerFirst(base)[1..];
  }

  // A wrapper's methods are never taken for a backend's.
  lemma WrapperApart(base: string, backend: string)
    ensures WrapperStruct(base) != StructName(base, backend)
  {
    var w, s := WrapperStruct(base), StructName(base, backend);
    assert w[|w| - 1] == 'o' && s[|s| - 1] == 'd';
  }

  // Backend names that differ only in the case of their first letter share a struct.
  lemma SameStruct(base: string, a: string, b: string)
    ensures StructName(base, a) == StructName(base, b) <==> UpperFirst(a) == UpperFirst(b)
  {
    assert StructName(base, a) == "" + UpperFirst(a) + (base + "Backend");
    assert StructName(base, b) == "" + UpperFirst(b) + (base + "Backend");
    if StructName(base, a) == StructName(base, b) {
      Cancel("", UpperFirst(a), UpperFirst(b), base + "Backend");
    }
  }

  // Which backend names make two generated paths one.
  lemma Collisions(stem: string, a: string, b: string)
    ensures StubPath(stem, a) == StubPath(stem, b) <==> a == b
    ensures FixturePath(stem, a) == FixturePath(stem, b) <==> a == b
    ensures StubPath(stem, a) == GenPath(stem) <==> a == "gen"
    ensures FixturePath(stem, a) == SuitePath(stem) <==> a == "compliance"
    ensures FixturePath(stem, a) == RegistryPath(stem) <==> a == "compliance_gen"
    ensures StubPath(stem, a) == FixturePath(stem, b) <==> a == b + "_test"
    ensures StubPath(stem, a) == SuitePath(stem) <==> a == "compliance_test"
    ensures StubPath(stem, a) == RegistryPath(stem) <==> a == "compliance_gen_test"
  {
    var p := stem + "_";
    assert GenPath(stem) == p + "gen" + ".go";
    assert SuitePath(stem) == p + "compliance" + "_test.go" == p + "compliance_test" + ".go";
    assert RegistryPath(stem) == p + "compliance_gen" + "_test.go" == p + "compliance_gen_test" + ".go";
    assert FixturePath(stem, b) == p + (b + "_test") + ".go";
    StubIs(p, a, b);
    StubIs(p, a, "gen");
    StubIs(p, a, "compliance_test");
    StubIs(p, a, "compliance_gen_test");
    StubIs(p, a, b + "_test");
    FixtureIs(p, a, b);
    FixtureIs(p, a, "compliance");
    FixtureIs(p, a, "compliance_gen");
  }

  lemma StubIs(p: string, a: string, b: string)
    ensures p + a + ".go" == p + b + ".go" <==> a == b
  {
    if p + a + ".go" == p + b + ".go" {
      Cancel(p, a, b, ".go");
    }
  }

  lemma FixtureIs(p: string, a: string, b: string)
    ensures p + a + "_test.go" == p + b + "_test.go" <==> a == b
  {
    if p + a + "_test.go" == p + b + "_test.go" {
      Cancel(p, a, b, "_test.go");
    }
  }

  // A backend whose stub the next run will not read.
  lemma StubScanned(stem: string, backend: string)
    requires '/' !in stem && '/' !in backend
    ensures Scanned(StubPath(stem, backend)) <==> backend != "test" && !EndsWith(backend, "_test")
    ensures !Scanned(SuitePath(stem)) && !Scanned(RegistryPath(stem)) && !Scanned(FixturePath(stem, backend))
  {
    var path := StubPath(stem, backend);
    Suffixed(stem + "_" + backend, ".go");
    Suffixed(stem + "_compliance", "_test.go");
    Suffixed(stem + "_compliance_gen", "_test.go");
    Suffixed(stem + "_" + backend, "_test.go");
    assert SuitePath(stem) == stem + "_compliance" + "_test.go";
    assert RegistryPath(stem) == stem + "_compliance_gen" + "_test.go";
    var body := stem + "_" + backend;
    assert path == body + ".go";
    TestEnding(body);
    TestTail(stem, backend);
  }

  lemma TestEnding(body: string)
    ensures EndsWith(body + ".go", "_test.go") <==> EndsWith(body, "_test")
  {
    var path := body + ".go";
    if EndsWith(body, "_test") {
      assert path[|path| - 8..] == body[|body| - 5..] + ".go";
    }
    if EndsWith(path, "_test.go") {
      assert path[|path| - 8..][..5] == body[|body| - 5..];
      assert "_test.go"[..5] == "_test";
    }
  }

  lemma TestTail(stem: string, backend: string)
    ensures EndsWith(stem + "_" + backend, "_test") <==> backend == "test" || EndsWith(backend, "_test")
  {
    var body, n := stem + "_" + backend, |backend|;
    if n >= 5 {
      assert body[|body| - 5..] == backend[n - 5..];
    } else if n == 4 {
      assert body[|body| - 5..] == "_" + backend;
      assert "_test"[1..] == "test" && ("_" + backend)[1..] == backend;
      assert "_" + "test" == "_test";
    } else if |body| >= 5 {
      assert body[|body| - 5..][4 - n] == body[|stem|] == '_' != "_test"[4 - n];
    }
  }
}
