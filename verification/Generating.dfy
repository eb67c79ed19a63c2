// One run of the generator over the files of a package: check everything that can
// be checked, then write.
module Generating {
  import opened Basics
  import opened Naming
  import opened Aliases
  import opened Importing

  // A receiver's type as the parser gives it.
  datatype Receiver = Ident(name: string) | Star(of: Receiver) | Index(of: Receiver) | IndexList(of: Receiver) | Other

  function ReceiverTypeName(e: Receiver): string {
    match e
    case Ident(name) => name
    case Star(x) => ReceiverTypeName(x)
    case Index(x) => ReceiverTypeName(x)
    case IndexList(x) => ReceiverTypeName(x)
    case Other => ""
  }

  // What a type can be wrapped in, from the outside in, and still be the same receiver type.
  datatype Wrapper = Pointer | OneParameter | Parameters

  function Wrapped(ws: seq<Wrapper>, core: Receiver): Receiver {
    if ws == [] then core
    else
      match ws[0]
      case Pointer => Star(Wrapped(ws[1..], core))
      case OneParameter => Index(Wrapped(ws[1..], core))
      case Parameters => IndexList(Wrapped(ws[1..], core))
  }

  // Whatever it is wrapped in, a type goes by its own name.
  lemma {:induction false} ReceiverIs(ws: seq<Wrapper>, name: string)
    ensures ReceiverTypeName(Wrapped(ws, Ident(name))) == name
    ensures ReceiverTypeName(Wrapped(ws, Other)) == ""
  {
    if ws != [] {
      ReceiverIs(ws[1..], name);
    }
  }

  lemma {:induction false} Unwrapped(e: Receiver) returns (ws: seq<Wrapper>)
    ensures e == Wrapped(ws, Other) || e == Wrapped(ws, Ident(ReceiverTypeName(e)))
  {
    match e
    case Ident(_) => ws := [];
    case Other => ws := [];
    case Star(x) =>
      var inner := Unwrapped(x);
      ws := [Pointer] + inner;
    case Index(x) =>
      var inner := Unwrapped(x);
      ws := [OneParameter] + inner;
    case IndexList(x) =>
      var inner := Unwrapped(x);
      ws := [Parameters] + inner;
  }

  datatype Func = Func(receiver: Option<Receiver>, name: string)

  datatype File = File(parses: bool, funcs: seq<Func>, text: string)

  // The source file's directory, by file name.
  type Files = map<string, File>

  datatype Method = Method(name: string, signature: string)

  // What parseInterface returns.
  datatype Interface = Interface(package: string, name: string, methods: seq<Method>, imports: map<Path, Alias>)

  datatype View = View(package: string, iface: string, base: string, methods: seq<Method>,
                       backends: seq<BackendView>, block: seq<ImportView>, domainBlock: seq<ImportView>)

  datatype Template = GenFile | Suite | Fixture(backend: BackendView) | Registry | Stub(backend: BackendView)

  // resolveBackend's answer for a name and an import path; a template's text, if it renders.
  datatype Tools = Tools(resolve: (string, Path) -> Option<string>, render: (View, Template) -> Option<File>)

  // `out` empty stands for the default output path.
  datatype Input = Input(source: string, iface: Interface, specs: seq<string>, test: bool, out: string)

  datatype Problem =
    | BadSpec(spec: string)
    | Duplicate(name: string)
    | Unresolved(name: string)
    | Unparsable
    | MissingMethods(backend: string, methods: seq<Method>)
    | StubTaken(path: string)
    | RenderFailed(path: string)

  datatype Outcome = Outcome(files: Files, problem: Option<Problem>)

  const BUILTIN: map<string, Path> := map[
    "sqlite" := "github.com/loykin/dbstore/adapters/sqlx",
    "mysql" := "github.com/loykin/dbstore/adapters/sqlx",
    "postgres" := "github.com/loykin/dbstore/adapters/sqlx",
    "sqlx" := "github.com/loykin/dbstore/adapters/sqlx",
    "rest" := "github.com/loykin/dbstore/adapters/rest",
    "opensearch" := "github.com/loykin/dbstore/adapters/opensearch",
    "elasticsearch" := "github.com/loykin/dbstore/adapters/elasticsearch"]

  // strings.Cut at the first colon.
  function Cut(spec: string): (string, Option<string>) {
    if spec == "" then ("", None)
    else if spec[0] == ':' then ("", Some(spec[1..]))
    else
      var (before, after) := Cut(spec[1..]);
      ([spec[0]] + before, after)
  }

  function ParseSpec(spec: string): Option<(string, Path)> {
    var (name, after) := Cut(spec);
    var adapter := if after.None? then name else after.value;
    if name == "" || adapter == "" then None
    else Some((name, if adapter in BUILTIN then BUILTIN[adapter] else adapter))
  }

  // A backend of a configuration file comes back as it was written.
  lemma {:induction false} SpecRoundTrip(name: string, adapter: string)
    requires ':' !in name
    ensures Cut(name + ":" + adapter) == (name, Some(adapter)) && Cut(name) == (name, None)
    ensures name != "" && adapter != "" ==>
      ParseSpec(name + ":" + adapter) == Some((name, if adapter in BUILTIN then BUILTIN[adapter] else adapter))
    ensures name != "" ==> ParseSpec(name) == ParseSpec(name + ":" + name)
  {
    CutAt(name, adapter);
    CutAt(name, name);
  }

  lemma {:induction false} CutAt(name: string, adapter: string)
    requires ':' !in name
    ensures Cut(name + ":" + adapter) == (name, Some(adapter)) && Cut(name) == (name, None)
  {
    if name == "" {
      assert (":" + adapter)[1..] == adapter && "" + ":" + adapter == ":" + adapter;
    } else {
      CutAt(name[1..], adapter);
      assert (name + ":" + adapter)[1..] == name[1..] + ":" + adapter;
      assert name == [name[0]] + name[1..];
    }
  }

  // The backends asked for, or the first thing wrong with them.
  datatype Resolution = Resolved(backends: seq<Backend>) | Refused(why: Problem)

  function Resolve(tools: Tools, specs: seq<string>): Resolution {
    if specs == [] then Resolved([]) else
    var last := specs[|specs| - 1];
    match Resolve(tools, specs[..|specs| - 1])
    case Refused(why) => Refused(why)
    case Resolved(bs) =>
      match ParseSpec(last)
      case None => Refused(BadSpec(last))
      case Some((name, path)) =>
        if name in NamesOf(bs) then Refused(Duplicate(name))
        else
          match tools.resolve(name, path)
          case None => Refused(Unresolved(name))
          case Some(pkg) => Resolved(bs + [Backend(name, path, pkg)])
  }

  ghost function ViewOf(iface: Interface, backends: seq<Backend>): View {
    var table := GrownBy(SeedOf(iface.imports), backends);
    var block := BlockOf(table.imports);
    View(iface.package, iface.name, BaseName(iface.name), iface.methods,
         ViewsOf(SeedOf(iface.imports), backends), block, Chosen(block, iface.imports))
  }

  predicate Receives(f: Func, struct: string) {
    f.receiver.Some? && ReceiverTypeName(f.receiver.value) == struct
  }

  // The production methods declared for a type, wherever in the package they are.
  ghost function MethodsOf(files: Files, struct: string): set<string> {
    set p, f | p in files && Scanned(p) && f in files[p].funcs && Receives(f, struct) :: f.name
  }

  // A production file of the package has this method, on the type itself, on a pointer
  // to it, or on an instance of it.
  ghost predicate Declares(files: Files, struct: string, name: string) {
    exists p, ws :: p in files && Scanned(p) && Func(Some(Wrapped(ws, Ident(struct))), name) in files[p].funcs
  }

  lemma MethodsAre(files: Files, struct: string)
    requires struct != ""
    ensures forall x :: x in MethodsOf(files, struct) <==> Declares(files, struct, x)
  {
    forall x ensures x in MethodsOf(files, struct) <==> Declares(files, struct, x) {
      MethodIs(files, struct, x);
    }
  }

  lemma MethodIs(files: Files, struct: string, x: string)
    requires struct != ""
    ensures x in MethodsOf(files, struct) <==> Declares(files, struct, x)
  {
    if x in MethodsOf(files, struct) {
      var p, f :| p in files && Scanned(p) && f in files[p].funcs && Receives(f, struct) && f.name == x;
      var ws := Unwrapped(f.receiver.value);
      ReceiverIs(ws, struct);
      assert f == Func(Some(Wrapped(ws, Ident(struct))), x);
    }
    if p, ws :| p in files && Scanned(p) && Func(Some(Wrapped(ws, Ident(struct))), x) in files[p].funcs {
      ReceiverIs(ws, struct);
      assert Receives(Func(Some(Wrapped(ws, Ident(struct))), x), struct);
    }
  }

  ghost predicate AllParse(files: Files) {
    forall p :: p in files && Scanned(p) ==> files[p].parses
  }

  function Missing(want: seq<Method>, have: set<string>): seq<Method> {
    if want == [] then []
    else
      var init, last := Missing(want[..|want| - 1], have), want[|want| - 1];
      if last.name in have then init else init + [last]
  }

  function NamesIn(methods: seq<Method>): set<string> { set m | m in methods :: m.name }

  lemma {:induction false} NoneMissing(want: seq<Method>, have: set<string>)
    ensures Missing(want, have) == [] <==> NamesIn(want) <= have
  {
    if want != [] {
      var init, last := want[..|want| - 1], want[|want| - 1];
      NoneMissing(init, have);
      assert want == init + [last];
      assert NamesIn(want) == NamesIn(init) + {last.name};
    }
  }

  // What stands in the way of one backend.
  ghost function Check(view: View, files: Files, stem: string, b: BackendView): Option<Problem> {
    var have := MethodsOf(files, StructName(view.base, b.name));
    if !AllParse(files) then Some(Unparsable)
    else if have != {} then
      (if Missing(view.methods, have) == [] then None else Some(MissingMethods(b.name, Missing(view.methods, have))))
    else if StubPath(stem, b.name) in files then Some(StubTaken(StubPath(stem, b.name)))
    else None
  }

  // What the check finds, backend by backend.
  ghost function Checks(view: View, files: Files, stem: string): (r: seq<Option<Problem>>)
    ensures |r| == |view.backends|
    ensures forall i :: 0 <= i < |r| ==> r[i] == Check(view, files, stem, view.backends[i])
  {
    seq(|view.backends|, i requires 0 <= i < |view.backends| => Check(view, files, stem, view.backends[i]))
  }

  function First(found: seq<Option<Problem>>): Option<Problem> {
    if found == [] then None
    else
      var before := First(found[..|found| - 1]);
      if before.Some? then before else found[|found| - 1]
  }

  // The check ends at the first problem.
  lemma {:induction false} FirstStays(found: seq<Option<Problem>>, n: nat)
    requires n <= |found| && First(found[..n]).Some?
    ensures First(found) == First(found[..n])
  {
    if n < |found| {
      assert found[..|found| - 1][..n] == found[..n];
      FirstStays(found[..|found| - 1], n);
    } else {
      assert found[..n] == found;
    }
  }

  lemma FirstMore(found: seq<Option<Problem>>, n: nat)
    requires n < |found|
    ensures First(found[..n + 1]) == if First(found[..n]).Some? then First(found[..n]) else found[n]
  {
    assert found[..n + 1][..n] == found[..n];
  }

  lemma {:induction false} FirstIsFound(found: seq<Option<Problem>>)
    ensures First(found).Some? ==> First(found) in found
    ensures First(found).None? <==> forall p :: p in found ==> p.None?
  {
    if found != [] {
      FirstIsFound(found[..|found| - 1]);
      assert found == found[..|found| - 1] + [found[|found| - 1]];
    }
  }

  ghost function Preflight(view: View, files: Files, stem: string): Option<Problem> {
    First(Checks(view, files, stem))
  }

  function Written(tools: Tools, view: View, r: Outcome, path: string, t: Template): Outcome {
    if r.problem.Some? then r
    else
      match tools.render(view, t)
      case None => Outcome(r.files, Some(RenderFailed(path)))
      case Some(f) => Outcome(r.files[path := f], None)
  }

  function WrittenIfMissing(tools: Tools, view: View, r: Outcome, path: string, t: Template): Outcome {
    if path in r.files then r else Written(tools, view, r, path, t)
  }

  function FixturesWritten(tools: Tools, view: View, stem: string, r: Outcome, n: nat): Outcome
    requires n <= |view.backends|
  {
    if n == 0 then r
    else
      var b := view.backends[n - 1];
      WrittenIfMissing(tools, view, FixturesWritten(tools, view, stem, r, n - 1), FixturePath(stem, b.name), Fixture(b))
  }

  function StubsWritten(tools: Tools, view: View, stem: string, existing: set<string>, r: Outcome, n: nat): Outcome
    requires n <= |view.backends|
  {
    if n == 0 then r
    else
      var b, before := view.backends[n - 1], StubsWritten(tools, view, stem, existing, r, n - 1);
      if b.name in existing then before
      else WrittenIfMissing(tools, view, before, StubPath(stem, b.name), Stub(b))
  }

  function TestsWritten(tools: Tools, view: View, stem: string, r: Outcome): Outcome {
    var suite := WrittenIfMissing(tools, view, r, SuitePath(stem), Suite);
    Written(tools, view, FixturesWritten(tools, view, stem, suite, |view.backends|), RegistryPath(stem), Registry)
  }

  // Everything after the preflight check.
  function AllWritten(tools: Tools, view: View, stem: string, out: string, test: bool,
                  existing: set<string>, files: Files): Outcome {
    var gen := Written(tools, view, Outcome(files, None), out, GenFile);
    var tests := if test then TestsWritten(tools, view, stem, gen) else gen;
    StubsWritten(tools, view, stem, existing, tests, |view.backends|)
  }

  // The names of those of the first n backends that are implemented already.
  ghost function Existing(view: View, files: Files, n: nat): set<string>
    requires n <= |view.backends|
  {
    set b | b in view.backends[..n] && Implemented(view, files, b) :: b.name
  }

  lemma MoreExisting(view: View, files: Files, n: nat)
    requires n < |view.backends|
    ensures Existing(view, files, n + 1) ==
      Existing(view, files, n) + if Implemented(view, files, view.backends[n]) then {view.backends[n].name} else {}
  {
    assert view.backends[..n + 1] == view.backends[..n] + [view.backends[n]];
  }

  ghost predicate Implemented(view: View, files: Files, b: BackendView) {
    MethodsOf(files, StructName(view.base, b.name)) != {}
  }

  function OutPath(input: Input): string {
    if input.out == "" then GenPath(Stem(input.source)) else input.out
  }

  // The whole run, as a function of what it is given and of the files it finds.
  ghost function RunOf(tools: Tools, input: Input, files: Files): Outcome {
    match Resolve(tools, input.specs)
    case Refused(why) => Outcome(files, Some(why))
    case Resolved(backends) =>
      var view, stem := ViewOf(input.iface, backends), Stem(input.source);
      var problem := Preflight(view, files, stem);
      if problem.Some? then Outcome(files, problem)
      else AllWritten(tools, view, stem, OutPath(input), input.test, Existing(view, files, |view.backends|), files)
  }

  // Go packages have the names their types say they have.
  ghost predicate Honest(tools: Tools) {
    forall name, path :: tools.resolve(name, path).Some? ==> Named(tools.resolve(name, path).value, path)
  }

  class Workspace {
    var files: Files

    // inspectBackend, in whatever order the directory is read.
    method InspectBackend(struct: string) returns (ok: bool, methods: set<string>)
      ensures ok <==> AllParse(files)
      ensures ok ==> methods == MethodsOf(files, struct)
      ensures ok && struct != "" ==> forall x :: x in methods <==> Declares(files, struct, x)
    {
      var todo := files.Keys;
      methods := {};
      while todo != {}
        invariant todo <= files.Keys
        invariant forall p :: p in files && p !in todo && Scanned(p) ==> files[p].parses
        invariant methods == MethodsOf(files - todo, struct)
        decreases todo
      {
        var p :| p in todo;
        if Scanned(p) && !files[p].parses {
          return false, {};
        }
        MoreMethods(files, todo, p, struct);
        if Scanned(p) {
          methods := methods + DeclaredBy(files[p].funcs, struct);
        }
        todo := todo - {p};
      }
      assert files - todo == files;
      if struct != "" {
        MethodsAre(files, struct);
      }
      ok := true;
    }

    static function DeclaredBy(funcs: seq<Func>, struct: string): set<string> {
      set f | f in funcs && Receives(f, struct) :: f.name
    }

    static lemma MoreMethods(files: Files, todo: set<string>, p: string, struct: string)
      requires p in todo && p in files
      ensures MethodsOf(files - (todo - {p}), struct) ==
        MethodsOf(files - todo, struct) + if Scanned(p) then DeclaredBy(files[p].funcs, struct) else {}
    {
    }

    // missingMethods.
    static method FindMissing(want: seq<Method>, have: set<string>) returns (missing: seq<Method>)
      ensures missing == Missing(want, have)
    {
      missing := [];
      for i := 0 to |want|
        invariant missing == Missing(want[..i], have)
      {
        assert want[..i + 1][..i] == want[..i];
        if want[i].name !in have {
          missing := missing + [want[i]];
        }
      }
      assert want[..|want|] == want;
    }

    static method ResolveAll(tools: Tools, specs: seq<string>) returns (r: Resolution)
      ensures r == Resolve(tools, specs)
    {
      var resolved: seq<Backend>, seen: set<string> := [], {};
      for i := 0 to |specs|
        invariant Resolve(tools, specs[..i]) == Resolved(resolved)
        invariant forall x :: x in seen <==> x in NamesOf(resolved)
      {
        assert specs[..i + 1][..i] == specs[..i];
        var parsed := ParseSpec(specs[i]);
        if parsed.None? {
          RefusedStays(tools, specs, i + 1);
          return Refused(BadSpec(specs[i]));
        }
        var (name, path) := parsed.value;
        if name in seen {
          RefusedStays(tools, specs, i + 1);
          return Refused(Duplicate(name));
        }
        seen := seen + {name};
        var pkg := tools.resolve(name, path);
        if pkg.None? {
          RefusedStays(tools, specs, i + 1);
          return Refused(Unresolved(name));
        }
        MoreNames(resolved, Backend(name, path, pkg.value));
        resolved := resolved + [Backend(name, path, pkg.value)];
      }
      assert specs[..|specs|] == specs;
      r := Resolved(resolved);
    }

    static lemma {:induction false} RefusedStays(tools: Tools, specs: seq<string>, n: nat)
      requires n <= |specs| && Resolve(tools, specs[..n]).Refused?
      ensures Resolve(tools, specs) == Resolve(tools, specs[..n])
    {
      if n < |specs| {
        assert specs[..|specs| - 1][..n] == specs[..n];
        RefusedStays(tools, specs[..|specs| - 1], n);
      } else {
        assert specs[..n] == specs;
      }
    }

    static method BuildView(iface: Interface, backends: seq<Backend>) returns (view: View)
      requires Tidy(iface.imports)
      requires forall i :: 0 <= i < |backends| ==> Named(backends[i].pkgName, backends[i].path)
      ensures view == ViewOf(iface, backends)
    {
      var views, block, domainBlock := BuildImports(iface.imports, backends);
      view := View(iface.package, iface.name, BaseName(iface.name), iface.methods, views, block, domainBlock);
    }

    method CheckOne(view: View, stem: string, b: BackendView) returns (problem: Option<Problem>, implemented: bool)
      ensures problem == Check(view, files, stem, b)
      ensures problem.None? ==> (implemented <==> Implemented(view, files, b))
    {
      var ok, have := InspectBackend(StructName(view.base, b.name));
      if !ok {
        return Some(Unparsable), false;
      }
      if have != {} {
        var missing := FindMissing(view.methods, have);
        return if missing != [] then Some(MissingMethods(b.name, missing)) else None, true;
      }
      return if StubPath(stem, b.name) in files then Some(StubTaken(StubPath(stem, b.name))) else None, false;
    }

    // The loop over the backends before anything is written.
    method CheckAll(view: View, stem: string) returns (problem: Option<Problem>, existing: set<string>)
      ensures problem == Preflight(view, files, stem)
      ensures problem.None? ==> existing == Existing(view, files, |view.backends|)
    {
      existing := {};
      ghost var found := Checks(view, files, stem);
      for n := 0 to |view.backends|
        invariant First(found[..n]) == None
        invariant existing == Existing(view, files, n)
      {
        var b := view.backends[n];
        var implemented;
        problem, implemented := CheckOne(view, stem, b);
        FirstMore(found, n);
        if problem.Some? {
          FirstStays(found, n + 1);
          return;
        }
        MoreExisting(view, files, n);
        if implemented {
          existing := existing + {b.name};
        }
      }
      assert found[..|view.backends|] == found;
      problem := None;
    }

    method WriteFile(tools: Tools, view: View, path: string, t: Template) returns (problem: Option<Problem>)
      modifies this
      ensures Outcome(files, problem) == Written(tools, view, Outcome(old(files), None), path, t)
    {
      var content := tools.render(view, t);
      if content.None? {
        return Some(RenderFailed(path));
      }
      files := files[path := content.value];
      return None;
    }

    method WriteIfMissing(tools: Tools, view: View, path: string, t: Template) returns (problem: Option<Problem>)
      modifies this
      ensures Outcome(files, problem) == WrittenIfMissing(tools, view, Outcome(old(files), None), path, t)
    {
      if path in files {
        return None;
      }
      problem := WriteFile(tools, view, path, t);
    }

    method WriteTests(tools: Tools, view: View, stem: string) returns (problem: Option<Problem>)
      modifies this
      ensures Outcome(files, problem) == TestsWritten(tools, view, stem, Outcome(old(files), None))
    {
      ghost var was := files;
      problem := WriteIfMissing(tools, view, SuitePath(stem), Suite);
      ghost var suite := Outcome(files, problem);
      if problem.Some? {
        FixturesStop(tools, view, stem, suite, 0, |view.backends|);
        return;
      }
      for n := 0 to |view.backends|
        invariant problem.None? && Outcome(files, None) == FixturesWritten(tools, view, stem, suite, n)
      {
        var b := view.backends[n];
        problem := WriteIfMissing(tools, view, FixturePath(stem, b.name), Fixture(b));
        if problem.Some? {
          FixturesStop(tools, view, stem, suite, n + 1, |view.backends|);
          return;
        }
      }
      problem := WriteFile(tools, view, RegistryPath(stem), Registry);
    }

    static lemma {:induction false} FixturesStop(tools: Tools, view: View, stem: string, r: Outcome, n: nat, m: nat)
      requires n <= m <= |view.backends| && FixturesWritten(tools, view, stem, r, n).problem.Some?
      ensures FixturesWritten(tools, view, stem, r, m) == FixturesWritten(tools, view, stem, r, n)
    {
      if n < m {
        FixturesStop(tools, view, stem, r, n, m - 1);
      }
    }

    method WriteStubs(tools: Tools, view: View, stem: string, existing: set<string>) returns (problem: Option<Problem>)
      modifies this
      ensures Outcome(files, problem) ==
        StubsWritten(tools, view, stem, existing, Outcome(old(files), None), |view.backends|)
    {
      ghost var was := Outcome(files, None);
      problem := None;
      for n := 0 to |view.backends|
        invariant problem.None? && Outcome(files, None) == StubsWritten(tools, view, stem, existing, was, n)
      {
        var b := view.backends[n];
        if b.name !in existing {
          problem := WriteIfMissing(tools, view, StubPath(stem, b.name), Stub(b));
          if problem.Some? {
            StubsStop(tools, view, stem, existing, was, n + 1, |view.backends|);
            return;
          }
        }
      }
    }

    static lemma {:induction false} StubsStop(tools: Tools, view: View, stem: string, existing: set<string>,
                                              r: Outcome, n: nat, m: nat)
      requires n <= m <= |view.backends| && StubsWritten(tools, view, stem, existing, r, n).problem.Some?
      ensures StubsWritten(tools, view, stem, existing, r, m) == StubsWritten(tools, view, stem, existing, r, n)
    {
      if n < m {
        StubsStop(tools, view, stem, existing, r, n, m - 1);
      }
    }

    method Run(tools: Tools, input: Input) returns (problem: Option<Problem>)
      requires Tidy(input.iface.imports) && Honest(tools)
      modifies this
      ensures Outcome(files, problem) == RunOf(tools, input, old(files))
    {
      var r := ResolveAll(tools, input.specs);
      if r.Refused? {
        return Some(r.why);
      }
      AllHonest(tools, input.specs);
      var view := BuildView(input.iface, r.backends);
      var stem := Stem(input.source);
      var existing;
      problem, existing := CheckAll(view, stem);
      if problem.Some? {
        return;
      }
      ghost var gen := Written(tools, view, Outcome(files, None), OutPath(input), GenFile);
      problem := WriteFile(tools, view, OutPath(input), GenFile);
      ghost var tests := if input.test then TestsWritten(tools, view, stem, gen) else gen;
      if problem.Some? {
        if input.test {
          TestsStop(tools, view, stem, gen);
        }
        StubsStop(tools, view, stem, existing, tests, 0, |view.backends|);
        return;
      }
      if input.test {
        problem := WriteTests(tools, view, stem);
        if problem.Some? {
          StubsStop(tools, view, stem, existing, tests, 0, |view.backends|);
          return;
        }
      }
      problem := WriteStubs(tools, view, stem, existing);
    }

    static lemma TestsStop(tools: Tools, view: View, stem: string, r: Outcome)
      requires r.problem.Some?
      ensures TestsWritten(tools, view, stem, r) == r
    {
      FixturesStop(tools, view, stem, r, 0, |view.backends|);
    }

    static lemma {:induction false} AllHonest(tools: Tools, specs: seq<string>)
      requires Honest(tools) && Resolve(tools, specs).Resolved?
      ensures forall i :: 0 <= i < |Resolve(tools, specs).backends| ==>
        Named(Resolve(tools, specs).backends[i].pkgName, Resolve(tools, specs).backends[i].path)
    {
      if specs != [] {
        AllHonest(tools, specs[..|specs| - 1]);
      }
    }
  }
}
