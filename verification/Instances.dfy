// Runs with the plainest tools: where a second run fails, and where it changes files.
module Instances {
  import opened Basics
  import opened Naming
  import opened Aliases
  import opened Importing
  import opened Generating
  import opened Regenerating
  import opened Rerunning

  // The plainest tools that answer every request.
  function PlainFile(view: View, t: Template): File {
    match t
    case Stub(b) =>
      File(true, seq(|view.methods|, i requires 0 <= i < |view.methods| =>
        Func(Some(Ident(StructName(view.base, b.name))), view.methods[i].name)), "")
    case _ => File(true, [], "")
  }

  const PLAIN := Tools((name, path) => Some(if path == DBSTORE then "dbstore" else "context"),
                       (view, t) => Some(PlainFile(view, t)))

  lemma PlainFaithful()
    ensures Faithful(PLAIN)
  {
    forall view: View, b: BackendView ensures IsStub(PlainFile(view, Stub(b)), view, b) {
      var f, struct := PlainFile(view, Stub(b)), StructName(view.base, b.name);
      forall x | x in NamesIn(view.methods) ensures x in Workspace.DeclaredBy(f.funcs, struct) {
        var i :| 0 <= i < |view.methods| && view.methods[i].name == x;
        assert f.funcs[i] == Func(Some(Ident(struct)), x);
      }
    }
  }

  lemma {:induction false} PlainWrites(view: View, stem: string, existing: set<string>, r: Outcome, n: nat)
    requires n <= |view.backends| && r.problem.None?
    ensures StubsWritten(PLAIN, view, stem, existing, r, n).problem.None?
  {
    if n > 0 {
      PlainWrites(view, stem, existing, r, n - 1);
    }
  }

  // A directory with nothing in it but the source file.
  const ALONE: Files := map["user.go" := File(true, [], "")]

  // The first run there, with such tools, goes through.
  lemma PlainRun(input: Input)
    requires Resolve(PLAIN, input.specs).Resolved? && !input.test && input.source == "user.go"
    ensures RunOf(PLAIN, input, ALONE).problem.None?
  {
    var view, stem := ViewFor(PLAIN, input), Stem(input.source);
    forall b | b in view.backends ensures Ready(view, ALONE, stem, b) {
      assert |StubPath(stem, b.name)| > |stem| + 3 == |"user.go"|;
    }
    PreflightPasses(view, ALONE, stem);
    var gen := Written(PLAIN, view, Outcome(ALONE, None), OutPath(input), GenFile);
    PlainWrites(view, stem, Existing(view, ALONE, |view.backends|), gen, |view.backends|);
  }

  function Spec(name: string, adapter: string): string { name + ":" + adapter }

  lemma OneBackend(name: string)
    requires ':' !in name && name != ""
    ensures Resolve(PLAIN, [Spec(name, "sqlx")]) == Resolved([Backend(name, BUILTIN["sqlx"], "context")])
  {
    SpecRoundTrip(name, "sqlx");
    OneSpec(Spec(name, "sqlx"), name, BUILTIN["sqlx"]);
  }

  lemma OneSpec(spec: string, name: string, path: Path)
    requires ParseSpec(spec) == Some((name, path)) && path != DBSTORE
    ensures Resolve(PLAIN, [spec]) == Resolved([Backend(name, path, "context")])
  {
    assert [spec][..0] == [];
  }

  lemma OneView(t: Table, b: Backend)
    ensures |ViewsOf(t, [b])| == 1 && ViewsOf(t, [b])[0].name == b.name
  {
    assert [b][..0] == [];
    ViewsDistinct(t, [b]);
  }

  function Example(methods: seq<Method>, name: string, out: string): Input {
    Input("user.go", Interface("user", "UserRepository", methods, map[]), [Spec(name, "sqlx")], false, out)
  }

  lemma ExampleViews(methods: seq<Method>, name: string, out: string)
    requires ':' !in name && name != ""
    ensures var input := Example(methods, name, out);
      && Resolve(PLAIN, input.specs).Resolved? && ViewFor(PLAIN, input).methods == methods
      && |ViewFor(PLAIN, input).backends| == 1 && ViewFor(PLAIN, input).backends[0].name == name
  {
    OneBackend(name);
    OneView(SeedOf(map[]), Backend(name, BUILTIN["sqlx"], "context"));
  }

  // One backend in a fresh package: the first run succeeds, and the second exactly
  // when the interface has a method and the stub is neither a test file nor at the
  // output path.
  lemma RunAgainMayFail(methods: seq<Method>, name: string, out: string)
    requires ':' !in name && name != "" && out != "user.go"
    ensures var input := Example(methods, name, out);
      var first := RunOf(PLAIN, input, ALONE);
      && first.problem.None?
      && (RunOf(PLAIN, input, first.files).problem.None? <==>
            methods != [] && Scanned(StubPath("user", name)) && StubPath("user", name) != OutPath(input))
  {
    var input := Example(methods, name, out);
    ExampleViews(methods, name, out);
    ExampleStem();
    OneBackendAgain(input);
  }

  lemma OneBackendAgain(input: Input)
    requires Resolve(PLAIN, input.specs).Resolved? && |ViewFor(PLAIN, input).backends| == 1
    requires !input.test && input.source == "user.go" && OutPath(input) != "user.go"
    ensures var view, first := ViewFor(PLAIN, input), RunOf(PLAIN, input, ALONE);
      && first.problem.None?
      && (RunOf(PLAIN, input, first.files).problem.None? <==>
            view.methods != [] && Readable(Stem(input.source), OutPath(input), view.backends[0]))
  {
    PlainRun(input);
    PlainFaithful();
    NoneToLose(ViewFor(PLAIN, input), OutPath(input));
    RunAgainKeeps(PLAIN, input, ALONE);
    ExampleAgain(ViewFor(PLAIN, input), Stem(input.source), OutPath(input));
  }

  lemma NoneToLose(view: View, out: string)
    ensures OutIsFree(view, ALONE, out)
  {
  }

  lemma ExampleStem()
    ensures Stem("user.go") == "user"
  {
    assert "user.go" == "user" + ".go";
    Suffixed("user", ".go");
  }

  lemma ExampleAgain(view: View, stem: string, out: string)
    requires |view.backends| == 1
    ensures AllRegenerable(view, ALONE, stem, out) <==>
      view.methods != [] && Readable(stem, out, view.backends[0])
  {
    var b := view.backends[0];
    assert !Implemented(view, ALONE, b);
    if Readable(stem, out, b) {
      assert Serves(view, stem, out, StructName(view.base, b.name), 0);
    }
  }

  // The source file, and the backend's methods written by hand in the file that the
  // generator takes for its own.
  function Handwritten(methods: seq<Method>, name: string): Files {
    ALONE[GenPath("user") := File(true, seq(|methods|, i requires 0 <= i < |methods| =>
      Func(Some(Ident(StructName(BaseName("UserRepository"), name))), methods[i].name)), "by hand")]
  }

  lemma GenScanned()
    ensures Scanned(GenPath("user")) && GenPath("user") != "user.go"
  {
    assert GenPath("user") == "user_gen.go";
  }

  lemma ByHand(view: View, methods: seq<Method>, name: string, b: BackendView)
    requires methods != [] && view.methods == methods && view.base == BaseName("UserRepository") && b.name == name
    ensures var files := Handwritten(methods, name);
      && MethodsOf(files, StructName(view.base, name)) == NamesIn(methods) != {}
      && KeptMethods(view, files, GenPath("user"), b) == {} && AllParse(files)
  {
    var files, struct := Handwritten(methods, name), StructName(view.base, name);
    var out := GenPath("user");
    GenScanned();
    forall x | x in NamesIn(methods) ensures x in MethodsOf(files, struct) {
      var i :| 0 <= i < |methods| && methods[i].name == x;
      assert files[out].funcs[i] == Func(Some(Ident(struct)), x);
    }
    assert methods[0].name in NamesIn(methods);
  }

  // They are lost: the first run takes the backend for implemented, writes no stub, and
  // overwrites them; the second run writes the stub.
  lemma RunAgainMayChange(methods: seq<Method>, name: string)
    requires ':' !in name && name != "" && name != "gen" && methods != []
    ensures var input, files := Example(methods, name, ""), Handwritten(methods, name);
      var first := RunOf(PLAIN, input, files);
      var second := RunOf(PLAIN, input, first.files);
      && first.problem.None? && first.files.Keys == files.Keys
      && second.problem.None? && second.files.Keys == files.Keys + {StubPath("user", name)}
      && StubPath("user", name) !in files
  {
    var input, files := Example(methods, name, ""), Handwritten(methods, name);
    ExampleViews(methods, name, "");
    ExampleStem();
    PlainFaithful();
    HandFirst(methods, name);
    RunAgain(PLAIN, input, files);
    var first := RunOf(PLAIN, input, files).files;
    HandAgain(ViewFor(PLAIN, input), methods, name, first, RunOf(PLAIN, input, first));
  }

  lemma HandFirst(methods: seq<Method>, name: string)
    requires ':' !in name && name != "" && methods != []
    ensures var first := RunOf(PLAIN, Example(methods, name, ""), Handwritten(methods, name));
      first.problem.None? && first.files.Keys == Handwritten(methods, name).Keys
  {
    var input, files := Example(methods, name, ""), Handwritten(methods, name);
    ExampleViews(methods, name, "");
    ExampleStem();
    HandRun(ViewFor(PLAIN, input), methods, name);
  }

  lemma HandPaths(methods: seq<Method>, name: string)
    requires name != "gen"
    ensures StubPath("user", name) !in Handwritten(methods, name) && StubPath("user", name) != GenPath("user")
  {
    Collisions("user", name, name);
    assert |StubPath("user", name)| > |"user.go"|;
  }

  lemma HandRun(view: View, methods: seq<Method>, name: string)
    requires methods != [] && view.methods == methods && view.base == BaseName("UserRepository")
    requires |view.backends| == 1 && view.backends[0].name == name
    ensures var files := Handwritten(methods, name);
      && Preflight(view, files, "user").None?
      && AllWritten(PLAIN, view, "user", GenPath("user"), false, Existing(view, files, 1), files) ==
         Outcome(files[GenPath("user") := PlainFile(view, GenFile)], None)
  {
    var files, b := Handwritten(methods, name), view.backends[0];
    ByHand(view, methods, name, b);
    PreflightPasses(view, files, "user");
    assert view.backends[..1] == view.backends;
    assert b.name in Existing(view, files, 1);
    var gen := Written(PLAIN, view, Outcome(files, None), GenPath("user"), GenFile);
    assert StubsWritten(PLAIN, view, "user", Existing(view, files, 1), gen, 0) == gen;
  }

  // The one backend is lost, and nothing is in its stub's place.
  lemma HandLost(view: View, methods: seq<Method>, name: string)
    requires methods != [] && view.methods == methods && view.base == BaseName("UserRepository")
    requires name != "gen" && |view.backends| == 1 && view.backends[0].name == name
    ensures var files, out := Handwritten(methods, name), GenPath("user");
      First(Verdicts(view, files, "user", out, false)).None? && Lost(view, files, out, 0)
  {
    var files, out, b := Handwritten(methods, name), GenPath("user"), view.backends[0];
    var found := Verdicts(view, files, "user", out, false);
    ByHand(view, methods, name, b);
    HandPaths(methods, name);
    assert Vacant(view, files, "user", out, false, b);
    FirstIsFound(found);
    assert found == [found[0]];
  }

  lemma OnePlace(view: View, stem: string, was: Files, out: string, p: string, f: File)
    requires |view.backends| == 1 && LostStub(PLAIN, view, stem, was, out, p, f)
    ensures p == StubPath(stem, view.backends[0].name)
  {
  }

  lemma OneSucceeds(view: View, stem: string, was: Files, out: string, now: Files, second: Outcome)
    requires |view.backends| == 1 && Lost(view, was, out, 0) && Restored(PLAIN, view, stem, was, out, now, second)
    ensures second.problem.None? && Keeps(now, second.files)
    ensures var p := StubPath(stem, view.backends[0].name); p in second.files && p !in now
  {
    assert forall i :: Lost(view, was, out, i) ==> Renders(PLAIN, view, i);
  }

  lemma OneRestored(view: View, stem: string, was: Files, out: string, now: Files, second: Outcome)
    requires |view.backends| == 1 && Lost(view, was, out, 0) && Restored(PLAIN, view, stem, was, out, now, second)
    ensures second.problem.None? && second.files.Keys == now.Keys + {StubPath(stem, view.backends[0].name)}
    ensures StubPath(stem, view.backends[0].name) !in now
  {
    OneSucceeds(view, stem, was, out, now, second);
    forall p | p in second.files && p !in now ensures p == StubPath(stem, view.backends[0].name) {
      OnePlace(view, stem, was, out, p, second.files[p]);
    }
  }

  lemma HandAgain(view: View, methods: seq<Method>, name: string, now: Files, second: Outcome)
    requires methods != [] && view.methods == methods && view.base == BaseName("UserRepository")
    requires name != "gen" && |view.backends| == 1 && view.backends[0].name == name
    requires Follows(PLAIN, view, "user", GenPath("user"), false, Handwritten(methods, name), now, second)
    ensures second.problem.None? && second.files.Keys == now.Keys + {StubPath("user", name)}
    ensures StubPath("user", name) !in now
  {
    HandLost(view, methods, name);
    OneRestored(view, "user", Handwritten(methods, name), GenPath("user"), now, second);
  }
}
