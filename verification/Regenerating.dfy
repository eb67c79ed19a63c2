// What running the generator leaves alone, and what running it again does.
module Regenerating {
  import opened Basics
  import opened Naming
  import opened Aliases
  import opened Importing
  import opened Generating

  // Every file of `was` is in `now` as it was.
  ghost predicate Keeps(was: Files, now: Files) {
    forall p :: p in was ==> p in now && now[p] == was[p]
  }

  ghost predicate KeepsBut(was: Files, now: Files, path: string) {
    forall p :: p in was && p != path ==> p in now && now[p] == was[p]
  }

  // Writing can only fail for want of a rendering.
  ghost predicate RenderOnly(r: Outcome) { r.problem.Some? ==> r.problem.value.RenderFailed? }

  lemma {:induction false} FixturesKeep(tools: Tools, view: View, stem: string, r: Outcome, n: nat)
    requires n <= |view.backends|
    ensures var now := FixturesWritten(tools, view, stem, r, n);
      Keeps(r.files, now.files) && (RenderOnly(r) ==> RenderOnly(now)) && (now.problem.None? ==> r.problem.None?)
  {
    if n > 0 {
      FixturesKeep(tools, view, stem, r, n - 1);
    }
  }

  lemma {:induction false} StubsKeep(tools: Tools, view: View, stem: string, existing: set<string>, r: Outcome, n: nat)
    requires n <= |view.backends|
    ensures var now := StubsWritten(tools, view, stem, existing, r, n);
      Keeps(r.files, now.files) && (RenderOnly(r) ==> RenderOnly(now)) && (now.problem.None? ==> r.problem.None?)
  {
    if n > 0 {
      StubsKeep(tools, view, stem, existing, r, n - 1);
    }
  }

  lemma TestsKeep(tools: Tools, view: View, stem: string, r: Outcome)
    ensures var now := TestsWritten(tools, view, stem, r);
      KeepsBut(r.files, now.files, RegistryPath(stem)) && (RenderOnly(r) ==> RenderOnly(now))
      && (now.problem.None? ==> r.problem.None?)
  {
    FixturesKeep(tools, view, stem, WrittenIfMissing(tools, view, r, SuitePath(stem), Suite), |view.backends|);
  }

  // The file at the output path and the fixture registry are the generator's own;
  // every other file that exists stays as it is, whether the run succeeds or not.
  lemma OthersUntouched(tools: Tools, input: Input, files: Files, p: string)
    requires p in files && p != OutPath(input) && !(input.test && p == RegistryPath(Stem(input.source)))
    ensures p in RunOf(tools, input, files).files && RunOf(tools, input, files).files[p] == files[p]
  {
    if Resolve(tools, input.specs).Resolved? {
      var view, stem := ViewOf(input.iface, Resolve(tools, input.specs).backends), Stem(input.source);
      var gen := Written(tools, view, Outcome(files, None), OutPath(input), GenFile);
      TestsKeep(tools, view, stem, gen);
      var tests := if input.test then TestsWritten(tools, view, stem, gen) else gen;
      StubsKeep(tools, view, stem, Existing(view, files, |view.backends|), tests, |view.backends|);
    }
  }

  // A run that fails before it starts to write leaves every file unchanged.
  lemma FailsBeforeWriting(tools: Tools, input: Input, files: Files)
    ensures var r := RunOf(tools, input, files);
      r.problem.Some? && !r.problem.value.RenderFailed? ==> r.files == files
  {
    if Resolve(tools, input.specs).Resolved? {
      var view, stem := ViewOf(input.iface, Resolve(tools, input.specs).backends), Stem(input.source);
      var gen := Written(tools, view, Outcome(files, None), OutPath(input), GenFile);
      TestsKeep(tools, view, stem, gen);
      var tests := if input.test then TestsWritten(tools, view, stem, gen) else gen;
      StubsKeep(tools, view, stem, Existing(view, files, |view.backends|), tests, |view.backends|);
    }
  }

  // When nothing stands in the way of the first n backends.
  ghost predicate Ready(view: View, files: Files, stem: string, b: BackendView) {
    && AllParse(files)
    && (if Implemented(view, files, b)
        then NamesIn(view.methods) <= MethodsOf(files, StructName(view.base, b.name))
        else StubPath(stem, b.name) !in files)
  }

  ghost predicate AllReady(view: View, files: Files, stem: string) {
    forall b :: b in view.backends ==> Ready(view, files, stem, b)
  }

  // When the check lets a run write.
  lemma PreflightPasses(view: View, files: Files, stem: string)
    ensures Preflight(view, files, stem).None? <==> AllReady(view, files, stem)
  {
    var found := Checks(view, files, stem);
    FirstIsFound(found);
    forall i | 0 <= i < |found| ensures found[i].None? <==> Ready(view, files, stem, view.backends[i]) {
      CheckPasses(view, files, stem, view.backends[i]);
    }
    if First(found).None? {
      forall b | b in view.backends ensures Ready(view, files, stem, b) {
        var i :| 0 <= i < |view.backends| && view.backends[i] == b;
        assert found[i] in found;
      }
    } else {
      var i :| 0 <= i < |found| && found[i].Some?;
      assert view.backends[i] in view.backends;
    }
  }

  lemma CheckPasses(view: View, files: Files, stem: string, b: BackendView)
    ensures Check(view, files, stem, b).None? <==> Ready(view, files, stem, b)
  {
    NoneMissing(view.methods, MethodsOf(files, StructName(view.base, b.name)));
  }

  // With the default output path, and whatever the run does: a suite, a backend's
  // fixture, its stub, and any production file but the one at the output path are never
  // changed, except where the backend's own name makes that file one of the generator's.
  // Whatever is at the output path is overwritten, hand-written methods included.
  lemma OwnedFilesKept(tools: Tools, input: Input, files: Files, name: string, p: string)
    requires input.out == "" && p in files
    requires
      var stem := Stem(input.source);
      || p == SuitePath(stem)
      || (p == FixturePath(stem, name) && name != "compliance_gen")
      || (p == StubPath(stem, name) && name != "gen" && name != "compliance_gen_test")
      || (Scanned(p) && p != GenPath(stem))
    ensures p in RunOf(tools, input, files).files && RunOf(tools, input, files).files[p] == files[p]
  {
    var stem := Stem(input.source);
    Collisions(stem, name, name);
    Collisions(stem, "gen", "compliance");
    Apart(stem, name);
    OthersUntouched(tools, input, files, p);
  }

  lemma Apart(stem: string, name: string)
    ensures SuitePath(stem) != GenPath(stem) && SuitePath(stem) != RegistryPath(stem)
    ensures FixturePath(stem, name) != GenPath(stem) && !Scanned(RegistryPath(stem))
  {
    Collisions(stem, "compliance_test", name);
    Collisions(stem, "compliance_gen_test", name);
    Collisions(stem, name + "_test", name);
    assert (name + "_test")[|name| + 3] == 's';
    assert name + "_test" != "gen";
    Suffixed(stem + "_compliance_gen", "_test.go");
    assert RegistryPath(stem) == stem + "_compliance_gen" + "_test.go";
  }

  // Rendered text parses; the generated file has methods of the wrapper only, and a
  // stub has every method of the interface, of its backend and of nothing else.
  ghost predicate Faithful(tools: Tools) {
    && (forall view :: tools.render(view, GenFile).Some? ==>
          OnlyFor(tools.render(view, GenFile).value, WrapperStruct(view.base)))
    && (forall view, b :: tools.render(view, Stub(b)).Some? ==>
          IsStub(tools.render(view, Stub(b)).value, view, b))
  }

  ghost predicate OnlyFor(f: File, struct: string) {
    f.parses && forall g :: g in f.funcs && g.receiver.Some? ==> ReceiverTypeName(g.receiver.value) == struct
  }

  ghost predicate IsStub(f: File, view: View, b: BackendView) {
    OnlyFor(f, StructName(view.base, b.name)) &&
    Workspace.DeclaredBy(f.funcs, StructName(view.base, b.name)) == NamesIn(view.methods)
  }

  ghost predicate DistinctNames(views: seq<BackendView>) {
    forall i, j :: 0 <= i < j < |views| ==> views[i].name != views[j].name
  }

  lemma {:induction false} ViewsDistinct(t: Table, backends: seq<Backend>)
    ensures |ViewsOf(t, backends)| == |FirstByName(backends)|
    ensures forall i :: 0 <= i < |FirstByName(backends)| ==>
      ViewsOf(t, backends)[i].name == FirstByName(backends)[i].name
    ensures DistinctNames(ViewsOf(t, backends))
  {
    if backends != [] {
      var init, last := backends[..|backends| - 1], backends[|backends| - 1];
      ViewsDistinct(t, init);
      forall i | 0 <= i < |FirstByName(init)| ensures FirstByName(init)[i].name in NamesOf(FirstByName(init)) {
        assert NamesOf(FirstByName(init))[i] == FirstByName(init)[i].name;
      }
    }
  }

  // What the stub loop leaves behind when it succeeds.
  ghost predicate StubsThere(tools: Tools, view: View, stem: string, existing: set<string>,
                             was: Files, now: Files, n: nat)
    requires n <= |view.backends|
  {
    && Keeps(was, now)
    && (forall i :: 0 <= i < n && view.backends[i].name !in existing ==> StubPath(stem, view.backends[i].name) in now)
    && (forall p :: p in now && p !in was ==> FromStub(tools, view, stem, existing, p, now[p], n))
  }

  // p holds the stub of the i-th backend, which was to be written.
  ghost predicate StubAt(tools: Tools, view: View, stem: string, existing: set<string>, i: int, p: string, f: File) {
    && 0 <= i < |view.backends| && view.backends[i].name !in existing
    && p == StubPath(stem, view.backends[i].name) && tools.render(view, Stub(view.backends[i])) == Some(f)
  }

  ghost predicate FromStub(tools: Tools, view: View, stem: string, existing: set<string>, p: string, f: File, n: nat)
    requires n <= |view.backends|
  {
    exists i :: i < n && StubAt(tools, view, stem, existing, i, p, f)
  }

  // Whatever the stub loop adds is a stub it was to add, whether it succeeds or not.
  lemma {:induction false} StubsAdd(tools: Tools, view: View, stem: string, existing: set<string>, r: Outcome, n: nat)
    requires n <= |view.backends|
    ensures var now := StubsWritten(tools, view, stem, existing, r, n).files;
      forall p :: p in now && p !in r.files ==> FromStub(tools, view, stem, existing, p, now[p], n)
  {
    if n > 0 {
      var before := StubsWritten(tools, view, stem, existing, r, n - 1).files;
      var now := StubsWritten(tools, view, stem, existing, r, n).files;
      StubsAdd(tools, view, stem, existing, r, n - 1);
      forall p | p in now && p !in r.files ensures FromStub(tools, view, stem, existing, p, now[p], n) {
        if p in before {
          assert FromStub(tools, view, stem, existing, p, before[p], n - 1);
        } else {
          assert StubAt(tools, view, stem, existing, n - 1, p, now[p]);
        }
      }
    }
  }

  lemma {:induction false} StubsEffect(tools: Tools, view: View, stem: string, existing: set<string>,
                                       r: Outcome, n: nat)
    requires n <= |view.backends| && StubsWritten(tools, view, stem, existing, r, n).problem.None?
    ensures StubsThere(tools, view, stem, existing, r.files, StubsWritten(tools, view, stem, existing, r, n).files, n)
  {
    if n > 0 {
      var b, before := view.backends[n - 1], StubsWritten(tools, view, stem, existing, r, n - 1);
      StubsKeep(tools, view, stem, existing, r, n);
      if b.name in existing || StubPath(stem, b.name) in before.files {
        assert before.problem.None?;
      }
      StubsEffect(tools, view, stem, existing, r, n - 1);
      StubsAdd(tools, view, stem, existing, r, n);
    }
  }

  lemma TestFile(stem: string, name: string)
    ensures !Scanned(SuitePath(stem)) && !Scanned(RegistryPath(stem)) && !Scanned(FixturePath(stem, name))
  {
    Suffixed(stem + "_compliance", "_test.go");
    Suffixed(stem + "_compliance_gen", "_test.go");
    Suffixed(stem + "_" + name, "_test.go");
    assert SuitePath(stem) == stem + "_compliance" + "_test.go";
    assert RegistryPath(stem) == stem + "_compliance_gen" + "_test.go";
  }

  // The suite and the fixtures are there, and nothing else is new.
  ghost predicate FixturesThere(view: View, stem: string, was: Files, now: Files, n: nat)
    requires n <= |view.backends|
  {
    && Keeps(was, now)
    && (forall i :: 0 <= i < n ==> FixturePath(stem, view.backends[i].name) in now)
    && (forall p :: p in now && p !in was ==> FixtureOf(view, stem, p, n))
  }

  ghost predicate FixtureOf(view: View, stem: string, p: string, n: nat)
    requires n <= |view.backends|
  {
    exists i :: 0 <= i < n && p == FixturePath(stem, view.backends[i].name)
  }

  // The files of the tests, none of which is a production file.
  ghost predicate TestPath(view: View, stem: string, p: string) {
    p == SuitePath(stem) || p == RegistryPath(stem) || FixtureOf(view, stem, p, |view.backends|)
  }

  lemma NoneScanned(view: View, stem: string, p: string)
    requires TestPath(view, stem, p)
    ensures !Scanned(p)
  {
    TestFile(stem, "");
    if i :| 0 <= i < |view.backends| && p == FixturePath(stem, view.backends[i].name) {
      TestFile(stem, view.backends[i].name);
    }
  }

  lemma {:induction false} FixturesEffect(tools: Tools, view: View, stem: string, r: Outcome, n: nat)
    requires n <= |view.backends| && FixturesWritten(tools, view, stem, r, n).problem.None?
    ensures FixturesThere(view, stem, r.files, FixturesWritten(tools, view, stem, r, n).files, n)
  {
    if n > 0 {
      var b, before := view.backends[n - 1], FixturesWritten(tools, view, stem, r, n - 1);
      if FixturePath(stem, b.name) in before.files {
        assert before.problem.None?;
      }
      FixturesEffect(tools, view, stem, r, n - 1);
      var now := FixturesWritten(tools, view, stem, r, n);
      forall p | p in now.files && p !in r.files ensures FixtureOf(view, stem, p, n) {
        if p in before.files {
          assert FixtureOf(view, stem, p, n - 1);
        } else {
          assert p == FixturePath(stem, view.backends[n - 1].name);
        }
      }
    }
  }

  ghost predicate TestsThere(tools: Tools, view: View, stem: string, was: Files, now: Files) {
    && KeepsBut(was, now, RegistryPath(stem))
    && SuitePath(stem) in now
    && (forall i :: 0 <= i < |view.backends| ==> FixturePath(stem, view.backends[i].name) in now)
    && RegistryPath(stem) in now && tools.render(view, Registry) == Some(now[RegistryPath(stem)])
    && (forall p :: p in now && p !in was ==> TestPath(view, stem, p))
  }

  lemma TestsEffect(tools: Tools, view: View, stem: string, r: Outcome)
    requires TestsWritten(tools, view, stem, r).problem.None?
    ensures TestsThere(tools, view, stem, r.files, TestsWritten(tools, view, stem, r).files)
  {
    var suite := WrittenIfMissing(tools, view, r, SuitePath(stem), Suite);
    FixturesEffect(tools, view, stem, suite, |view.backends|);
    FixturesKeep(tools, view, stem, suite, |view.backends|);
  }

  // What a successful run leaves behind.
  ghost predicate Complete(tools: Tools, view: View, stem: string, out: string, test: bool,
                           existing: set<string>, was: Files, now: Files) {
    && (forall p :: p in was && p != out && !(test && p == RegistryPath(stem)) ==> p in now && now[p] == was[p])
    && out in now && ((test && out == RegistryPath(stem)) || tools.render(view, GenFile) == Some(now[out]))
    && (test ==> TestsKept(tools, view, stem, now))
    && (forall i :: 0 <= i < |view.backends| && view.backends[i].name !in existing ==>
          StubPath(stem, view.backends[i].name) in now)
    && (forall p :: p in now && p !in was && p != out && !(test && TestPath(view, stem, p)) ==>
          FromStub(tools, view, stem, existing, p, now[p], |view.backends|))
  }

  ghost predicate TestsKept(tools: Tools, view: View, stem: string, now: Files) {
    && SuitePath(stem) in now
    && (forall i :: 0 <= i < |view.backends| ==> FixturePath(stem, view.backends[i].name) in now)
    && RegistryPath(stem) in now && tools.render(view, Registry) == Some(now[RegistryPath(stem)])
  }

  lemma Completes(tools: Tools, view: View, stem: string, out: string, test: bool, existing: set<string>, was: Files)
    requires AllWritten(tools, view, stem, out, test, existing, was).problem.None?
    ensures Complete(tools, view, stem, out, test, existing, was,
                     AllWritten(tools, view, stem, out, test, existing, was).files)
  {
    var gen := Written(tools, view, Outcome(was, None), out, GenFile);
    var tests := if test then TestsWritten(tools, view, stem, gen) else gen;
    StubsKeep(tools, view, stem, existing, tests, |view.backends|);
    StubsEffect(tools, view, stem, existing, tests, |view.backends|);
    if test {
      TestsKeep(tools, view, stem, gen);
      TestsEffect(tools, view, stem, gen);
    }
  }

  ghost function ViewFor(tools: Tools, input: Input): View
    requires Resolve(tools, input.specs).Resolved?
  {
    ViewOf(input.iface, Resolve(tools, input.specs).backends)
  }

  // After a successful run the output file and the registry are the generator's,
  // whatever was there before; where they are one file it is the registry.
  lemma GeneratorFilesWin(tools: Tools, input: Input, files: Files)
    requires RunOf(tools, input, files).problem.None?
    ensures var view, stem, now := ViewFor(tools, input), Stem(input.source), RunOf(tools, input, files).files;
      && OutPath(input) in now
      && (!(input.test && OutPath(input) == RegistryPath(stem)) ==>
            tools.render(view, GenFile) == Some(now[OutPath(input)]))
      && (input.test ==> RegistryPath(stem) in now && tools.render(view, Registry) == Some(now[RegistryPath(stem)]))
  {
    var view, stem := ViewFor(tools, input), Stem(input.source);
    Completes(tools, view, stem, OutPath(input), input.test, Existing(view, files, |view.backends|), files);
  }

  // The collision names: with the default output path a stub called gen, a fixture
  // called compliance_gen and a stub called compliance_gen_test do not survive.
  lemma CollisionsOverwritten(tools: Tools, input: Input, files: Files)
    requires RunOf(tools, input, files).problem.None? && input.out == ""
    ensures var view, stem, now := ViewFor(tools, input), Stem(input.source), RunOf(tools, input, files).files;
      && StubPath(stem, "gen") in now && tools.render(view, GenFile) == Some(now[StubPath(stem, "gen")])
      && (input.test ==>
            forall p :: p in [FixturePath(stem, "compliance_gen"), StubPath(stem, "compliance_gen_test")] ==>
              p in now && tools.render(view, Registry) == Some(now[p]))
  {
    var stem := Stem(input.source);
    Collisions(stem, "gen", "");
    Collisions(stem, "compliance_gen", "");
    Collisions(stem, "compliance_gen_test", "");
    Apart(stem, "");
    GeneratorFilesWin(tools, input, files);
  }
}
