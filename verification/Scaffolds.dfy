// Which files a run of the generator writes and what it puts into them, and what it says
// when it stops.
module Scaffolds {
  import opened Basics
  import opened Naming
  import opened Importing
  import opened Generating
  import opened Requests
  import opened Regenerating

  // What a run is about.
  datatype Job = Job(view: View, stem: string, out: string, test: bool)

  // The template that belongs at this path.
  ghost predicate Belongs(job: Job, p: string, t: Template) {
    match t
    case GenFile => p == job.out
    case Suite => job.test && p == SuitePath(job.stem)
    case Registry => job.test && p == RegistryPath(job.stem)
    case Fixture(b) => job.test && b in job.view.backends && p == FixturePath(job.stem, b.name)
    case Stub(b) => b in job.view.backends && p == StubPath(job.stem, b.name)
  }

  ghost predicate Made(tools: Tools, job: Job, p: string, f: File) {
    exists t :: Belongs(job, p, t) && tools.render(job.view, t) == Some(f)
  }

  // Every file is as it was, or holds what belongs at its path; and if something would not
  // render, it was something that belongs there.
  ghost predicate OnlyMade(tools: Tools, job: Job, was: Files, r: Outcome) {
    && (forall p :: p in r.files ==> (p in was && r.files[p] == was[p]) || Made(tools, job, p, r.files[p]))
    && (r.problem.Some? ==> r.problem.value.RenderFailed? && Fails(tools, job, r.problem.value.path))
  }

  ghost predicate Fails(tools: Tools, job: Job, p: string) {
    exists t :: Belongs(job, p, t) && tools.render(job.view, t) == None
  }

  lemma WrittenMade(tools: Tools, job: Job, was: Files, r: Outcome, p: string, t: Template)
    requires OnlyMade(tools, job, was, r) && Belongs(job, p, t)
    ensures OnlyMade(tools, job, was, Written(tools, job.view, r, p, t))
  {
  }

  lemma {:induction false} FixturesMade(tools: Tools, job: Job, was: Files, r: Outcome, n: nat)
    requires OnlyMade(tools, job, was, r) && job.test && n <= |job.view.backends|
    ensures OnlyMade(tools, job, was, FixturesWritten(tools, job.view, job.stem, r, n))
  {
    if n > 0 {
      var b, before := job.view.backends[n - 1], FixturesWritten(tools, job.view, job.stem, r, n - 1);
      FixturesMade(tools, job, was, r, n - 1);
      WrittenMade(tools, job, was, before, FixturePath(job.stem, b.name), Fixture(b));
    }
  }

  lemma {:induction false} StubsMade(tools: Tools, job: Job, was: Files, existing: set<string>, r: Outcome, n: nat)
    requires OnlyMade(tools, job, was, r) && n <= |job.view.backends|
    ensures OnlyMade(tools, job, was, StubsWritten(tools, job.view, job.stem, existing, r, n))
  {
    if n > 0 {
      var b, before := job.view.backends[n - 1], StubsWritten(tools, job.view, job.stem, existing, r, n - 1);
      StubsMade(tools, job, was, existing, r, n - 1);
      WrittenMade(tools, job, was, before, StubPath(job.stem, b.name), Stub(b));
    }
  }

  lemma TestsMade(tools: Tools, job: Job, was: Files, r: Outcome)
    requires OnlyMade(tools, job, was, r) && job.test
    ensures OnlyMade(tools, job, was, TestsWritten(tools, job.view, job.stem, r))
  {
    var suite := WrittenIfMissing(tools, job.view, r, SuitePath(job.stem), Suite);
    WrittenMade(tools, job, was, r, SuitePath(job.stem), Suite);
    FixturesMade(tools, job, was, suite, |job.view.backends|);
    WrittenMade(tools, job, was, FixturesWritten(tools, job.view, job.stem, suite, |job.view.backends|),
                RegistryPath(job.stem), Registry);
  }

  lemma AllMade(tools: Tools, job: Job, was: Files, existing: set<string>)
    ensures OnlyMade(tools, job, was, AllWritten(tools, job.view, job.stem, job.out, job.test, existing, was))
  {
    var gen := Written(tools, job.view, Outcome(was, None), job.out, GenFile);
    WrittenMade(tools, job, was, Outcome(was, None), job.out, GenFile);
    if job.test {
      TestsMade(tools, job, was, gen);
    }
    var tests := if job.test then TestsWritten(tools, job.view, job.stem, gen) else gen;
    StubsMade(tools, job, was, existing, tests, |job.view.backends|);
  }

  // With no output path given it is the source's own, ending in _gen.go.
  ghost function JobOf(tools: Tools, input: Input): Job
    requires Resolve(tools, input.specs).Resolved?
  {
    Job(ViewFor(tools, input), Stem(input.source),
        if input.out != "" then input.out else Stem(input.source) + "_gen.go", input.test)
  }

  // Whether it succeeds or not, a run changes or adds no file but with what belongs at its path.
  lemma RunMakes(tools: Tools, input: Input, files: Files, p: string)
    requires p in RunOf(tools, input, files).files
    requires p in files ==> RunOf(tools, input, files).files[p] != files[p]
    ensures Resolve(tools, input.specs).Resolved?
    ensures Made(tools, JobOf(tools, input), p, RunOf(tools, input, files).files[p])
  {
    if Resolve(tools, input.specs).Resolved? {
      var job := JobOf(tools, input);
      AllMade(tools, job, files, Existing(job.view, files, |job.view.backends|));
    }
  }

  // Everything is there that belongs there: the generated file, with tests the suite, the
  // fixtures and their registry, and a stub or methods for each backend.
  ghost predicate AllThere(job: Job, was: Files, now: Files) {
    && job.out in now
    && (job.test ==> SuitePath(job.stem) in now && RegistryPath(job.stem) in now)
    && (forall b :: b in job.view.backends && job.test ==> FixturePath(job.stem, b.name) in now)
    && (forall b :: b in job.view.backends && StubPath(job.stem, b.name) !in now ==> HasOne(job.view, was, b))
  }

  // Some production file declares a method of the backend's struct.
  ghost predicate HasOne(view: View, files: Files, b: BackendView) {
    exists x :: Declares(files, StructName(view.base, b.name), x)
  }

  lemma HasMethods(view: View, files: Files, b: BackendView)
    ensures Implemented(view, files, b) <==> HasOne(view, files, b)
  {
    MethodsAre(files, StructName(view.base, b.name));
    if Implemented(view, files, b) {
      var x :| x in MethodsOf(files, StructName(view.base, b.name));
    }
  }

  lemma CompleteLeaves(tools: Tools, job: Job, was: Files, now: Files)
    requires Complete(tools, job.view, job.stem, job.out, job.test,
                      Existing(job.view, was, |job.view.backends|), was, now)
    ensures AllThere(job, was, now)
  {
    forall b | b in job.view.backends && job.test ensures FixturePath(job.stem, b.name) in now {
      var i :| 0 <= i < |job.view.backends| && job.view.backends[i] == b;
    }
    forall b | b in job.view.backends && StubPath(job.stem, b.name) !in now ensures HasOne(job.view, was, b) {
      var i :| 0 <= i < |job.view.backends| && job.view.backends[i] == b;
      HasMethods(job.view, was, b);
    }
  }

  // A successful run leaves nothing out.
  lemma RunLeaves(tools: Tools, input: Input, files: Files)
    requires RunOf(tools, input, files).problem.None?
    ensures AllThere(JobOf(tools, input), files, RunOf(tools, input, files).files)
  {
    var job, now := JobOf(tools, input), RunOf(tools, input, files).files;
    Completes(tools, job.view, job.stem, job.out, job.test, Existing(job.view, files, |job.view.backends|), files);
    CompleteLeaves(tools, job, files, now);
  }

  // The missing methods are those that are wanted and not there, in the order they are wanted.
  lemma {:induction false} MissingIs(want: seq<Method>, have: set<string>)
    ensures forall m :: m in Missing(want, have) <==> m in want && m.name !in have
  {
    if want != [] {
      MissingIs(want[..|want| - 1], have);
      assert want == want[..|want| - 1] + [want[|want| - 1]];
    }
  }

  lemma {:induction false} MissingSplits(a: seq<Method>, b: seq<Method>, have: set<string>)
    ensures Missing(a + b, have) == Missing(a, have) + Missing(b, have)
  {
    if b == [] {
      assert a + b == a;
    } else {
      MissingSplits(a, b[..|b| - 1], have);
      assert (a + b)[..|a + b| - 1] == a + b[..|b| - 1];
    }
  }

  // The backend has all the methods of the interface, or none and no file in its stub's place.
  ghost predicate Fine(job: Job, files: Files, b: BackendView) {
    && AllParse(files)
    && if HasOne(job.view, files, b)
       then forall m :: m in job.view.methods ==> Declares(files, StructName(job.view.base, b.name), m.name)
       else StubPath(job.stem, b.name) !in files
  }

  // What the check says of a backend that is not fine.
  ghost predicate Complains(job: Job, files: Files, b: BackendView, p: Problem) {
    var struct := StructName(job.view.base, b.name);
    match p
    case Unparsable => !AllParse(files)
    case MissingMethods(name, ms) =>
      && AllParse(files) && HasOne(job.view, files, b) && name == b.name && ms != []
      && forall m :: m in ms <==> m in job.view.methods && !Declares(files, struct, m.name)
    case StubTaken(path) =>
      AllParse(files) && !HasOne(job.view, files, b) && path == StubPath(job.stem, b.name) && path in files
    case _ => false
  }

  lemma CheckSays(job: Job, files: Files, b: BackendView)
    ensures match Check(job.view, files, job.stem, b)
      case None => Fine(job, files, b)
      case Some(p) => !Fine(job, files, b) && Complains(job, files, b, p)
  {
    var have := MethodsOf(files, StructName(job.view.base, b.name));
    HasMethods(job.view, files, b);
    MethodsAre(files, StructName(job.view.base, b.name));
    MissingIs(job.view.methods, have);
    if Missing(job.view.methods, have) != [] {
      assert Missing(job.view.methods, have)[0] in Missing(job.view.methods, have);
    }
  }

  // The first backend that is not fine.
  ghost predicate Stops(job: Job, files: Files, k: int, p: Problem) {
    && 0 <= k < |job.view.backends| && (forall j :: 0 <= j < k ==> Fine(job, files, job.view.backends[j]))
    && !Fine(job, files, job.view.backends[k]) && Complains(job, files, job.view.backends[k], p)
  }

  lemma {:induction false} FirstAt(found: seq<Option<Problem>>) returns (k: nat)
    requires First(found).Some?
    ensures k < |found| && found[k] == First(found) && forall j :: 0 <= j < k ==> found[j].None?
  {
    var init := found[..|found| - 1];
    if First(init).Some? {
      k := FirstAt(init);
    } else {
      k := |found| - 1;
      FirstIsFound(init);
      forall j | 0 <= j < k ensures found[j].None? {
        assert init[j] in init;
      }
    }
  }

  lemma PreflightSays(job: Job, files: Files)
    ensures match Preflight(job.view, files, job.stem)
      case None => forall b :: b in job.view.backends ==> Fine(job, files, b)
      case Some(p) => exists k :: Stops(job, files, k, p)
  {
    var found := Checks(job.view, files, job.stem);
    forall b ensures match Check(job.view, files, job.stem, b)
      case None => Fine(job, files, b)
      case Some(p) => !Fine(job, files, b) && Complains(job, files, b, p)
    {
      CheckSays(job, files, b);
    }
    if First(found).Some? {
      var k := FirstAt(found);
      assert Stops(job, files, k, found[k].value);
    } else {
      FirstIsFound(found);
      forall b | b in job.view.backends ensures Fine(job, files, b) {
        var i :| 0 <= i < |job.view.backends| && job.view.backends[i] == b;
        assert found[i] in found;
      }
    }
  }

  // How a run ends: it succeeds with every spec accepted and every backend fine, or says
  // what is wrong first, with the specs, with the backends, with a template.
  ghost predicate Ends(tools: Tools, input: Input, files: Files, problem: Option<Problem>) {
    match Resolve(tools, input.specs)
    case Refused(why) => problem == Some(why)
    case Resolved(_) =>
      var job := JobOf(tools, input);
      || (problem.Some? && exists k :: Stops(job, files, k, problem.value))
      || ((forall b :: b in job.view.backends ==> Fine(job, files, b))
          && (problem.Some? ==> problem.value.RenderFailed? && Fails(tools, job, problem.value.path)))
  }

  lemma RunEnds(tools: Tools, input: Input, files: Files)
    ensures Requested(tools, input.specs, Resolve(tools, input.specs))
    ensures Ends(tools, input, files, RunOf(tools, input, files).problem)
  {
    ResolveIs(tools, input.specs);
    if Resolve(tools, input.specs).Resolved? {
      var job := JobOf(tools, input);
      PreflightSays(job, files);
      AllMade(tools, job, files, Existing(job.view, files, |job.view.backends|));
    }
  }
}
