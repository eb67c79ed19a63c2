// What running the generator a second time with the same input does, to the files and
// to the backends it found the first time.
module Rerunning {
  import opened Basics
  import opened Naming
  import opened Importing
  import opened Generating
  import opened Regenerating

  // A successful run, and what was the case before it.
  ghost predicate Ran(tools: Tools, view: View, stem: string, out: string, test: bool, was: Files, now: Files) {
    && Faithful(tools) && DistinctNames(view.backends)
    && (forall i :: 0 <= i < |view.backends| ==> Ready(view, was, stem, view.backends[i]))
    && Complete(tools, view, stem, out, test, Existing(view, was, |view.backends|), was, now)
  }

  lemma FirstRan(tools: Tools, input: Input, files: Files)
    requires Faithful(tools) && RunOf(tools, input, files).problem.None?
    ensures Ran(tools, ViewFor(tools, input), Stem(input.source), OutPath(input), input.test, files,
                RunOf(tools, input, files).files)
  {
    var view, stem := ViewFor(tools, input), Stem(input.source);
    ViewsDistinct(SeedOf(input.iface.imports), Resolve(tools, input.specs).backends);
    PreflightPasses(view, files, stem);
    Completes(tools, view, stem, OutPath(input), input.test, Existing(view, files, |view.backends|), files);
  }

  lemma ExistingAt(view: View, files: Files, k: nat)
    requires k < |view.backends| && DistinctNames(view.backends)
    ensures view.backends[k].name in Existing(view, files, |view.backends|) <==>
      Implemented(view, files, view.backends[k])
  {
    assert view.backends[..|view.backends|] == view.backends;
    if view.backends[k].name in Existing(view, files, |view.backends|) {
      var b :| b in view.backends && Implemented(view, files, b) && b.name == view.backends[k].name;
      var i :| 0 <= i < |view.backends| && view.backends[i] == b;
      assert i == k;
    }
  }

  // The methods declared for a backend outside the file at the output path.
  ghost function KeptMethods(view: View, was: Files, out: string, b: BackendView): set<string> {
    MethodsOf(was - {out}, StructName(view.base, b.name))
  }

  lemma KeptWere(view: View, was: Files, out: string, b: BackendView)
    ensures KeptMethods(view, was, out, b) <= MethodsOf(was, StructName(view.base, b.name))
  {
  }

  // Whose stub it is.
  lemma StubOf(tools: Tools, view: View, stem: string, existing: set<string>, p: string, f: File) returns (j: nat)
    requires FromStub(tools, view, stem, existing, p, f, |view.backends|)
    ensures j < |view.backends| && view.backends[j].name !in existing
    ensures p == StubPath(stem, view.backends[j].name)
    ensures Faithful(tools) ==> IsStub(f, view, view.backends[j])
  {
    var i :| i < |view.backends| && StubAt(tools, view, stem, existing, i, p, f);
    j := i;
  }

  // A file read by the check is a test file for nobody.
  lemma ScannedKept(tools: Tools, view: View, stem: string, out: string, test: bool, was: Files, now: Files, p: string)
    requires Ran(tools, view, stem, out, test, was, now) && Scanned(p) && p != out
    ensures p in was ==> p in now && now[p] == was[p]
    ensures p in now && p !in was ==>
      FromStub(tools, view, stem, Existing(view, was, |view.backends|), p, now[p], |view.backends|)
  {
    TestFile(stem, "");
    if TestPath(view, stem, p) {
      NoneScanned(view, stem, p);
    }
  }

  lemma OutIsGenerated(tools: Tools, view: View, stem: string, out: string, test: bool, was: Files, now: Files)
    requires Ran(tools, view, stem, out, test, was, now) && Scanned(out)
    ensures out in now && OnlyFor(now[out], WrapperStruct(view.base))
  {
    TestFile(stem, "");
  }

  lemma ParsesAgain(tools: Tools, view: View, stem: string, out: string, test: bool, was: Files, now: Files)
    requires Ran(tools, view, stem, out, test, was, now) && AllParse(was)
    ensures AllParse(now)
  {
    var existing := Existing(view, was, |view.backends|);
    forall p | p in now && Scanned(p) ensures now[p].parses {
      if p == out {
        OutIsGenerated(tools, view, stem, out, test, was, now);
      } else {
        ScannedKept(tools, view, stem, out, test, was, now, p);
        if p !in was {
          var j := StubOf(tools, view, stem, existing, p, now[p]);
        }
      }
    }
  }

  // A stub that the next run will read: its own path, among production files.
  ghost predicate Readable(stem: string, out: string, b: BackendView) {
    Scanned(StubPath(stem, b.name)) && StubPath(stem, b.name) != out
  }

  // The stub of the i-th backend declares the methods of this type.
  ghost predicate Serves(view: View, stem: string, out: string, struct: string, i: int) {
    && 0 <= i < |view.backends|
    && StructName(view.base, view.backends[i].name) == struct
    && Readable(stem, out, view.backends[i])
  }

  ghost predicate Served(view: View, stem: string, out: string, b: BackendView) {
    exists i :: Serves(view, stem, out, StructName(view.base, b.name), i)
  }

  lemma Declared(files: Files, p: string, struct: string)
    requires p in files && Scanned(p)
    ensures Workspace.DeclaredBy(files[p].funcs, struct) <= MethodsOf(files, struct)
  {
  }

  lemma StubDeclares(tools: Tools, view: View, stem: string, out: string, test: bool, was: Files, now: Files, i: nat)
    requires Ran(tools, view, stem, out, test, was, now) && i < |view.backends|
    requires !Implemented(view, was, view.backends[i]) && Readable(stem, out, view.backends[i])
    ensures NamesIn(view.methods) <= MethodsOf(now, StructName(view.base, view.backends[i].name))
  {
    var b, existing := view.backends[i], Existing(view, was, |view.backends|);
    var p := StubPath(stem, b.name);
    ExistingAt(view, was, i);
    assert Ready(view, was, stem, b);
    ScannedKept(tools, view, stem, out, test, was, now, p);
    assert p in now && p !in was;
    var j := StubOf(tools, view, stem, existing, p, now[p]);
    Collisions(stem, b.name, view.backends[j].name);
    Declared(now, p, StructName(view.base, b.name));
  }

  // Where a method found after the run comes from.
  lemma Origin(tools: Tools, view: View, stem: string, out: string, test: bool, was: Files, now: Files,
               b: BackendView, p: string, f: Func)
    requires Ran(tools, view, stem, out, test, was, now)
    requires p in now && Scanned(p) && f in now[p].funcs && Receives(f, StructName(view.base, b.name))
    ensures
      || f.name in KeptMethods(view, was, out, b)
      || (!Implemented(view, was, b) && f.name in NamesIn(view.methods) && Served(view, stem, out, b))
  {
    var struct := StructName(view.base, b.name);
    WrapperApart(view.base, b.name);
    if p == out {
      OutIsGenerated(tools, view, stem, out, test, was, now);
    }
    assert p != out;
    ScannedKept(tools, view, stem, out, test, was, now, p);
    if p in was {
      assert p in was - {out} && (was - {out})[p] == now[p];
    } else {
      StubOrigin(tools, view, stem, out, test, was, now, b, p, f);
    }
  }

  lemma StubOrigin(tools: Tools, view: View, stem: string, out: string, test: bool, was: Files, now: Files,
                   b: BackendView, p: string, f: Func)
    requires Ran(tools, view, stem, out, test, was, now)
    requires p in now && Scanned(p) && p != out && f in now[p].funcs && Receives(f, StructName(view.base, b.name))
    requires FromStub(tools, view, stem, Existing(view, was, |view.backends|), p, now[p], |view.backends|)
    ensures !Implemented(view, was, b) && f.name in NamesIn(view.methods) && Served(view, stem, out, b)
  {
    var struct, existing := StructName(view.base, b.name), Existing(view, was, |view.backends|);
    var j := StubOf(tools, view, stem, existing, p, now[p]);
    assert StructName(view.base, view.backends[j].name) == struct;
    ExistingAt(view, was, j);
    assert f.name in Workspace.DeclaredBy(now[p].funcs, struct);
    assert Serves(view, stem, out, struct, j);
  }

  lemma KeptStay(tools: Tools, view: View, stem: string, out: string, test: bool, was: Files, now: Files,
                 b: BackendView)
    requires Ran(tools, view, stem, out, test, was, now)
    ensures KeptMethods(view, was, out, b) <= MethodsOf(now, StructName(view.base, b.name))
  {
    var struct := StructName(view.base, b.name);
    forall x | x in KeptMethods(view, was, out, b) ensures x in MethodsOf(now, struct) {
      var p, f :| p in was - {out} && Scanned(p) && f in (was - {out})[p].funcs && Receives(f, struct) && f.name == x;
      ScannedKept(tools, view, stem, out, test, was, now, p);
    }
  }

  // The methods the second run finds: those outside the output file, and those of a new
  // stub. What the output file declared is gone.
  lemma MethodsAgain(tools: Tools, view: View, stem: string, out: string, test: bool, was: Files, now: Files, k: nat)
    requires Ran(tools, view, stem, out, test, was, now) && k < |view.backends|
    ensures MethodsOf(now, StructName(view.base, view.backends[k].name)) ==
      if Implemented(view, was, view.backends[k]) then KeptMethods(view, was, out, view.backends[k])
      else if Served(view, stem, out, view.backends[k]) then NamesIn(view.methods)
      else {}
  {
    var b := view.backends[k];
    var struct := StructName(view.base, b.name);
    KeptStay(tools, view, stem, out, test, was, now, b);
    KeptWere(view, was, out, b);
    forall x | x in MethodsOf(now, struct)
      ensures
        || x in KeptMethods(view, was, out, b)
        || (!Implemented(view, was, b) && x in NamesIn(view.methods) && Served(view, stem, out, b))
    {
      var p, f :| p in now && Scanned(p) && f in now[p].funcs && Receives(f, struct) && f.name == x;
      Origin(tools, view, stem, out, test, was, now, b, p, f);
    }
    if !Implemented(view, was, b) && Served(view, stem, out, b) {
      var i :| Serves(view, stem, out, struct, i);
      StubDeclares(tools, view, stem, out, test, was, now, i);
    }
  }

  // No file of this name, and none that the run writes.
  ghost predicate Vacant(view: View, was: Files, stem: string, out: string, test: bool, b: BackendView) {
    var p := StubPath(stem, b.name);
    p !in was && p != out && !(test && TestPath(view, stem, p))
  }

  lemma TakenAgain(tools: Tools, view: View, stem: string, out: string, test: bool, was: Files, now: Files, k: nat)
    requires Ran(tools, view, stem, out, test, was, now) && k < |view.backends|
    ensures StubPath(stem, view.backends[k].name) in now <==>
      !(Implemented(view, was, view.backends[k]) && Vacant(view, was, stem, out, test, view.backends[k]))
  {
    var b, existing := view.backends[k], Existing(view, was, |view.backends|);
    var p := StubPath(stem, b.name);
    ExistingAt(view, was, k);
    if p in now && Vacant(view, was, stem, out, test, b) {
      var j := StubOf(tools, view, stem, existing, p, now[p]);
      Collisions(stem, b.name, view.backends[j].name);
      assert j == k;
    }
  }

  // What the second run has to say to one backend, in terms of the files before the first.
  ghost function Verdict(view: View, was: Files, stem: string, out: string, test: bool, b: BackendView)
      : Option<Problem> {
    var kept := KeptMethods(view, was, out, b);
    if kept != {} then
      (if NamesIn(view.methods) <= kept then None else Some(MissingMethods(b.name, Missing(view.methods, kept))))
    else if if Implemented(view, was, b) then Vacant(view, was, stem, out, test, b)
            else view.methods != [] && Served(view, stem, out, b)
    then None
    else Some(StubTaken(StubPath(stem, b.name)))
  }

  lemma CheckAgain(tools: Tools, view: View, stem: string, out: string, test: bool, was: Files, now: Files, k: nat)
    requires Ran(tools, view, stem, out, test, was, now) && k < |view.backends|
    ensures Check(view, now, stem, view.backends[k]) == Verdict(view, was, stem, out, test, view.backends[k])
  {
    var b := view.backends[k];
    assert Ready(view, was, stem, b);
    ParsesAgain(tools, view, stem, out, test, was, now);
    MethodsAgain(tools, view, stem, out, test, was, now, k);
    TakenAgain(tools, view, stem, out, test, was, now, k);
    KeptWere(view, was, out, b);
    NoneMissing(view.methods, MethodsOf(now, StructName(view.base, b.name)));
    if view.methods != [] {
      assert view.methods[0].name in NamesIn(view.methods);
    }
  }

  // Backend by backend.
  ghost function Verdicts(view: View, was: Files, stem: string, out: string, test: bool): (r: seq<Option<Problem>>)
    ensures |r| == |view.backends|
    ensures forall i :: 0 <= i < |r| ==> r[i] == Verdict(view, was, stem, out, test, view.backends[i])
  {
    seq(|view.backends|, i requires 0 <= i < |view.backends| => Verdict(view, was, stem, out, test, view.backends[i]))
  }

  lemma ChecksAgain(tools: Tools, view: View, stem: string, out: string, test: bool, was: Files, now: Files)
    requires Ran(tools, view, stem, out, test, was, now)
    ensures Preflight(view, now, stem) == First(Verdicts(view, was, stem, out, test))
  {
    forall k | 0 <= k < |view.backends|
      ensures Checks(view, now, stem)[k] == Verdicts(view, was, stem, out, test)[k]
    {
      CheckAgain(tools, view, stem, out, test, was, now, k);
    }
    assert Checks(view, now, stem) == Verdicts(view, was, stem, out, test);
  }

  // The backend's methods were all in the output file, which the first run has overwritten.
  ghost predicate Lost(view: View, was: Files, out: string, i: int) {
    && 0 <= i < |view.backends|
    && Implemented(view, was, view.backends[i]) && KeptMethods(view, was, out, view.backends[i]) == {}
  }

  // A stub the stub loop has to write.
  ghost predicate Needs(view: View, stem: string, existing: set<string>, files: Files, i: int) {
    && 0 <= i < |view.backends|
    && view.backends[i].name !in existing && StubPath(stem, view.backends[i].name) !in files
  }

  lemma NeedsLost(tools: Tools, view: View, stem: string, out: string, test: bool, was: Files, now: Files, i: nat)
    requires Ran(tools, view, stem, out, test, was, now) && First(Verdicts(view, was, stem, out, test)).None?
    requires i < |view.backends|
    ensures Needs(view, stem, Existing(view, now, |view.backends|), now, i) <==> Lost(view, was, out, i)
    ensures view.backends[i].name in Existing(view, now, |view.backends|) <==> !Lost(view, was, out, i)
  {
    var b := view.backends[i];
    FirstIsFound(Verdicts(view, was, stem, out, test));
    assert Verdicts(view, was, stem, out, test)[i] in Verdicts(view, was, stem, out, test);
    ExistingAt(view, now, i);
    MethodsAgain(tools, view, stem, out, test, was, now, i);
    TakenAgain(tools, view, stem, out, test, was, now, i);
    KeptWere(view, was, out, b);
    if view.methods != [] {
      assert view.methods[0].name in NamesIn(view.methods);
    }
  }

  lemma {:induction false} FixturesIdle(tools: Tools, view: View, stem: string, r: Outcome, n: nat)
    requires n <= |view.backends|
    requires forall i :: 0 <= i < n ==> FixturePath(stem, view.backends[i].name) in r.files
    ensures FixturesWritten(tools, view, stem, r, n) == r
  {
    if n > 0 {
      FixturesIdle(tools, view, stem, r, n - 1);
    }
  }

  // Up to the stubs, writing it all again changes nothing.
  lemma WritesAgain(tools: Tools, view: View, stem: string, out: string, test: bool, existing: set<string>,
                    was: Files, now: Files, found: set<string>)
    requires Complete(tools, view, stem, out, test, existing, was, now)
    requires tools.render(view, GenFile).Some?
    ensures AllWritten(tools, view, stem, out, test, found, now) ==
      StubsWritten(tools, view, stem, found, Outcome(now, None), |view.backends|)
  {
    var gen := Written(tools, view, Outcome(now, None), out, GenFile);
    assert now[out := now[out]] == now;
    if test {
      FixturesIdle(tools, view, stem, gen, |view.backends|);
      var registry := RegistryPath(stem);
      assert gen.files[registry := now[registry]] == now;
    }
  }

  // The first n stubs: what decides whether all are written, and whether any is.
  ghost predicate Renders(tools: Tools, view: View, i: int) {
    0 <= i < |view.backends| && tools.render(view, Stub(view.backends[i])).Some?
  }

  ghost predicate FirstNeed(tools: Tools, view: View, stem: string, existing: set<string>, files: Files, i: int) {
    && Needs(view, stem, existing, files, i) && Renders(tools, view, i)
    && forall j :: j < i ==> !Needs(view, stem, existing, files, j)
  }

  lemma StubFree(tools: Tools, view: View, stem: string, existing: set<string>, r: Outcome, n: nat)
    requires n < |view.backends| && DistinctNames(view.backends)
    ensures StubPath(stem, view.backends[n].name) in StubsWritten(tools, view, stem, existing, r, n).files <==>
      StubPath(stem, view.backends[n].name) in r.files
  {
    var p, now := StubPath(stem, view.backends[n].name), StubsWritten(tools, view, stem, existing, r, n).files;
    StubsKeep(tools, view, stem, existing, r, n);
    StubsAdd(tools, view, stem, existing, r, n);
    if p in now && p !in r.files {
      var j :| j < n && StubAt(tools, view, stem, existing, j, p, now[p]);
      Collisions(stem, view.backends[n].name, view.backends[j].name);
    }
  }

  // One turn of the stub loop.
  lemma OneStub(tools: Tools, view: View, stem: string, existing: set<string>, r: Outcome, n: nat)
    requires n < |view.backends| && DistinctNames(view.backends)
    ensures var before := StubsWritten(tools, view, stem, existing, r, n);
      var now := StubsWritten(tools, view, stem, existing, r, n + 1);
      if Needs(view, stem, existing, r.files, n) && before.problem.None? then
        if Renders(tools, view, n) then
          now == Outcome(before.files[StubPath(stem, view.backends[n].name) :=
                   tools.render(view, Stub(view.backends[n])).value], None)
          && StubPath(stem, view.backends[n].name) !in before.files
        else now.files == before.files && now.problem.Some?
      else now == before
  {
    StubFree(tools, view, stem, existing, r, n);
  }

  lemma {:induction false} StubsSettle(tools: Tools, view: View, stem: string, existing: set<string>, r: Outcome,
                                       n: nat)
    requires n <= |view.backends| && DistinctNames(view.backends) && r.problem.None?
    ensures var now := StubsWritten(tools, view, stem, existing, r, n);
      && (now.problem.None? <==>
            forall i :: i < n && Needs(view, stem, existing, r.files, i) ==> Renders(tools, view, i))
      && (now.files == r.files <==> forall i :: i < n ==> !FirstNeed(tools, view, stem, existing, r.files, i))
      && (now == r ==> forall i :: i < n ==> !Needs(view, stem, existing, r.files, i))
  {
    if n > 0 {
      var before := StubsWritten(tools, view, stem, existing, r, n - 1);
      StubsSettle(tools, view, stem, existing, r, n - 1);
      OneStub(tools, view, stem, existing, r, n - 1);
      StubsKeep(tools, view, stem, existing, r, n - 1);
      if before.files == r.files {
        assert before.problem.None? ==> before == r;
        assert before.problem.None? <==> forall i :: i < n - 1 ==> !Needs(view, stem, existing, r.files, i);
        assert FirstNeed(tools, view, stem, existing, r.files, n - 1) <==>
          Needs(view, stem, existing, r.files, n - 1) && Renders(tools, view, n - 1) && before.problem.None?;
      } else {
        var i :| i < n - 1 && FirstNeed(tools, view, stem, existing, r.files, i);
      }
    }
  }

  // What the second run makes of the files when the check lets it write: it puts the
  // stubs of the lost backends in their places and touches nothing else.
  ghost predicate Restored(tools: Tools, view: View, stem: string, was: Files, out: string, now: Files,
                           second: Outcome) {
    && Keeps(now, second.files) && RenderOnly(second)
    && (forall p :: p in second.files && p !in now ==> LostStub(tools, view, stem, was, out, p, second.files[p]))
    && (second.problem.None? <==> forall i :: Lost(view, was, out, i) ==> Renders(tools, view, i))
    && (second.problem.None? ==> forall i :: Lost(view, was, out, i) ==>
          StubPath(stem, view.backends[i].name) in second.files && StubPath(stem, view.backends[i].name) !in now)
    && (second.files != now <==> exists i :: FirstLost(tools, view, was, out, i))
  }

  ghost predicate LostStub(tools: Tools, view: View, stem: string, was: Files, out: string, p: string, f: File) {
    exists i :: Lost(view, was, out, i) && p == StubPath(stem, view.backends[i].name)
      && tools.render(view, Stub(view.backends[i])) == Some(f)
  }

  // The first of the lost backends, if its stub renders.
  ghost predicate FirstLost(tools: Tools, view: View, was: Files, out: string, i: int) {
    && Lost(view, was, out, i) && Renders(tools, view, i)
    && forall j :: j < i ==> !Lost(view, was, out, j)
  }

  lemma NeedsAreLost(tools: Tools, view: View, stem: string, out: string, test: bool, was: Files, now: Files)
    requires Ran(tools, view, stem, out, test, was, now) && First(Verdicts(view, was, stem, out, test)).None?
    ensures var found := Existing(view, now, |view.backends|);
      && (forall i :: Needs(view, stem, found, now, i) <==> Lost(view, was, out, i))
      && (forall i :: FirstNeed(tools, view, stem, found, now, i) <==> FirstLost(tools, view, was, out, i))
      && (forall i :: 0 <= i < |view.backends| && view.backends[i].name !in found ==> Lost(view, was, out, i))
  {
    var found := Existing(view, now, |view.backends|);
    forall i
      ensures Needs(view, stem, found, now, i) <==> Lost(view, was, out, i)
      ensures 0 <= i < |view.backends| && view.backends[i].name !in found ==> Lost(view, was, out, i)
    {
      if 0 <= i < |view.backends| {
        NeedsLost(tools, view, stem, out, test, was, now, i);
      }
    }
  }

  lemma WritesLost(tools: Tools, view: View, stem: string, was: Files, out: string, now: Files, found: set<string>)
    requires DistinctNames(view.backends)
    requires forall i :: Needs(view, stem, found, now, i) <==> Lost(view, was, out, i)
    requires forall i :: FirstNeed(tools, view, stem, found, now, i) <==> FirstLost(tools, view, was, out, i)
    requires forall i :: 0 <= i < |view.backends| && view.backends[i].name !in found ==> Lost(view, was, out, i)
    ensures Restored(tools, view, stem, was, out, now,
                     StubsWritten(tools, view, stem, found, Outcome(now, None), |view.backends|))
  {
    var n, r := |view.backends|, Outcome(now, None);
    var second := StubsWritten(tools, view, stem, found, r, n);
    StubsKeep(tools, view, stem, found, r, n);
    StubsAdd(tools, view, stem, found, r, n);
    StubsSettle(tools, view, stem, found, r, n);
    forall p | p in second.files && p !in now ensures LostStub(tools, view, stem, was, out, p, second.files[p]) {
      var i :| i < n && StubAt(tools, view, stem, found, i, p, second.files[p]);
      assert Lost(view, was, out, i);
    }
    if second.problem.None? {
      StubsEffect(tools, view, stem, found, r, n);
      forall i | Lost(view, was, out, i)
        ensures StubPath(stem, view.backends[i].name) in second.files && StubPath(stem, view.backends[i].name) !in now
      {
        assert Needs(view, stem, found, now, i);
      }
    }
    Changed(tools, view, stem, was, out, now, found, second);
  }

  lemma Changed(tools: Tools, view: View, stem: string, was: Files, out: string, now: Files, found: set<string>,
                second: Outcome)
    requires forall i :: FirstNeed(tools, view, stem, found, now, i) <==> FirstLost(tools, view, was, out, i)
    requires second.files == now <==> forall i :: i < |view.backends| ==> !FirstNeed(tools, view, stem, found, now, i)
    ensures second.files != now <==> exists i :: FirstLost(tools, view, was, out, i)
  {
    if i :| FirstLost(tools, view, was, out, i) {
      assert FirstNeed(tools, view, stem, found, now, i);
    }
    if i :| i < |view.backends| && FirstNeed(tools, view, stem, found, now, i) {
      assert FirstLost(tools, view, was, out, i);
    }
  }

  // Either the check ends the second run, at the first verdict that is not good, or the
  // run restores the lost backends' stubs.
  ghost predicate Follows(tools: Tools, view: View, stem: string, out: string, test: bool, was: Files, now: Files,
                          second: Outcome) {
    var problem := First(Verdicts(view, was, stem, out, test));
    && (problem.Some? ==> second == Outcome(now, problem))
    && (problem.None? ==> Restored(tools, view, stem, was, out, now, second))
  }

  // The second run, for whatever files the first one found.
  lemma RunAgain(tools: Tools, input: Input, files: Files)
    requires Faithful(tools) && RunOf(tools, input, files).problem.None?
    ensures var first := RunOf(tools, input, files).files;
      Follows(tools, ViewFor(tools, input), Stem(input.source), OutPath(input), input.test, files, first,
              RunOf(tools, input, first))
  {
    var view, stem, out := ViewFor(tools, input), Stem(input.source), OutPath(input);
    var first := RunOf(tools, input, files).files;
    FirstRan(tools, input, files);
    ChecksAgain(tools, view, stem, out, input.test, files, first);
    if First(Verdicts(view, files, stem, out, input.test)).None? {
      var found := Existing(view, first, |view.backends|);
      FirstRenders(tools, input, files);
      WritesAgain(tools, view, stem, out, input.test, Existing(view, files, |view.backends|), files, first, found);
      NeedsAreLost(tools, view, stem, out, input.test, files, first);
      WritesLost(tools, view, stem, files, out, first, found);
    }
  }

  lemma FirstRenders(tools: Tools, input: Input, files: Files)
    requires RunOf(tools, input, files).problem.None?
    ensures tools.render(ViewFor(tools, input), GenFile).Some?
  {
    var view, stem := ViewFor(tools, input), Stem(input.source);
    var gen := Written(tools, view, Outcome(files, None), OutPath(input), GenFile);
    var tests := if input.test then TestsWritten(tools, view, stem, gen) else gen;
    TestsKeep(tools, view, stem, gen);
    StubsKeep(tools, view, stem, Existing(view, files, |view.backends|), tests, |view.backends|);
  }

  lemma {:induction false} Least(view: View, was: Files, out: string, i: nat) returns (k: nat)
    requires Lost(view, was, out, i)
    ensures Lost(view, was, out, k) && forall j :: j < k ==> !Lost(view, was, out, j)
  {
    if j :| 0 <= j < i && Lost(view, was, out, j) {
      k := Least(view, was, out, j);
    } else {
      k := i;
    }
  }

  lemma FollowsChanges(tools: Tools, view: View, stem: string, out: string, test: bool, was: Files, now: Files,
                       second: Outcome)
    requires Follows(tools, view, stem, out, test, was, now, second)
    requires forall i :: Lost(view, was, out, i) ==> Renders(tools, view, i)
    ensures second.files != now <==>
      First(Verdicts(view, was, stem, out, test)).None? && exists i :: Lost(view, was, out, i)
  {
    if i :| Lost(view, was, out, i) {
      var k := Least(view, was, out, i);
      assert FirstLost(tools, view, was, out, k);
    }
  }

  // When stubs render, it changes the files exactly when every verdict is good and some
  // backend was lost.
  lemma RunAgainChanges(tools: Tools, input: Input, files: Files)
    requires Faithful(tools) && RunOf(tools, input, files).problem.None?
    requires forall i :: Lost(ViewFor(tools, input), files, OutPath(input), i) ==>
      Renders(tools, ViewFor(tools, input), i)
    ensures var view, stem, out := ViewFor(tools, input), Stem(input.source), OutPath(input);
      var first := RunOf(tools, input, files).files;
      RunOf(tools, input, first).files != first <==>
        First(Verdicts(view, files, stem, out, input.test)).None? && exists i :: Lost(view, files, out, i)
  {
    var first := RunOf(tools, input, files).files;
    RunAgain(tools, input, files);
    FollowsChanges(tools, ViewFor(tools, input), Stem(input.source), OutPath(input), input.test, files, first,
                   RunOf(tools, input, first));
  }

  lemma FollowsKeeps(tools: Tools, view: View, stem: string, out: string, test: bool, was: Files, now: Files,
                     second: Outcome)
    requires Follows(tools, view, stem, out, test, was, now, second) && forall i :: !Lost(view, was, out, i)
    ensures second == Outcome(now, First(Verdicts(view, was, stem, out, test)))
  {
  }

  lemma NoneLost(tools: Tools, view: View, stem: string, out: string, test: bool, was: Files, now: Files)
    requires Ran(tools, view, stem, out, test, was, now)
    ensures forall i :: !Lost(view, now, out, i)
  {
    forall i ensures !Lost(view, now, out, i) {
      if 0 <= i < |view.backends| {
        NothingInOut(tools, view, stem, out, test, was, now, view.backends[i]);
      }
    }
  }

  // From the second run on, nothing changes any more.
  lemma ThirdRunKeeps(tools: Tools, input: Input, files: Files)
    requires Faithful(tools) && RunOf(tools, input, files).problem.None?
    requires RunOf(tools, input, RunOf(tools, input, files).files).problem.None?
    ensures var second := RunOf(tools, input, RunOf(tools, input, files).files).files;
      RunOf(tools, input, second).files == second
  {
    var view, stem, out := ViewFor(tools, input), Stem(input.source), OutPath(input);
    var first := RunOf(tools, input, files).files;
    var second := RunOf(tools, input, first).files;
    FirstRan(tools, input, files);
    NoneLost(tools, view, stem, out, input.test, files, first);
    RunAgain(tools, input, first);
    FollowsKeeps(tools, view, stem, out, input.test, first, second, RunOf(tools, input, second));
  }

  lemma NothingInOut(tools: Tools, view: View, stem: string, out: string, test: bool, was: Files, now: Files,
                     b: BackendView)
    requires Ran(tools, view, stem, out, test, was, now)
    ensures KeptMethods(view, now, out, b) == MethodsOf(now, StructName(view.base, b.name))
  {
    var struct := StructName(view.base, b.name);
    KeptWere(view, now, out, b);
    WrapperApart(view.base, b.name);
    if Scanned(out) {
      OutIsGenerated(tools, view, stem, out, test, was, now);
    }
    forall x | x in MethodsOf(now, struct) ensures x in KeptMethods(view, now, out, b) {
      var p, f :| p in now && Scanned(p) && f in now[p].funcs && Receives(f, struct) && f.name == x;
      assert p in now - {out} && (now - {out})[p] == now[p];
    }
  }

  // No backend method lives in the file the first run is about to write.
  ghost predicate OutIsFree(view: View, files: Files, out: string) {
    out in files && Scanned(out) ==>
      forall k :: 0 <= k < |view.backends| ==>
        Workspace.DeclaredBy(files[out].funcs, StructName(view.base, view.backends[k].name)) == {}
  }

  // Implemented by hand already, or given a stub that declares something where
  // the next run will look.
  ghost predicate Regenerable(view: View, was: Files, stem: string, out: string, b: BackendView) {
    Implemented(view, was, b) || (view.methods != [] && Served(view, stem, out, b))
  }

  ghost predicate AllRegenerable(view: View, was: Files, stem: string, out: string) {
    forall k :: 0 <= k < |view.backends| ==> Regenerable(view, was, stem, out, view.backends[k])
  }

  lemma FreeKeeps(view: View, files: Files, out: string, k: nat)
    requires OutIsFree(view, files, out) && k < |view.backends|
    ensures KeptMethods(view, files, out, view.backends[k]) ==
      MethodsOf(files, StructName(view.base, view.backends[k].name))
  {
    var b, struct := view.backends[k], StructName(view.base, view.backends[k].name);
    KeptWere(view, files, out, b);
    forall x | x in MethodsOf(files, struct) ensures x in KeptMethods(view, files, out, b) {
      var p, f :| p in files && Scanned(p) && f in files[p].funcs && Receives(f, struct) && f.name == x;
      assert x in Workspace.DeclaredBy(files[p].funcs, struct);
      assert p in files - {out} && (files - {out})[p] == files[p];
    }
  }

  lemma FreeVerdict(view: View, files: Files, stem: string, out: string, test: bool, k: nat)
    requires OutIsFree(view, files, out) && k < |view.backends| && Ready(view, files, stem, view.backends[k])
    ensures !Lost(view, files, out, k)
    ensures Verdict(view, files, stem, out, test, view.backends[k]) ==
      if Regenerable(view, files, stem, out, view.backends[k]) then None
      else Some(StubTaken(StubPath(stem, view.backends[k].name)))
  {
    FreeKeeps(view, files, out, k);
  }

  lemma FreeVerdicts(view: View, files: Files, stem: string, out: string, test: bool)
    requires OutIsFree(view, files, out)
    requires forall k :: 0 <= k < |view.backends| ==> Ready(view, files, stem, view.backends[k])
    ensures var problem := First(Verdicts(view, files, stem, out, test));
      && (problem.None? <==> AllRegenerable(view, files, stem, out))
      && (problem.Some? ==> problem.value.StubTaken?)
    ensures forall i :: !Lost(view, files, out, i)
  {
    forall i ensures !Lost(view, files, out, i) {
      if 0 <= i < |view.backends| {
        FreeVerdict(view, files, stem, out, test, i);
      }
    }
    var found := Verdicts(view, files, stem, out, test);
    forall k | 0 <= k < |view.backends|
      ensures found[k] == if Regenerable(view, files, stem, out, view.backends[k]) then None
                          else Some(StubTaken(StubPath(stem, view.backends[k].name)))
    {
      FreeVerdict(view, files, stem, out, test, k);
    }
    FirstIsFound(found);
    if First(found).None? {
      forall k | 0 <= k < |view.backends| ensures Regenerable(view, files, stem, out, view.backends[k]) {
        assert found[k] in found;
      }
    } else {
      var k :| 0 <= k < |found| && found[k] == First(found);
    }
  }

  // Where the output file has no backend methods to lose, the second run changes nothing.
  lemma RunAgainKeeps(tools: Tools, input: Input, files: Files)
    requires Faithful(tools) && RunOf(tools, input, files).problem.None?
    requires OutIsFree(ViewFor(tools, input), files, OutPath(input))
    ensures var second := RunOf(tools, input, RunOf(tools, input, files).files);
      && second.files == RunOf(tools, input, files).files
      && (second.problem.None? <==>
            AllRegenerable(ViewFor(tools, input), files, Stem(input.source), OutPath(input)))
      && (second.problem.Some? ==> second.problem.value.StubTaken?)
  {
    var view, stem, out := ViewFor(tools, input), Stem(input.source), OutPath(input);
    var first := RunOf(tools, input, files).files;
    FirstRan(tools, input, files);
    RunAgain(tools, input, files);
    FreeVerdicts(view, files, stem, out, input.test);
    FollowsKeeps(tools, view, stem, out, input.test, files, first, RunOf(tools, input, first));
  }

  // Names that make no two generated paths one.
  predicate Clean(name: string) {
    name != "gen" && name != "test" && name != "compliance" && name != "compliance_gen"
    && !EndsWith(name, "_test") && '/' !in name
  }

  // Outside the output file every implemented backend has all its methods.
  ghost predicate AllOutside(view: View, files: Files, out: string) {
    forall b :: b in view.backends && Implemented(view, files, b) ==>
      NamesIn(view.methods) <= KeptMethods(view, files, out, b)
  }

  lemma CleanVerdict(view: View, files: Files, stem: string, test: bool, k: nat)
    requires view.methods != [] && '/' !in stem && k < |view.backends| && Clean(view.backends[k].name)
    ensures !Implemented(view, files, view.backends[k]) ==>
      Verdict(view, files, stem, GenPath(stem), test, view.backends[k]).None?
  {
    var b, out := view.backends[k], GenPath(stem);
    StubScanned(stem, b.name);
    Collisions(stem, b.name, b.name);
    assert Serves(view, stem, out, StructName(view.base, b.name), k);
  }

  lemma CleanKeeps(tools: Tools, view: View, stem: string, test: bool, was: Files, now: Files, second: Outcome)
    requires Follows(tools, view, stem, GenPath(stem), test, was, now, second) && AllOutside(view, was, GenPath(stem))
    requires view.methods != [] && '/' !in stem && forall k :: 0 <= k < |view.backends| ==> Clean(view.backends[k].name)
    ensures second == Outcome(now, None)
  {
    var out := GenPath(stem);
    var found := Verdicts(view, was, stem, out, test);
    assert view.methods[0].name in NamesIn(view.methods);
    forall k | 0 <= k < |view.backends| ensures found[k].None? && !Lost(view, was, out, k) {
      assert view.backends[k] in view.backends;
      CleanVerdict(view, was, stem, test, k);
    }
    FirstIsFound(found);
    FollowsKeeps(tools, view, stem, out, test, was, now, second);
  }

  lemma KeepsOutside(tools: Tools, view: View, stem: string, out: string, test: bool, was: Files, now: Files)
    requires Follows(tools, view, stem, out, test, was, now, Outcome(now, None))
    ensures AllOutside(view, was, out)
  {
    var found := Verdicts(view, was, stem, out, test);
    FirstIsFound(found);
    forall b | b in view.backends && Implemented(view, was, b)
      ensures NamesIn(view.methods) <= KeptMethods(view, was, out, b)
    {
      var k :| 0 <= k < |view.backends| && view.backends[k] == b;
      assert found[k] in found;
      assert !Lost(view, was, out, k);
    }
  }

  // The usual case, with the default output path, at least one method and clean names: the
  // second run succeeds and changes nothing exactly when every backend that was implemented
  // has all its methods outside the output file.
  lemma RunAgainSucceeds(tools: Tools, input: Input, files: Files)
    requires Faithful(tools) && RunOf(tools, input, files).problem.None?
    requires input.out == "" && input.iface.methods != [] && '/' !in Stem(input.source)
    requires forall k :: 0 <= k < |ViewFor(tools, input).backends| ==> Clean(ViewFor(tools, input).backends[k].name)
    ensures var now := RunOf(tools, input, files).files;
      RunOf(tools, input, now) == Outcome(now, None) <==> AllOutside(ViewFor(tools, input), files, OutPath(input))
  {
    var now := RunOf(tools, input, files).files;
    RunAgain(tools, input, files);
    if RunOf(tools, input, now) == Outcome(now, None) {
      KeepsOutside(tools, ViewFor(tools, input), Stem(input.source), OutPath(input), input.test, files, now);
    }
    if AllOutside(ViewFor(tools, input), files, OutPath(input)) {
      CleanKeeps(tools, ViewFor(tools, input), Stem(input.source), input.test, files, now, RunOf(tools, input, now));
    }
  }
}
