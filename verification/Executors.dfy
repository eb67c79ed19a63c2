// Runs as one goroutine's calls see them: by name through the Executor, by identity
// through a Source. What cleans up after a Run is what it has deferred, and neither that
// nor what the Run returns depends on what the observer does.
module Executors {
  import opened Basics
  import opened Registry
  import opened Protocol
  import opened Frames
  import opened Brackets
  import opened Throttling
  import opened Directories

  // How fn itself can end.
  type Ending = out: Outcome | !out.Nothing? && !out.GaveUp? witness Value

  // The operation a caller passes in, and the clients it was given.
  class Fn {
    const outcome: Ending
    var passed: seq<ClientId>

    constructor (outcome: Ending)
      ensures this.outcome == outcome && passed == []
    {
      this.outcome, passed := outcome, [];
    }

    // `raised`: it panics, and returns nothing.
    method Call(client: ClientId) returns (err: Outcome, raised: bool)
      modifies this
      ensures raised == outcome.Panicked? && err == (if raised then Nothing else outcome)
      ensures passed == old(passed) + [client]
    {
      passed := passed + [client];
      raised := outcome.Panicked?;
      err := if raised then Nothing else outcome;
    }
  }

  // `ended`: before Acquire looks; `done`: by the time its select looks;
  // `pickToken`: what select picks when a token is ready too.
  datatype Context = Context(ended: bool, done: bool, pickToken: bool) {
    predicate Orderly() { ended ==> done }

    predicate LetsThrough(throttle: Throttle)
      reads throttle
    {
      !ended && (throttle.capacity == 0 || !done || (throttle.tokens > 0 && pickToken))
    }

    // Runs that have to give their token back before this one has its answer.
    function Ahead(throttle: Throttle): nat
      reads throttle
    {
      if throttle.Waits(done) then 1 else 0
    }
  }

  class Executor {
    const directory: Directory

    constructor (directory: Directory)
      ensures this.directory == directory
    {
      this.directory := directory;
    }

    // throttle.Acquire. If it has to wait for a token, some Run inside the entry holds one.
    method Acquire(entry: DirectoryEntry, ctx: Context) returns (granted: bool)
      requires entry.Admitted() && ctx.Orderly()
      modifies entry`inFlight, entry.throttle
      ensures granted == old(ctx.LetsThrough(entry.throttle))
      ensures entry.inFlight == old(entry.inFlight - ctx.Ahead(entry.throttle)) > 0
      ensures entry.throttle.tokens == old(entry.throttle.tokens + ctx.Ahead(entry.throttle))
                                       - (if granted && entry.throttle.capacity > 0 then 1 else 0)
      ensures entry.throttle.tokens <= entry.throttle.capacity
    {
      if entry.throttle.Waits(ctx.done) {
        entry.OneLeaves();
      }
      granted := entry.throttle.Acquire(ctx.ended, ctx.done, ctx.pickToken);
    }

    // The complete callback of a Run that panics, or returns.
    static function Report(call: CallId, name: Name, err: Outcome, raised: bool): Callback {
      RunDone(name, if raised then Panicked else err, call)
    }

    static function Told(d: Deferred, cb: Callback): seq<Callback> { if d.CompleteRun? then [cb] else [] }

    // One deferred call of a Run. The complete callback recovers a panic and panics
    // again with it; `panics`: whether the Run is panicking afterwards.
    method CallDeferred(d: Deferred, call: CallId, name: Name, entry: DirectoryEntry, err: Outcome, raised: bool)
        returns (panics: bool)
      requires d.DoneWg? || d.GiveToken? || d.CompleteRun?
      requires d.DoneWg? ==> entry.inFlight > 0
      requires d.GiveToken? && entry.throttle.capacity > 0 ==> entry.throttle.tokens < entry.throttle.capacity
      modifies entry`inFlight, entry.throttle, directory.observer
      ensures panics == raised
      ensures entry.inFlight == old(entry.inFlight) - if d.DoneWg? then 1 else 0
      ensures entry.throttle.tokens ==
        old(entry.throttle.tokens) + if d.GiveToken? && entry.throttle.capacity > 0 then 1 else 0
      ensures directory.Seen() == old(directory.Seen()) + directory.Heard(Told(d, Report(call, name, err, raised)))
    {
      panics := raised;
      if d.DoneWg? {
        entry.inFlight := entry.inFlight - 1;
      } else if d.GiveToken? {
        entry.throttle.Release();
      } else {
        var recovered := raised;
        panics := directory.Tell(Report(call, name, err, recovered));
        if !panics {
          panics := recovered;
        }
      }
    }

    static function Tally(defers: seq<Deferred>, d: Deferred): nat {
      if defers == [] then 0
      else (if defers[|defers| - 1] == d then 1 else 0) + Tally(defers[..|defers| - 1], d)
    }

    // What the observer hears while they are made.
    static function AllTold(defers: seq<Deferred>, cb: Callback): seq<Callback> {
      if defers == [] then [] else Told(defers[|defers| - 1], cb) + AllTold(defers[..|defers| - 1], cb)
    }

    static lemma OneMore(defers: seq<Deferred>, d: Deferred, cb: Callback)
      ensures forall k :: Tally(defers + [d], k) == Tally(defers, k) + if k == d then 1 else 0
      ensures AllTold(defers + [d], cb) == Told(d, cb) + AllTold(defers, cb)
    {
      assert (defers + [d])[..|defers|] == defers;
    }

    // The deferred calls are made, last one first, each once, whether the Run returns or panics.
    method Unwind(call: CallId, name: Name, entry: DirectoryEntry, defers: seq<Deferred>, err: Outcome, raised: bool)
        returns (panics: bool)
      requires forall d :: d in defers ==> d.DoneWg? || d.GiveToken? || d.CompleteRun?
      requires Tally(defers, DoneWg) <= entry.inFlight
      requires entry.throttle.capacity > 0 ==>
        entry.throttle.tokens + Tally(defers, GiveToken) <= entry.throttle.capacity
      modifies entry`inFlight, entry.throttle, directory.observer
      ensures panics == raised
      ensures entry.inFlight == old(entry.inFlight) - Tally(defers, DoneWg)
      ensures entry.throttle.tokens ==
        old(entry.throttle.tokens) + if entry.throttle.capacity > 0 then Tally(defers, GiveToken) else 0
      ensures directory.Seen() ==
        old(directory.Seen()) + directory.Heard(AllTold(defers, Report(call, name, err, raised)))
      decreases |defers|
    {
      panics := raised;
      if defers != [] {
        var d, rest := defers[|defers| - 1], defers[..|defers| - 1];
        panics := CallDeferred(d, call, name, entry, err, panics);
        panics := Unwind(call, name, entry, rest, err, panics);
        ghost var cb := Report(call, name, err, raised);
        directory.HeardMore(old(directory.Seen()), Told(d, cb), AllTold(rest, cb));
      }
    }

    // The common path of an admitted Run. It leaves the in-flight set and gives
    // its token back however fn ends, and makes its callbacks in pairs.
    method RunEntry(call: CallId, name: Name, entry: DirectoryEntry, ctx: Context, fn: Fn) returns (out: Outcome)
      requires entry.Admitted() && ctx.Orderly()
      modifies entry`inFlight, entry.throttle, directory.observer, fn
      ensures out == if old(ctx.LetsThrough(entry.throttle)) then fn.outcome else GaveUp
      ensures entry.Sound() && entry.inFlight == old(entry.inFlight - ctx.Ahead(entry.throttle)) - 1
      ensures entry.throttle.tokens == old(entry.throttle.tokens + ctx.Ahead(entry.throttle))
      ensures fn.passed == old(fn.passed) + if out.GaveUp? then [] else [entry.client]
      ensures directory.Seen() == old(directory.Seen()) + directory.Heard(Made(call, name, out))
    {
      var defers, err := [DoneWg], Nothing;
      var granted := Acquire(entry, ctx);
      var raised := directory.Tell(AcquireDone(name, granted, call));
      if !granted {
        err := GaveUp;
      } else if !raised {
        defers := defers + [GiveToken];
        if directory.observer != null {
          defers := defers + [CompleteRun];
        }
        err, raised := fn.Call(entry.client);
      }
      assert defers == Deferring(granted, directory.observer != null);
      Stacks(granted, directory.observer != null, Report(call, name, err, raised));
      raised := Unwind(call, name, entry, defers, err, raised);
      out := if raised then Panicked else err;
    }

    // The stack a Run leaves with.
    static function Deferring(granted: bool, observed: bool): seq<Deferred> {
      if !granted then [DoneWg]
      else if observed then [DoneWg] + [GiveToken] + [CompleteRun]
      else [DoneWg] + [GiveToken]
    }

    static lemma Stacks(granted: bool, observed: bool, cb: Callback)
      ensures var defers := Deferring(granted, observed);
        && (forall d :: d in defers ==> d.DoneWg? || d.GiveToken? || d.CompleteRun?)
        && Tally(defers, DoneWg) == 1 && Tally(defers, GiveToken) == (if granted then 1 else 0)
        && AllTold(defers, cb) == if granted && observed then [cb] else []
    {
      assert [] + [DoneWg] == [DoneWg];
      OneMore([], DoneWg, cb);
      OneMore([DoneWg], GiveToken, cb);
      OneMore([DoneWg] + [GiveToken], CompleteRun, cb);
    }

    // The Directory is none the worse for it.
    method RunAdmitted(call: CallId, name: Name, entry: DirectoryEntry, ctx: Context, fn: Fn) returns (out: Outcome)
      requires directory.Shape() && directory.Inside(entry) && ctx.Orderly()
      modifies entry`inFlight, entry.throttle, directory.observer, fn
      ensures directory.Valid()
      ensures out == if old(ctx.LetsThrough(entry.throttle)) then fn.outcome else GaveUp
      ensures entry.inFlight == old(entry.inFlight - ctx.Ahead(entry.throttle)) - 1
      ensures entry.throttle.tokens == old(entry.throttle.tokens + ctx.Ahead(entry.throttle))
      ensures fn.passed == old(fn.passed) + if out.GaveUp? then [] else [entry.client]
      ensures directory.Seen() == old(directory.Seen()) + directory.Heard(Made(call, name, out))
    {
      out := RunEntry(call, name, entry, ctx, fn);
    }

    // None: the name is not registered, and fn is never called.
    method Run(call: CallId, name: Name, ctx: Context, fn: Fn) returns (out: Option<Outcome>)
      requires directory.Valid() && ctx.Orderly()
      modifies directory.Leaving(name, null)`inFlight, Directory.Gates(directory.Leaving(name, null))
      modifies directory.observer, fn
      ensures directory.Valid()
      ensures out.None? <==> name !in directory.entries
      ensures out.Some? ==> var entry := directory.entries[name];
        && out.value == (if old(ctx.LetsThrough(directory.entries[name].throttle)) then fn.outcome else GaveUp)
        && entry.inFlight == old(directory.entries[name].inFlight - ctx.Ahead(directory.entries[name].throttle))
        && entry.throttle.tokens ==
           old(directory.entries[name].throttle.tokens + ctx.Ahead(directory.entries[name].throttle))
      ensures fn.passed ==
        old(fn.passed) + if out.None? || out.value.GaveUp? then [] else [directory.entries[name].client]
      ensures directory.Seen() ==
        old(directory.Seen()) + directory.Heard(if out.None? then [] else Made(call, name, out.value))
    {
      var entry := directory.Acquire(name);
      if entry == null {
        return None;
      }
      var o := RunAdmitted(call, name, entry, ctx, fn);
      out := Some(o);
    }

    method RunSource(call: CallId, name: Name, expected: DirectoryEntry?, ctx: Context, fn: Fn)
        returns (out: Option<Outcome>)
      requires directory.Valid() && ctx.Orderly()
      requires expected != null ==> expected in directory.known
      modifies directory.Admitting(name, expected)`inFlight, Directory.Gates(directory.Admitting(name, expected))
      modifies directory.observer, fn
      ensures directory.Valid()
      ensures out.None? <==> expected == null || name !in directory.entries || directory.entries[name] != expected
      ensures out.Some? ==>
        && out.value == (if old(ctx.LetsThrough(expected.throttle)) then fn.outcome else GaveUp)
        && expected.inFlight == old(expected.inFlight - ctx.Ahead(expected.throttle))
        && expected.throttle.tokens == old(expected.throttle.tokens + ctx.Ahead(expected.throttle))
      ensures fn.passed == old(fn.passed) + if out.None? || out.value.GaveUp? then [] else [expected.client]
      ensures directory.Seen() ==
        old(directory.Seen()) + directory.Heard(if out.None? then [] else Made(call, name, out.value))
    {
      var entry := directory.AcquireSource(name, expected);
      if entry == null {
        return None;
      }
      var o := RunAdmitted(call, name, entry, ctx, fn);
      out := Some(o);
    }
  }

  // Built once; whatever becomes of the name later, it only ever means this entry.
  datatype Source = Source(name: Name, exec: Executor, entry: DirectoryEntry?) {
    method Run(call: CallId, ctx: Context, fn: Fn) returns (out: Option<Outcome>)
      requires exec.directory.Valid() && ctx.Orderly()
      requires entry != null ==> entry in exec.directory.known
      modifies exec.directory.Admitting(name, entry)`inFlight, Directory.Gates(exec.directory.Admitting(name, entry))
      modifies exec.directory.observer, fn
      ensures exec.directory.Valid()
      ensures out.None? <==> entry == null || Registry.Lookup(exec.directory.View().entries, name) != Some(entry.client)
      ensures out.Some? ==> out.value == if old(ctx.LetsThrough(entry.throttle)) then fn.outcome else GaveUp
      ensures fn.passed == old(fn.passed) + if out.None? || out.value.GaveUp? then [] else [entry.client]
    {
      out := exec.RunSource(call, name, entry, ctx, fn);
    }
  }

  method NewSource(name: Name, exec: Executor) returns (source: Source)
    requires exec.directory.Valid()
    ensures source.name == name && source.exec == exec
    ensures source.entry != null ==> source.entry in exec.directory.known
    ensures exec.directory.Expected(source.entry) == Registry.Lookup(exec.directory.View().entries, name)
  {
    var entry := exec.directory.SourceEntry(name);
    source := Source(name, exec, entry);
  }
}
