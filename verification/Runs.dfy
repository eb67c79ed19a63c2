// What holds over whole runs, between an earlier and a later state.
module Runs {
  import opened Basics
  import opened Registry
  import opened Protocol
  import opened Counting
  import opened Shape
  import opened Lifecycle
  import opened Linearity
  import opened Ending
  import opened Histories
  import opened Safety

  // Any step: closed, frozen and shut are for ever.
  lemma TakesSettles(s: State, t: CallId, a: Action, s': State)
    requires Shaped(s) && Settled(s) && Mapped(s.dir, s.heap) && Takes(s, t, a, s')
    ensures Settles(s, s')
  {
    match a
    case Registering(r) => RegisterSettles(s, t, s.threads[t], r, s'.threads[t], s');
    case Notifying(n) => NotifySettles(s, t, s.threads[t], n, s'.threads[t], s');
    case Removing(r) => RemoveSettles(s, t, s.threads[t], r, s'.threads[t], s');
    case Running(r) => RunSettles(s, t, s.threads[t], r, s'.threads[t], s');
    case Other(o) => OtherSettles(s, t, o, s'.threads[t], s');
    case AddDriver(_, _) =>
  }

  // Any step: the history only grows.
  lemma TakesGrows(s: State, t: CallId, a: Action, s': State)
    requires Shaped(s) && Takes(s, t, a, s')
    ensures s.log.hist <= s'.log.hist
  {
    match a
    case Registering(r) => RegisterLinear(s, t, s.threads[t], r, s'.threads[t], s');
    case Notifying(n) => NotifyLinear(s, t, s.threads[t], n, s'.threads[t], s');
    case Removing(r) => RemoveLinear(s, t, s.threads[t], r, s'.threads[t], s');
    case Running(r) => RunLinear(s, t, s.threads[t], r, s'.threads[t], s');
    case Other(o) => OtherLinear(s, t, o, s'.threads[t], s');
    case AddDriver(_, _) =>
  }

  // The registry is as it was, or call t's operation has just happened to it, whole.
  ghost predicate Unmoved(s: State, s': State) {
    s'.log.hist == s.log.hist && RegOf(s') == RegOf(s)
  }

  ghost predicate Happens(s: State, t: CallId, s': State) {
    t in s.threads && t in s'.threads && TakesEffect(s, t, s.threads[t], s'.threads[t], s')
  }

  // Refinement: a step of the protocol is no step of the atomic registry, or exactly one.
  lemma Refines(s: State, s': State)
    requires Reachable(s) && Step(s, s')
    ensures Unmoved(s, s') || exists t :: Happens(s, t, s')
  {
    ShapedHere(s);
    var t, a :| Takes(s, t, a, s');
    TakesRefines(s, t, a, s');
  }

  lemma TakesRefines(s: State, t: CallId, a: Action, s': State)
    requires Shaped(s) && Takes(s, t, a, s')
    ensures Unmoved(s, s') || Happens(s, t, s')
  {
    match a
    case Registering(r) => RegisterLinear(s, t, s.threads[t], r, s'.threads[t], s');
    case Notifying(n) => NotifyLinear(s, t, s.threads[t], n, s'.threads[t], s');
    case Removing(r) => RemoveLinear(s, t, s.threads[t], r, s'.threads[t], s');
    case Running(r) => RunLinear(s, t, s.threads[t], r, s'.threads[t], s');
    case Other(o) => OtherLinear(s, t, o, s'.threads[t], s');
    case AddDriver(_, _) =>
  }

  lemma RunReachable(r: seq<State>, i: nat)
    requires Run(r) && Init(r[0]) && i < |r|
    ensures Reachable(r[i])
  {
    var p := r[..i + 1];
    assert Run(p) && Init(p[0]) && p[|p| - 1] == r[i];
  }

  lemma StepSettles(r: seq<State>, i: nat)
    requires Run(r) && Init(r[0]) && i + 1 < |r|
    ensures Settles(r[i], r[i + 1]) && r[i].log.hist <= r[i + 1].log.hist
  {
    RunReachable(r, i);
    ShapedHere(r[i]);
    SettledHere(r[i]);
    LivesHere(r[i]);
    assert Step(r[i], r[i + 1]);
    var t, a :| Takes(r[i], t, a, r[i + 1]);
    TakesSettles(r[i], t, a, r[i + 1]);
    TakesGrows(r[i], t, a, r[i + 1]);
  }

  // What never goes back: closed and openings, the builders once frozen, the history.
  ghost predicate Forward(s: State, s': State) {
    && (s.dir.closed ==> s'.dir.closed && s'.dir.entries == map[] && s'.dir.openings <= s.dir.openings)
    && (s.drivers.frozen ==> s'.drivers.frozen && s'.drivers.builders == s.drivers.builders)
    && s.log.hist <= s'.log.hist
  }

  lemma StepForward(r: seq<State>, i: nat)
    requires Run(r) && Init(r[0]) && i + 1 < |r|
    ensures Forward(r[i], r[i + 1])
  {
    StepSettles(r, i);
    RunReachable(r, i + 1);
    LivesHere(r[i + 1]);
  }

  ghost predicate Chain(r: seq<State>) {
    forall i, j :: 0 <= i < j < |r| && j == i + 1 ==> Forward(r[i], r[j])
  }

  lemma RunChain(r: seq<State>)
    requires Run(r) && Init(r[0])
    ensures Chain(r)
  {
    forall i, j | 0 <= i < j < |r| && j == i + 1 ensures Forward(r[i], r[j]) {
      StepForward(r, i);
    }
  }

  lemma {:induction false} ChainForward(r: seq<State>, i: nat, j: nat)
    requires Chain(r) && i < j < |r|
    ensures Forward(r[i], r[j])
    decreases j
  {
    if i + 1 < j {
      ChainForward(r, i, j - 1);
    }
  }

  // Terminal close: from the step that sets closed the map stays empty and the
  // openings never rise.
  lemma ClosedForGood(r: seq<State>, i: nat, j: nat)
    requires Run(r) && Init(r[0]) && i < j < |r| && r[i].dir.closed
    ensures r[j].dir.closed && r[j].dir.entries == map[] && r[j].dir.openings <= r[i].dir.openings
  {
    RunChain(r);
    ChainForward(r, i, j);
  }

  // Once a source has begun opening, the builders never change again.
  lemma BuildersFrozen(r: seq<State>, i: nat, j: nat)
    requires Run(r) && Init(r[0]) && i <= j < |r| && r[i].drivers.frozen
    ensures r[j].drivers.frozen && r[j].drivers.builders == r[i].drivers.builders
  {
    if i < j {
      RunChain(r);
      ChainForward(r, i, j);
    }
  }

  lemma HistoryGrows(r: seq<State>, i: nat, j: nat)
    requires Run(r) && Init(r[0]) && i <= j < |r|
    ensures r[i].log.hist <= r[j].log.hist
  {
    if i < j {
      RunChain(r);
      ChainForward(r, i, j);
    }
  }

  // All opens of a run resolve against one builders map.
  lemma OpensShareBuilders(r: seq<State>, i: nat, t: CallId, j: nat, u: CallId)
    requires Run(r) && Init(r[0]) && i <= j < |r|
    requires t in r[i].threads && r[i].threads[t].pc.Opening?
    requires u in r[j].threads && r[j].threads[u].pc.Opening?
    ensures r[j].drivers.builders == r[i].drivers.builders
  {
    RunReachable(r, i);
    SettledHere(r[i]);
    BuildersFrozen(r, i, j);
  }

  // Source identity over a run: once an entry is out of the map, no later
  // admission ever yields it, even if its name is registered again.
  lemma NeverAdmittedAgain(r: seq<State>, i: nat, j: nat, e: EntryId, k: nat)
    requires Run(r) && Init(r[0]) && i <= j < |r| && e in r[i].heap && e !in r[i].dir.entries.Values
    requires |r[i].log.hist| <= k < |r[j].log.hist|
    ensures r[j].log.hist[k].res != Admitted(e)
    ensures r[j].log.hist[k].op.AcquireSource? && r[j].log.hist[k].op.entry == Some(e) ==>
      r[j].log.hist[k].res == NotFound
  {
    RunReachable(r, i);
    RunReachable(r, j);
    LinearHere(r[i]);
    LinearHere(r[j]);
    HistoryGrows(r, i, j);
    var h := r[j].log.hist;
    assert h[..|r[i].log.hist|] == r[i].log.hist;
    GoneForGood(h, |r[i].log.hist|, k);
    PrefixLegal(h, k);
  }

  // Call t is past a successful driver Open of its k-th operation.
  ghost predicate PastOpen(s: State, t: CallId, k: nat, op: Op) {
    t in s.threads &&
    var th := s.threads[t];
    th.ops > k || (th.ops == k && th.op == op && (th.pc.Opened? || (th.res.Some? && !th.res.value.OpenFailed?)))
  }

  lemma OpenedStays(s: State, t: CallId, a: Action, s': State)
    requires Shaped(s) && Takes(s, t, a, s') && !a.AddDriver? && t in s.threads
    requires s.threads[t].pc.Opened?
    ensures s'.threads[t].op == s.threads[t].op && s'.threads[t].ops == s.threads[t].ops
    ensures s'.threads[t].pc.Opened? || (s'.threads[t].res.Some? && !s'.threads[t].res.value.OpenFailed?)
  {
    assert Fits(s.threads[t]);
  }

  lemma AnswerStays(s: State, t: CallId, a: Action, s': State)
    requires Shaped(s) && Takes(s, t, a, s') && !a.AddDriver? && t in s.threads
    requires s.threads[t].res.Some?
    ensures s'.threads[t].ops > s.threads[t].ops
         || (s'.threads[t].ops == s.threads[t].ops && s'.threads[t].op == s.threads[t].op
             && s'.threads[t].res == s.threads[t].res)
  {
    match a
    case Registering(r) => RegisterLinear(s, t, s.threads[t], r, s'.threads[t], s');
    case Notifying(n) => NotifyLinear(s, t, s.threads[t], n, s'.threads[t], s');
    case Removing(r) => RemoveLinear(s, t, s.threads[t], r, s'.threads[t], s');
    case Running(r) => RunLinear(s, t, s.threads[t], r, s'.threads[t], s');
    case Other(o) => OtherLinear(s, t, o, s'.threads[t], s');
  }

  lemma OpsGrow(s: State, t: CallId, a: Action, s': State)
    requires Shaped(s) && Takes(s, t, a, s') && !a.AddDriver? && t in s.threads
    ensures s'.threads[t].ops >= s.threads[t].ops
  {
    match a
    case Registering(r) => RegisterLinear(s, t, s.threads[t], r, s'.threads[t], s');
    case Notifying(n) => NotifyLinear(s, t, s.threads[t], n, s'.threads[t], s');
    case Removing(r) => RemoveLinear(s, t, s.threads[t], r, s'.threads[t], s');
    case Running(r) => RunLinear(s, t, s.threads[t], r, s'.threads[t], s');
    case Other(o) => OtherLinear(s, t, o, s'.threads[t], s');
  }

  lemma OnlyMover(s: State, t: CallId, a: Action, s': State, u: CallId)
    requires Takes(s, t, a, s') && u in s.threads && (u != t || a.AddDriver?)
    ensures u in s'.threads && s'.threads[u] == s.threads[u]
  {
  }

  lemma OthersStay(s: State, t: CallId, a: Action, s': State)
    requires Takes(s, t, a, s')
    ensures forall u :: u in s'.threads && u != t ==> u in s.threads && s'.threads[u] == s.threads[u]
    ensures forall u :: u in s.threads ==> u in s'.threads
  {
  }

  // A call keeps its caller's configuration.
  lemma SameConfiguration(s: State, t: CallId, a: Action, s': State)
    requires Takes(s, t, a, s') && t in s.threads
    ensures t in s'.threads
    ensures s'.threads[t].caller.Configure? ==>
      s.threads[t].caller.Configure? && s'.threads[t].caller.cfg == s.threads[t].caller.cfg
  {
  }

  lemma StepPastOpen(s: State, s': State, t: CallId, k: nat, op: Op)
    requires Shaped(s) && Step(s, s') && PastOpen(s, t, k, op)
    ensures PastOpen(s', t, k, op)
  {
    var u, a :| Takes(s, u, a, s');
    if u != t || a.AddDriver? {
      OnlyMover(s, u, a, s', t);
    } else if s.threads[t].ops > k {
      OpsGrow(s, t, a, s');
    } else if s.threads[t].pc.Opened? {
      OpenedStays(s, t, a, s');
    } else {
      AnswerStays(s, t, a, s');
    }
  }

  lemma PastOpenStays(r: seq<State>, i: nat, j: nat, t: CallId, k: nat, op: Op)
    requires Run(r) && Init(r[0]) && i <= j < |r| && PastOpen(r[i], t, k, op)
    ensures PastOpen(r[j], t, k, op)
  {
    PastOpenKept(r, t, k, op);
    PastOpenOn(r, i, j, t, k, op);
  }

  ghost predicate KeepsPastOpen(r: seq<State>, t: CallId, k: nat, op: Op) {
    forall m, n :: 0 <= m < n < |r| && n == m + 1 && PastOpen(r[m], t, k, op) ==> PastOpen(r[n], t, k, op)
  }

  lemma PastOpenKept(r: seq<State>, t: CallId, k: nat, op: Op)
    requires Run(r) && Init(r[0])
    ensures KeepsPastOpen(r, t, k, op)
  {
    forall m, n | 0 <= m < n < |r| && n == m + 1 && PastOpen(r[m], t, k, op) ensures PastOpen(r[n], t, k, op) {
      PastOpenNext(r, m, t, k, op);
    }
  }

  lemma PastOpenNext(r: seq<State>, m: nat, t: CallId, k: nat, op: Op)
    requires Run(r) && Init(r[0]) && m + 1 < |r| && PastOpen(r[m], t, k, op)
    ensures PastOpen(r[m + 1], t, k, op)
  {
    RunReachable(r, m);
    ShapedHere(r[m]);
    assert Step(r[m], r[m + 1]);
    StepPastOpen(r[m], r[m + 1], t, k, op);
  }

  lemma {:induction false} PastOpenOn(r: seq<State>, i: nat, j: nat, t: CallId, k: nat, op: Op)
    requires i <= j < |r| && PastOpen(r[i], t, k, op)
    requires KeepsPastOpen(r, t, k, op)
    ensures PastOpen(r[j], t, k, op)
    decreases j
  {
    if i < j {
      PastOpenOn(r, i, j - 1, t, k, op);
    }
  }

  lemma {:induction false} EffectsGrow(h: History, i: nat, t: CallId) returns (k: nat)
    requires i < |h| && Effects(h[..i], t) < Effects(h, t)
    ensures i <= k < |h| && h[k].call == t && Some(h[k]) == LastOf(h, t)
  {
    if h[|h| - 1].call == t {
      k := |h| - 1;
    } else {
      assert h[..|h| - 1][..i] == h[..i];
      k := EffectsGrow(h[..|h| - 1], i, t);
    }
  }

  // No double open: registers of an absent name overlap, none of them removed
  // meanwhile and the directory not closed. As soon as one call whose driver
  // Open succeeded has its answer, exactly one of them has succeeded.
  lemma ExactlyOneWins(r: seq<State>, i: nat, m: nat, j: nat, t: CallId, n: Name)
    requires Run(r) && Init(r[0]) && i <= m <= j < |r|
    requires n !in r[i].dir.entries && !r[j].dir.closed
    requires forall k :: |r[i].log.hist| <= k < |r[j].log.hist| ==> !Drops(r[j].log.hist[k], n)
    requires t in r[m].threads && r[m].threads[t].pc.Opened?
    requires r[m].threads[t].op.Register? && r[m].threads[t].op.name == n
    requires t in r[j].threads && r[j].threads[t].ops == r[m].threads[t].ops && r[j].threads[t].res.Some?
    ensures |r[i].log.hist| <= |r[j].log.hist|
    ensures OpensBetween(r[j].log.hist, |r[i].log.hist|, |r[j].log.hist|, n) == 1
  {
    var h := r[j].log.hist;
    var start, mid := |r[i].log.hist|, |r[m].log.hist|;
    HistoryGrows(r, i, m);
    HistoryGrows(r, m, j);
    assert h[..start] == r[i].log.hist && h[..mid] == r[m].log.hist;
    HistoryAt(r, i);
    HistoryAt(r, j);
    var k := AnswerAfter(r, m, j, t);
    AnswerOfOpened(h, k, r[j].dir.closed);
    ExactlyOneOpens(h, start, |h|, k, n);
  }

  lemma {:induction false} NeverHeardOf(h: History, t: CallId)
    requires Effects(h, t) == 0
    ensures forall k :: 0 <= k < |h| ==> h[k].call != t
  {
    if h != [] {
      NeverHeardOf(h[..|h| - 1], t);
    }
  }

  lemma HistoryAt(r: seq<State>, i: nat)
    requires Run(r) && Init(r[0]) && i < |r|
    ensures LegalHistory(r[i].log.hist)
    ensures Replay(r[i].log.hist).entries == r[i].dir.entries && Replay(r[i].log.hist).closed == r[i].dir.closed
  {
    RunReachable(r, i);
    LinearHere(r[i]);
  }

  lemma EffectsAt(r: seq<State>, i: nat, t: CallId)
    requires Run(r) && Init(r[0]) && i < |r| && t in r[i].threads
    ensures Effects(r[i].log.hist, t) == r[i].threads[t].ops - One(r[i].threads[t].res.None? && r[i].threads[t].ops > 0)
    ensures r[i].threads[t].res.Some? ==>
      LastOf(r[i].log.hist, t) == Some(Event(t, r[i].threads[t].op, r[i].threads[t].res.value))
    ensures r[i].threads[t].pc.Opened? ==>
      && r[i].threads[t].res.None? && r[i].threads[t].ops > 0
      && r[i].threads[t].op.Register? && r[i].threads[t].op.name != ""
  {
    RunReachable(r, i);
    LinearHere(r[i]);
    ShapedHere(r[i]);
    assert Fits(r[i].threads[t]);
  }

  // Where in the history a call past Open got its answer.
  lemma AnswerAfter(r: seq<State>, m: nat, j: nat, t: CallId) returns (k: nat)
    requires Run(r) && Init(r[0]) && m <= j < |r| && r[m].log.hist <= r[j].log.hist
    requires t in r[m].threads && r[m].threads[t].pc.Opened?
    requires t in r[j].threads && r[j].threads[t].ops == r[m].threads[t].ops && r[j].threads[t].res.Some?
    ensures |r[m].log.hist| <= k < |r[j].log.hist|
    ensures r[j].log.hist[k].op == r[m].threads[t].op && !r[j].log.hist[k].res.OpenFailed?
    ensures r[m].threads[t].op.Register? && r[m].threads[t].op.name != ""
  {
    EffectsAt(r, m, t);
    EffectsAt(r, j, t);
    PastOpenStays(r, m, j, t, r[m].threads[t].ops, r[m].threads[t].op);
    assert r[j].log.hist[..|r[m].log.hist|] == r[m].log.hist;
    assert r[j].log.hist != r[m].log.hist;
    k := EffectsGrow(r[j].log.hist, |r[m].log.hist|, t);
  }

  // Each operation takes effect at one moment between its call and its return: with
  // the call still unanswered in one state and answered in a later one, the event
  // of that answer lies between them.
  lemma TakesEffectInside(r: seq<State>, m: nat, j: nat, t: CallId) returns (k: nat)
    requires Run(r) && Init(r[0]) && m <= j < |r|
    requires t in r[m].threads && r[m].threads[t].res.None? && r[m].threads[t].ops > 0
    requires t in r[j].threads && r[j].threads[t].ops == r[m].threads[t].ops && r[j].threads[t].res.Some?
    ensures |r[m].log.hist| <= k < |r[j].log.hist|
    ensures r[j].log.hist[k] == Event(t, r[j].threads[t].op, r[j].threads[t].res.value)
    ensures Legal(Replay(r[j].log.hist[..k]), r[j].threads[t].op, r[j].threads[t].res.value)
  {
    HistoryGrows(r, m, j);
    EffectsAt(r, m, t);
    EffectsAt(r, j, t);
    HistoryAt(r, j);
    assert r[j].log.hist[..|r[m].log.hist|] == r[m].log.hist;
    assert r[j].log.hist != r[m].log.hist;
    k := EffectsGrow(r[j].log.hist, |r[m].log.hist|, t);
    PrefixLegal(r[j].log.hist, k);
  }

  // Real-time order: an operation answered before another is unanswered comes first.
  lemma RealTimeOrder(r: seq<State>, m: nat, j: nat, t: CallId, u: CallId) returns (a: nat, b: nat)
    requires Run(r) && Init(r[0]) && m <= j < |r|
    requires t in r[m].threads && r[m].threads[t].res.Some?
    requires u in r[m].threads && r[m].threads[u].res.None? && r[m].threads[u].ops > 0
    requires u in r[j].threads && r[j].threads[u].ops == r[m].threads[u].ops && r[j].threads[u].res.Some?
    ensures a < b < |r[j].log.hist|
    ensures r[j].log.hist[a] == Event(t, r[m].threads[t].op, r[m].threads[t].res.value)
    ensures r[j].log.hist[b] == Event(u, r[j].threads[u].op, r[j].threads[u].res.value)
  {
    HistoryGrows(r, m, j);
    RunReachable(r, m);
    a := Linearizable(r[m], t);
    b := TakesEffectInside(r, m, j, u);
  }

  // With an open directory, a register past Open was told Registered or AlreadyRegistered.
  lemma AnswerOfOpened(h: History, k: nat, closed: bool)
    requires LegalHistory(h) && Replay(h).closed == closed && !closed && k < |h|
    requires h[k].op.Register? && !h[k].res.OpenFailed? && h[k].op.name != ""
    ensures h[k].res.Registered? || h[k].res.AlreadyRegistered?
  {
    PrefixLegal(h, k);
    GoneForGood(h, k, |h|);
    assert h[..|h|] == h;
  }
}
