// What safeObserve and the deferred Release are there for: the same Run without one of
// them loses its token when a callback, or fn, panics.
module Safeguards {
  import opened Basics
  import opened Protocol
  import opened Frames
  import opened Positions

  // The goroutine after at most n steps, always with the same reply.
  function Steps(g: Goroutine, r: Reply, n: nat): Goroutine
    decreases n
  {
    if n == 0 || g.stack == [] then g else Steps(Exec(g, true, r), r, n - 1)
  }

  // Past the throttle, with wg.Done registered and this code to run.
  function Holding(e: EntryId, code: seq<Instr>): Goroutine {
    Goroutine(InRun(e), [Base(code, [DoneWg])], None, Nothing, [], multiset{DoneWg})
  }

  // It has come to its end panicking, and wg.Done is all that it did on the way.
  ghost predicate LosesToken(g: Goroutine, r: Reply, p: Panic) {
    && Steps(g, r, 5).stack == [] && Steps(g, r, 5).panic == Some(p) && Steps(g, r, 5).ran == [DoneWg]
    && forall k: nat :: k <= 5 ==> Head(Steps(g, r, k)) != Some(Do(GiveToken))
  }

  // From the panic on: wg.Done is made, and the panic goes on.
  lemma Unwound(e: EntryId, code: seq<Instr>, p: Panic, r: Reply) returns (a: Goroutine, b: Goroutine, c: Goroutine)
    ensures var g := Holding(e, code).(panic := Some(p));
      && Head(g) == None && Exec(g, true, r) == a && a.stack != []
      && Head(a) == Some(Do(DoneWg)) && Exec(a, true, r) == b && b.stack != []
      && Head(b) == None && Exec(b, true, r) == c && c.stack != []
      && Head(c) == None && Exec(c, true, r) == Goroutine(InRun(e), [], Some(p), Nothing, [DoneWg], multiset{DoneWg})
  {
    var g := Holding(e, code).(panic := Some(p));
    var base := Base([], []);
    Alone(Base(code, [DoneWg]));
    assert [] + [DoneWg] == [DoneWg];
    ExecDeferred(g, [], Base(code, [DoneWg]), [], DoneWg, true, r);
    a := Exec(g, true, r);
    Pair(base, Deferring([Do(DoneWg)], Some(p), None));
    ExecAct(a, [base], Deferring([Do(DoneWg)], Some(p), None), DoneWg, true, r);
    b := Exec(a, true, r);
    Pair(base, Deferring([], Some(p), None));
    ExecLeave(b, [base], Deferring([], Some(p), None), true, r);
    c := Exec(b, true, r);
    Alone(base);
    ExecLeave(c, [], base, true, r);
  }

  // A Run whose first step panics loses its token, whatever code was to follow.
  lemma FirstPanics(e: EntryId, i: Instr, code: seq<Instr>, p: Panic, r: Reply)
    requires i != Do(GiveToken)
    requires Exec(Holding(e, [i] + code), true, r) == Holding(e, code).(panic := Some(p))
    ensures LosesToken(Holding(e, [i] + code), r, p)
  {
    var g := Holding(e, [i] + code);
    Alone(Base([i] + code, [DoneWg]));
    AtInstr(g, [], Base([i] + code, [DoneWg]), i, code);
    var a, b, c := Unwound(e, code, p, r);
    var s := Holding(e, code).(panic := Some(p));
    var end := Goroutine(InRun(e), [], Some(p), Nothing, [DoneWg], multiset{DoneWg});
    StepsOf(g, s, a, b, c, end, r);
    assert Head(end) == None;
  }

  // Five steps, one by one.
  lemma StepsOf(g: Goroutine, s: Goroutine, a: Goroutine, b: Goroutine, c: Goroutine, end: Goroutine, r: Reply)
    requires g.stack != [] && s.stack != [] && a.stack != [] && b.stack != [] && c.stack != []
    requires Exec(g, true, r) == s && Exec(s, true, r) == a && Exec(a, true, r) == b
    requires Exec(b, true, r) == c && Exec(c, true, r) == end
    ensures Steps(g, r, 0) == g && Steps(g, r, 1) == s && Steps(g, r, 2) == a
    ensures Steps(g, r, 3) == b && Steps(g, r, 4) == c && Steps(g, r, 5) == end
  {
    StepFirst(g, s, r, 1);
    StepFirst(g, s, r, 2);
    StepFirst(s, a, r, 1);
    StepFirst(g, s, r, 3);
    StepFirst(s, a, r, 2);
    StepFirst(a, b, r, 1);
    StepFirst(g, s, r, 4);
    StepFirst(s, a, r, 3);
    StepFirst(a, b, r, 2);
    StepFirst(b, c, r, 1);
    StepFirst(g, s, r, 5);
    StepFirst(s, a, r, 4);
    StepFirst(a, b, r, 3);
    StepFirst(b, c, r, 2);
    StepFirst(c, end, r, 1);
  }

  lemma StepFirst(g: Goroutine, g': Goroutine, r: Reply, n: nat)
    requires n > 0 && g.stack != [] && Exec(g, true, r) == g'
    ensures Steps(g, r, n) == Steps(g', r, n - 1)
  {
  }

  // The acquire callback comes before Release is registered: were it not inside
  // safeObserve, its panic would keep the token for good.
  lemma BareCallback(e: EntryId)
    ensures LosesToken(Holding(e, [Tell(Grants), Defer(GiveToken), Defer(CompleteRun), CallFn]), Raise, FromObserver)
  {
    var code := [Defer(GiveToken), Defer(CompleteRun), CallFn];
    var g := Holding(e, [Tell(Grants)] + code);
    Alone(Base([Tell(Grants)] + code, [DoneWg]));
    AtInstr(g, [], Base([Tell(Grants)] + code, [DoneWg]), Tell(Grants), code);
    Alone(Base(code, [DoneWg]));
    FirstPanics(e, Tell(Grants), code, FromObserver, Raise);
    assert [Tell(Grants)] + code == [Tell(Grants), Defer(GiveToken), Defer(CompleteRun), CallFn];
  }

  // Release called after fn instead of deferred: a panic in fn would pass it by.
  lemma PlainRelease(e: EntryId)
    ensures LosesToken(Holding(e, [CallFn, Do(GiveToken)]), Ends(Panicked), FromFn)
  {
    var code := [Do(GiveToken)];
    var g := Holding(e, [CallFn] + code);
    Alone(Base([CallFn] + code, [DoneWg]));
    AtInstr(g, [], Base([CallFn] + code, [DoneWg]), CallFn, code);
    Alone(Base(code, [DoneWg]));
    FirstPanics(e, CallFn, code, FromFn, Ends(Panicked));
    assert [CallFn] + code == [CallFn, Do(GiveToken)];
  }
}
