// Where a goroutine can be while it unwinds: the frames it has there, what it does
// next, and the program counter of the protocol that this amounts to.
module Positions {
  import opened Basics
  import opened Protocol
  import opened Frames

  // Inside safeObserve, around one callback.
  datatype SafeAt =
    | SafeCalled
    | SafeArmed
    | SafeTold(panicked: bool)
    | SafeCatching(panicked: bool)
    | SafeCaught(panicked: bool)
    | SafeOver

  function Raised(panicked: bool): Option<Panic> { if panicked then Some(FromObserver) else None }

  function Deferring(code: seq<Instr>, saved: Option<Panic>, caught: Option<Panic>): Frame {
    Frame(code, [], true, saved, caught)
  }

  function SafeStack(sa: SafeAt, n: Note): seq<Frame> {
    match sa
    case SafeCalled => [Call(SafeObserve(n))]
    case SafeArmed => [Frame([Tell(n)], [Swallow], false, None, None)]
    case SafeTold(_) => [Frame([], [Swallow], false, None, None)]
    case SafeCatching(p) => [Call([]), Deferring([Recover], Raised(p), None)]
    case SafeCaught(p) => [Call([]), Deferring([], None, Raised(p))]
    case SafeOver => [Call([])]
  }

  function SafePanic(sa: SafeAt): Option<Panic> { if sa.SafeTold? then Raised(sa.panicked) else None }

  // None: safeObserve has returned to its caller.
  function NextSafe(sa: SafeAt, r: Reply): Option<SafeAt> {
    match sa
    case SafeCalled => Some(SafeArmed)
    case SafeArmed => Some(SafeTold(r.Raise?))
    case SafeTold(p) => Some(SafeCatching(p))
    case SafeCatching(p) => Some(SafeCaught(p))
    case SafeCaught(_) => Some(SafeOver)
    case SafeOver => None
  }

  // The callback has not been made yet.
  predicate Early(sa: SafeAt) { sa.SafeCalled? || sa.SafeArmed? }

  function SafeFrames(sa: Option<SafeAt>, n: Note): seq<Frame> {
    if sa.None? then [] else SafeStack(sa.value, n)
  }

  lemma Three(base: seq<Frame>, a: Frame, b: Frame)
    ensures base + [a, b] == base + [a] + [b]
  {
  }

  // What a step does inside safeObserve.
  ghost predicate SafeStep(g: Goroutine, g': Goroutine, base: seq<Frame>, sa: SafeAt, n: Note, r: Reply) {
    var next := NextSafe(sa, r);
    && g'.stack == base + SafeFrames(next, n)
    && g'.panic == (if next.None? then None else SafePanic(next.value))
    && g'.err == g.err && g'.job == g.job
    && g'.ran == g.ran + if sa.SafeTold? then [Swallow] else []
  }

  // safeObserve comes back to its caller not panicking, whatever the observer does.
  lemma SafeExec(g: Goroutine, base: seq<Frame>, sa: SafeAt, n: Note, observed: bool, r: Reply)
    requires base != [] && g.stack == base + SafeStack(sa, n) && g.panic == SafePanic(sa)
    ensures SafeStep(g, Exec(g, observed, r), base, sa, n, r)
    ensures Head(g) == if sa.SafeArmed? then Some(Tell(n)) else if sa.SafeCalled? then Some(Defer(Swallow))
                       else if sa.SafeCatching? then Some(Recover) else None
  {
    match sa
    case SafeTold(p) => SafeUnwinds(g, base, p, n, observed, r);
    case SafeCatching(p) => SafeCatches(g, base, p, n, observed, r);
    case SafeCaught(p) => SafeLeaves(g, base, p, n, observed, r);
    case SafeCalled =>
      TopIs(g, base, Call(SafeObserve(n)));
      assert SafeObserve(n)[1..] == [Tell(n)] && [] + [Swallow] == [Swallow];
    case SafeArmed =>
      TopIs(g, base, Frame([Tell(n)], [Swallow], false, None, None));
      assert [Tell(n)][1..] == [];
    case SafeOver =>
      TopIs(g, base, Call([]));
      assert base + [] == base;
  }

  lemma SafeUnwinds(g: Goroutine, base: seq<Frame>, p: bool, n: Note, observed: bool, r: Reply)
    requires g.stack == base + SafeStack(SafeTold(p), n) && g.panic == Raised(p)
    ensures SafeStep(g, Exec(g, observed, r), base, SafeTold(p), n, r) && Head(g) == None
  {
    TopIs(g, base, Frame([], [Swallow], false, None, None));
    assert [Swallow][..0] == [];
  }

  lemma SafeCatches(g: Goroutine, base: seq<Frame>, p: bool, n: Note, observed: bool, r: Reply)
    requires g.stack == base + SafeStack(SafeCatching(p), n) && g.panic == None
    ensures SafeStep(g, Exec(g, observed, r), base, SafeCatching(p), n, r) && Head(g) == Some(Recover)
  {
    Three(base, Call([]), Deferring([Recover], Raised(p), None));
    TopIs(g, base + [Call([])], Deferring([Recover], Raised(p), None));
    assert [Recover][1..] == [];
    Three(base, Call([]), Deferring([], None, Raised(p)));
  }

  lemma SafeLeaves(g: Goroutine, base: seq<Frame>, p: bool, n: Note, observed: bool, r: Reply)
    requires g.stack == base + SafeStack(SafeCaught(p), n) && g.panic == None
    ensures SafeStep(g, Exec(g, observed, r), base, SafeCaught(p), n, r) && Head(g) == None
  {
    Three(base, Call([]), Deferring([], None, Raised(p)));
    TopIs(g, base + [Call([])], Deferring([], None, Raised(p)));
  }

  datatype Spot =
    | AtEntry
    | AtCheck
    | AtSelect
    | Refusing
    | RefusalTold(safe: SafeAt)
    | RefusedBack
    | Granting
    | GrantTold(safe: SafeAt)
    | Arming
    | TokenArmed
    | Calling
    | FnEnded(out: Outcome)
    | CompleteCalled(out: Outcome)
    | CompleteRecovered(out: Outcome)
    | CompleteTold(out: Outcome, safe: SafeAt)
    | CompleteBack(out: Outcome)
    | CompleteOver(out: Outcome)
    | AfterComplete(out: Outcome)
    | TokenCalled(out: Outcome)
    | TokenGiven(out: Outcome)
    | Leaving(out: Outcome)
    | WgCalled(out: Outcome)
    | WgGiven(out: Outcome)
    | RunOver(out: Outcome)

  // The panic a Run's outcome stands for, and the error its named result holds.
  function PanicOf(out: Outcome): Option<Panic> { if out.Panicked? then Some(FromFn) else None }

  function ErrOf(out: Outcome): Outcome { if out.Panicked? then Nothing else out }

  function Base(code: seq<Instr>, defers: seq<Deferred>): Frame { Frame(code, defers, false, None, None) }

  // The deferred calls of runEntry once fn runs.
  function RunDefers(observed: bool): seq<Deferred> {
    if observed then [DoneWg, GiveToken, CompleteRun] else [DoneWg, GiveToken]
  }

  function RunStack(observed: bool, at: Spot): seq<Frame> {
    match at
    case AtEntry => [Call(RUN_ENTRY)]
    case AtCheck => [Base([CheckThrottle], [DoneWg])]
    case AtSelect => [Base([SelectToken], [DoneWg])]
    case Refusing => [Base(RefusedCode(observed), [DoneWg])]
    case RefusalTold(sa) => [Base([], [DoneWg])] + SafeStack(sa, Refusal)
    case RefusedBack => [Base([], [DoneWg])]
    case Granting => [Base(GrantedCode(observed), [DoneWg])]
    case GrantTold(sa) => [Base([Defer(GiveToken), Defer(CompleteRun), CallFn], [DoneWg])] + SafeStack(sa, Grants)
    case Arming => [Base([Defer(GiveToken), Defer(CompleteRun), CallFn], [DoneWg])]
    case TokenArmed => [Base(if observed then [Defer(CompleteRun), CallFn] else [CallFn], [DoneWg, GiveToken])]
    case Calling => [Base([CallFn], RunDefers(observed))]
    case FnEnded(_) => [Base([], RunDefers(observed))]
    case CompleteCalled(out) => [Base([], [DoneWg, GiveToken]), Deferring(Body(CompleteRun), PanicOf(out), None)]
    case CompleteRecovered(out) =>
      [Base([], [DoneWg, GiveToken]), Deferring([Guarded(Completion), Repanic], None, PanicOf(out))]
    case CompleteTold(out, sa) =>
      [Base([], [DoneWg, GiveToken]), Deferring([Repanic], None, PanicOf(out))] + SafeStack(sa, Completed(out))
    case CompleteBack(out) => [Base([], [DoneWg, GiveToken]), Deferring([Repanic], None, PanicOf(out))]
    case CompleteOver(out) => [Base([], [DoneWg, GiveToken]), Deferring([], None, PanicOf(out))]
    case AfterComplete(_) => [Base([], [DoneWg, GiveToken])]
    case TokenCalled(out) => [Base([], [DoneWg]), Deferring([Do(GiveToken)], PanicOf(out), None)]
    case TokenGiven(out) => [Base([], [DoneWg]), Deferring([], PanicOf(out), None)]
    case Leaving(_) => [Base([], [DoneWg])]
    case WgCalled(out) => [Base([], []), Deferring([Do(DoneWg)], PanicOf(out), None)]
    case WgGiven(out) => [Base([], []), Deferring([], PanicOf(out), None)]
    case RunOver(_) => [Base([], [])]
  }

  function RunPanic(at: Spot): Option<Panic> {
    match at
    case RefusalTold(sa) => SafePanic(sa)
    case GrantTold(sa) => SafePanic(sa)
    case CompleteTold(_, sa) => SafePanic(sa)
    case FnEnded(out) => PanicOf(out)
    case CompleteOver(out) => PanicOf(out)
    case AfterComplete(out) => PanicOf(out)
    case Leaving(out) => PanicOf(out)
    case RunOver(out) => PanicOf(out)
    case _ => None
  }

  function RunErr(at: Spot): Outcome {
    match at
    case AtEntry => Nothing
    case AtCheck => Nothing
    case AtSelect => Nothing
    case Refusing => GaveUp
    case RefusalTold(_) => GaveUp
    case RefusedBack => GaveUp
    case Granting => Nothing
    case GrantTold(_) => Nothing
    case Arming => Nothing
    case TokenArmed => Nothing
    case Calling => Nothing
    case _ => ErrOf(at.out)
  }

  // A position that exists with, or without, an observer, and whose outcome can occur there.
  predicate Possible(observed: bool, at: Spot) {
    match at
    case AtEntry => true
    case AtCheck => true
    case AtSelect => true
    case Refusing => true
    case RefusalTold(_) => observed
    case RefusedBack => observed
    case Granting => true
    case GrantTold(_) => observed
    case Arming => observed
    case TokenArmed => true
    case Calling => observed
    case FnEnded(out) => Ending(out)
    case CompleteCalled(out) => observed && Ending(out)
    case CompleteRecovered(out) => observed && Ending(out)
    case CompleteTold(out, _) => observed && Ending(out)
    case CompleteBack(out) => observed && Ending(out)
    case CompleteOver(out) => observed && Ending(out)
    case AfterComplete(out) => observed && Ending(out)
    case TokenCalled(out) => Ending(out)
    case TokenGiven(out) => Ending(out)
    case Leaving(out) => Ending(out)
    case WgCalled(out) => !out.Nothing?
    case WgGiven(out) => !out.Nothing?
    case RunOver(out) => !out.Nothing?
  }

  // How fn can end.
  predicate Ending(out: Outcome) { !out.Nothing? && !out.GaveUp? }

  // Whether the reply is one this position can get.
  predicate Answers(observed: bool, at: Spot, r: Reply) {
    match at
    case AtCheck => r.LetIn? || r.Queue? || r.TurnAway?
    case AtSelect => r.LetIn? || r.TurnAway?
    case Calling => r.Ends? && Ending(r.out)
    case TokenArmed => observed || (r.Ends? && Ending(r.out))
    case _ => true
  }

  // The next position; None: the goroutine has left runEntry.
  function NextSpot(observed: bool, at: Spot, r: Reply): Option<Spot> {
    match at
    case AtEntry => Some(AtCheck)
    case AtCheck => Some(if r.LetIn? then Granting else if r.Queue? then AtSelect else Refusing)
    case AtSelect => Some(if r.LetIn? then Granting else Refusing)
    case Refusing => Some(if observed then RefusalTold(SafeCalled) else WgCalled(GaveUp))
    case RefusalTold(sa) => Some(if NextSafe(sa, r).Some? then RefusalTold(NextSafe(sa, r).value) else RefusedBack)
    case RefusedBack => Some(WgCalled(GaveUp))
    case Granting => Some(if observed then GrantTold(SafeCalled) else TokenArmed)
    case GrantTold(sa) => Some(if NextSafe(sa, r).Some? then GrantTold(NextSafe(sa, r).value) else Arming)
    case Arming => Some(TokenArmed)
    case TokenArmed => Some(if observed then Calling else FnEnded(if r.Ends? then r.out else Panicked))
    case Calling => Some(FnEnded(if r.Ends? then r.out else Panicked))
    case FnEnded(out) => Some(if observed then CompleteCalled(out) else TokenCalled(out))
    case CompleteCalled(out) => Some(CompleteRecovered(out))
    case CompleteRecovered(out) => Some(CompleteTold(out, SafeCalled))
    case CompleteTold(out, sa) =>
      Some(if NextSafe(sa, r).Some? then CompleteTold(out, NextSafe(sa, r).value) else CompleteBack(out))
    case CompleteBack(out) => Some(CompleteOver(out))
    case CompleteOver(out) => Some(AfterComplete(out))
    case AfterComplete(out) => Some(TokenCalled(out))
    case TokenCalled(out) => Some(TokenGiven(out))
    case TokenGiven(out) => Some(Leaving(out))
    case Leaving(out) => Some(WgCalled(out))
    case WgCalled(out) => Some(WgGiven(out))
    case WgGiven(out) => Some(RunOver(out))
    case RunOver(_) => None
  }

  // The program counter a Run has at this position.
  function PcAt(e: EntryId, at: Spot): Pc {
    match at
    case AtEntry => Check(e)
    case AtCheck => Check(e)
    case AtSelect => Select(e)
    case Refusing => Refused(e)
    case RefusalTold(sa) => if Early(sa) then Refused(e) else Release(e, GaveUp)
    case RefusedBack => Release(e, GaveUp)
    case Granting => Granted(e)
    case GrantTold(sa) => if Early(sa) then Granted(e) else InFn(e)
    case Arming => InFn(e)
    case TokenArmed => InFn(e)
    case Calling => InFn(e)
    case FnEnded(out) => Returned(e, out)
    case CompleteCalled(out) => Returned(e, out)
    case CompleteRecovered(out) => Returned(e, out)
    case CompleteTold(out, sa) => if Early(sa) then Returned(e, out) else TokenBack(e, out)
    case CompleteBack(out) => TokenBack(e, out)
    case CompleteOver(out) => TokenBack(e, out)
    case AfterComplete(out) => TokenBack(e, out)
    case TokenCalled(out) => TokenBack(e, out)
    case TokenGiven(out) => Release(e, out)
    case Leaving(out) => Release(e, out)
    case WgCalled(out) => Release(e, out)
    case WgGiven(out) => Done(out)
    case RunOver(out) => Done(out)
  }

  ghost predicate IsAt(g: Goroutine, observed: bool, at: Spot) {
    g.job.InRun? && g.stack == RunStack(observed, at) && g.panic == RunPanic(at) && g.err == RunErr(at)
  }

  // The deferred calls made so far, in the order they were made.
  function SafeRan(sa: SafeAt): seq<Deferred> {
    if sa.SafeCatching? || sa.SafeCaught? || sa.SafeOver? then [Swallow] else []
  }

  function Before(observed: bool): seq<Deferred> { if observed then [Swallow] else [] }

  function Completing(observed: bool): seq<Deferred> {
    if observed then [Swallow, CompleteRun, Swallow] else []
  }

  function RanAt(observed: bool, at: Spot): seq<Deferred> {
    match at
    case RefusalTold(sa) => SafeRan(sa)
    case RefusedBack => [Swallow]
    case GrantTold(sa) => SafeRan(sa)
    case Arming => [Swallow]
    case TokenArmed => Before(observed)
    case Calling => Before(observed)
    case FnEnded(_) => Before(observed)
    case CompleteCalled(_) => [Swallow, CompleteRun]
    case CompleteRecovered(_) => [Swallow, CompleteRun]
    case CompleteTold(_, sa) => [Swallow, CompleteRun] + SafeRan(sa)
    case CompleteBack(_) => Completing(observed)
    case CompleteOver(_) => Completing(observed)
    case AfterComplete(_) => Completing(observed)
    case TokenCalled(_) => Completing(observed) + [GiveToken]
    case TokenGiven(_) => Completing(observed) + [GiveToken]
    case Leaving(_) => Completing(observed) + [GiveToken]
    case WgCalled(out) => AllRan(observed, out)
    case WgGiven(out) => AllRan(observed, out)
    case RunOver(out) => AllRan(observed, out)
    case _ => []
  }

  // All the deferred calls a Run with this outcome makes.
  function AllRan(observed: bool, out: Outcome): seq<Deferred> {
    if out.GaveUp? then Before(observed) + [DoneWg] else Completing(observed) + [GiveToken, DoneWg]
  }

  // The deferred call a step makes, if it makes one.
  function RunsNow(observed: bool, at: Spot): seq<Deferred> {
    match at
    case Refusing => if observed then [] else [DoneWg]
    case RefusalTold(sa) => if sa.SafeTold? then [Swallow] else []
    case RefusedBack => [DoneWg]
    case GrantTold(sa) => if sa.SafeTold? then [Swallow] else []
    case FnEnded(_) => if observed then [CompleteRun] else [GiveToken]
    case CompleteTold(_, sa) => if sa.SafeTold? then [Swallow] else []
    case AfterComplete(_) => [GiveToken]
    case Leaving(_) => [DoneWg]
    case _ => []
  }

  predicate IsTold(at: Spot) { at.RefusalTold? || at.GrantTold? || at.CompleteTold? }

  lemma RanStep(observed: bool, at: Spot, r: Reply)
    requires Possible(observed, at) && Answers(observed, at, r) && NextSpot(observed, at, r).Some?
    ensures RanAt(observed, NextSpot(observed, at, r).value) == RanAt(observed, at) + RunsNow(observed, at)
  {
    if IsTold(at) {
      RanTold(observed, at, r);
    } else {
      RanElse(observed, at, r);
    }
  }

  lemma RanTold(observed: bool, at: Spot, r: Reply)
    requires Possible(observed, at) && IsTold(at)
    ensures RanAt(observed, NextSpot(observed, at, r).value) == RanAt(observed, at) + RunsNow(observed, at)
  {
  }

  // fn has not ended yet.
  predicate BeforeFn(at: Spot) {
    match at
    case AtEntry => true
    case AtCheck => true
    case AtSelect => true
    case Refusing => true
    case RefusedBack => true
    case Granting => true
    case Arming => true
    case TokenArmed => true
    case Calling => true
    case _ => false
  }

  lemma RanElse(observed: bool, at: Spot, r: Reply)
    requires Possible(observed, at) && Answers(observed, at, r) && !IsTold(at) && NextSpot(observed, at, r).Some?
    ensures RanAt(observed, NextSpot(observed, at, r).value) == RanAt(observed, at) + RunsNow(observed, at)
  {
    if BeforeFn(at) {
      RanBefore(observed, at, r);
    } else {
      RanAfter(observed, at, r);
    }
  }

  lemma RanBefore(observed: bool, at: Spot, r: Reply)
    requires Possible(observed, at) && Answers(observed, at, r) && BeforeFn(at)
    ensures RanAt(observed, NextSpot(observed, at, r).value) == RanAt(observed, at) + RunsNow(observed, at)
  {
  }

  lemma RanAfter(observed: bool, at: Spot, r: Reply)
    requires Possible(observed, at) && !IsTold(at) && !BeforeFn(at) && NextSpot(observed, at, r).Some?
    ensures RanAt(observed, NextSpot(observed, at, r).value) == RanAt(observed, at) + RunsNow(observed, at)
  {
  }

  // g' is where position `at` leads to.
  ghost predicate Arrives(g: Goroutine, g': Goroutine, observed: bool, at: Spot, r: Reply) {
    var next := NextSpot(observed, at, r);
    && g'.job == g.job && g'.ran == g.ran + RunsNow(observed, at)
    && if next.Some? then g'.stack == RunStack(observed, next.value) && g'.panic == RunPanic(next.value)
                          && g'.err == RunErr(next.value)
       else g'.stack == [] && g'.panic == RunPanic(at) && g'.err == g.err
  }

  lemma Alone(f: Frame)
    ensures [] + [f] == [f]
  {
  }

  lemma Pair(a: Frame, b: Frame)
    ensures [a] + [b] == [a, b] && [] + [a, b] == [a, b]
  {
  }

  lemma NoneRan(ran: seq<Deferred>)
    ensures ran + [] == ran
  {
  }

  lemma EntryExec(g: Goroutine, observed: bool, r: Reply)
    requires IsAt(g, observed, AtEntry)
    ensures Arrives(g, Exec(g, observed, r), observed, AtEntry, r) && Head(g) == Some(Defer(DoneWg))
  {
    Alone(Call(RUN_ENTRY));
    Alone(Base([CheckThrottle], [DoneWg]));
    NoneRan(g.ran);
    assert RUN_ENTRY == [Defer(DoneWg)] + [CheckThrottle];
    assert [] + [DoneWg] == [DoneWg];
    ExecDefer(g, [], Call(RUN_ENTRY), DoneWg, [CheckThrottle], observed, r);
  }

  lemma CheckExec(g: Goroutine, observed: bool, r: Reply)
    requires IsAt(g, observed, AtCheck) && Answers(observed, AtCheck, r)
    ensures Arrives(g, Exec(g, observed, r), observed, AtCheck, r) && Head(g) == Some(CheckThrottle)
  {
    var top := Base([CheckThrottle], [DoneWg]);
    Alone(top);
    NoneRan(g.ran);
    ExecThrottle(g, [], top, CheckThrottle, observed, r);
    if r.Queue? {
      Alone(Base([SelectToken], [DoneWg]));
    } else {
      AnswerArrives(g, observed, top, r);
    }
  }

  lemma SelectExec(g: Goroutine, observed: bool, r: Reply)
    requires IsAt(g, observed, AtSelect) && Answers(observed, AtSelect, r)
    ensures Arrives(g, Exec(g, observed, r), observed, AtSelect, r) && Head(g) == Some(SelectToken)
  {
    var top := Base([SelectToken], [DoneWg]);
    Alone(top);
    NoneRan(g.ran);
    ExecThrottle(g, [], top, SelectToken, observed, r);
    AnswerArrives(g, observed, top, r);
  }

  lemma AnswerArrives(g: Goroutine, observed: bool, top: Frame, r: Reply)
    requires top == Base(top.code, [DoneWg]) && !r.Queue?
    ensures var g', at := ThrottleSays(g, [], top, observed, r), if r.LetIn? then Granting else Refusing;
      g'.stack == RunStack(observed, at)
  {
    Alone(Base(GrantedCode(observed), [DoneWg]));
    Alone(Base(RefusedCode(observed), [DoneWg]));
  }

  // A deferred call is made from the only frame, into a frame of its own.
  lemma MakeExec(g: Goroutine, observed: bool, at: Spot, next: Spot, code: seq<Instr>, defers: seq<Deferred>,
                 d: Deferred, r: Reply)
    requires IsAt(g, observed, at) && (g.panic.Some? || code == []) && NextSpot(observed, at, r) == Some(next)
    requires g.stack == [Base(code, defers + [d])] && RunsNow(observed, at) == [d]
    requires RunStack(observed, next) == [Base([], defers), Deferring(Body(d), g.panic, None)]
    requires RunPanic(next) == None && RunErr(next) == RunErr(at)
    ensures Arrives(g, Exec(g, observed, r), observed, at, r) && Head(g) == None
  {
    Alone(Base(code, defers + [d]));
    Pair(Base([], defers), Deferring(Body(d), g.panic, None));
    ExecDeferred(g, [], Base(code, defers + [d]), defers, d, observed, r);
  }

  // A frame is left for the one below it.
  lemma LeaveExec(g: Goroutine, observed: bool, at: Spot, next: Spot, below: Frame, top: Frame, r: Reply)
    requires IsAt(g, observed, at) && g.stack == [below, top] && top.defers == [] && (g.panic.Some? || top.code == [])
    requires NextSpot(observed, at, r) == Some(next) && RunStack(observed, next) == [below]
    requires RunsNow(observed, at) == []
    requires RunErr(next) == RunErr(at)
    requires RunPanic(next) == if top.isDeferred && g.panic.None? then top.saved else g.panic
    ensures Arrives(g, Exec(g, observed, r), observed, at, r) && Head(g) == None
  {
    Pair(below, top);
    NoneRan(g.ran);
    ExecLeave(g, [below], top, observed, r);
  }

  // A guarded callback in the only frame.
  lemma AloneGuarded(g: Goroutine, top: Frame, n: Note, code: seq<Instr>, observed: bool, r: Reply)
    requires g.stack == [top] && g.panic.None? && top.code == [Guarded(n)] + code
    ensures Head(g) == Some(Guarded(n))
    ensures Exec(g, observed, r) == g.(stack := [top.(code := code)] + [Call(SafeObserve(Bound(n, top, g.err)))])
  {
    Alone(top);
    ExecGuarded(g, [], top, n, code, observed, r);
    Pair(top.(code := code), Call(SafeObserve(Bound(n, top, g.err))));
  }

  lemma RefusingSeen(g: Goroutine, r: Reply)
    requires IsAt(g, true, Refusing)
    ensures Arrives(g, Exec(g, true, r), true, Refusing, r) && Head(g) == Some(Guarded(Refusal))
  {
    NoneRan(g.ran);
    assert [Guarded(Refusal)] == [Guarded(Refusal)] + [];
    AloneGuarded(g, Base([Guarded(Refusal)], [DoneWg]), Refusal, [], true, r);
  }

  lemma RefusingUnseen(g: Goroutine, r: Reply)
    requires IsAt(g, false, Refusing)
    ensures Arrives(g, Exec(g, false, r), false, Refusing, r) && Head(g) == None
  {
    assert [] + [DoneWg] == [DoneWg];
    MakeExec(g, false, Refusing, WgCalled(GaveUp), [], [], DoneWg, r);
  }

  lemma GrantingSeen(g: Goroutine, r: Reply)
    requires IsAt(g, true, Granting)
    ensures Arrives(g, Exec(g, true, r), true, Granting, r) && Head(g) == Some(Guarded(Grants))
  {
    NoneRan(g.ran);
    var code := [Defer(GiveToken), Defer(CompleteRun), CallFn];
    assert GrantedCode(true) == [Guarded(Grants)] + code;
    AloneGuarded(g, Base([Guarded(Grants)] + code, [DoneWg]), Grants, code, true, r);
  }

  // The step at an instruction of the only frame.
  lemma AloneDefer(g: Goroutine, top: Frame, d: Deferred, code: seq<Instr>, observed: bool, r: Reply)
    requires g.stack == [top] && g.panic.None? && top.code == [Defer(d)] + code
    ensures Head(g) == Some(Defer(d))
    ensures Exec(g, observed, r) ==
      g.(stack := [top.(code := code, defers := top.defers + [d])], registered := g.registered + multiset{d})
  {
    Alone(top);
    Alone(top.(code := code, defers := top.defers + [d]));
    ExecDefer(g, [], top, d, code, observed, r);
  }

  lemma AloneFn(g: Goroutine, top: Frame, observed: bool, r: Reply)
    requires g.stack == [top] && g.panic.None? && top.code == [CallFn] && r.Ends?
    ensures Head(g) == Some(CallFn)
    ensures Exec(g, observed, r) ==
      if r.out.Panicked? then g.(stack := [top.(code := [])], panic := Some(FromFn))
      else g.(stack := [top.(code := [])], err := r.out)
  {
    Alone(top);
    Alone(top.(code := []));
    ExecFn(g, [], top, observed, r);
  }

  lemma GrantingUnseen(g: Goroutine, r: Reply)
    requires IsAt(g, false, Granting)
    ensures Arrives(g, Exec(g, false, r), false, Granting, r) && Head(g) == Some(Defer(GiveToken))
  {
    NoneRan(g.ran);
    assert GrantedCode(false) == [Defer(GiveToken)] + [CallFn];
    assert [DoneWg] + [GiveToken] == [DoneWg, GiveToken];
    AloneDefer(g, Base([Defer(GiveToken)] + [CallFn], [DoneWg]), GiveToken, [CallFn], false, r);
  }

  lemma ArmingExec(g: Goroutine, r: Reply)
    requires IsAt(g, true, Arming)
    ensures Arrives(g, Exec(g, true, r), true, Arming, r) && Head(g) == Some(Defer(GiveToken))
  {
    NoneRan(g.ran);
    assert [Defer(GiveToken), Defer(CompleteRun), CallFn] == [Defer(GiveToken)] + [Defer(CompleteRun), CallFn];
    assert [DoneWg] + [GiveToken] == [DoneWg, GiveToken];
    AloneDefer(g, Base([Defer(GiveToken), Defer(CompleteRun), CallFn], [DoneWg]), GiveToken,
               [Defer(CompleteRun), CallFn], true, r);
  }

  lemma ArmedExec(g: Goroutine, r: Reply)
    requires IsAt(g, true, TokenArmed)
    ensures Arrives(g, Exec(g, true, r), true, TokenArmed, r) && Head(g) == Some(Defer(CompleteRun))
  {
    NoneRan(g.ran);
    assert [Defer(CompleteRun), CallFn] == [Defer(CompleteRun)] + [CallFn];
    assert [DoneWg, GiveToken] + [CompleteRun] == [DoneWg, GiveToken, CompleteRun];
    AloneDefer(g, Base([Defer(CompleteRun), CallFn], [DoneWg, GiveToken]), CompleteRun, [CallFn], true, r);
  }

  lemma FnExec(g: Goroutine, observed: bool, at: Spot, r: Reply)
    requires IsAt(g, observed, at) && r.Ends? && Ending(r.out)
    requires (at.Calling? && observed) || (at.TokenArmed? && !observed)
    ensures Arrives(g, Exec(g, observed, r), observed, at, r) && Head(g) == Some(CallFn)
  {
    NoneRan(g.ran);
    AloneFn(g, Base([CallFn], RunDefers(observed)), observed, r);
  }

  lemma EndedExec(g: Goroutine, observed: bool, out: Outcome, r: Reply)
    requires IsAt(g, observed, FnEnded(out))
    ensures Arrives(g, Exec(g, observed, r), observed, FnEnded(out), r) && Head(g) == None
  {
    if observed {
      assert [DoneWg, GiveToken] + [CompleteRun] == [DoneWg, GiveToken, CompleteRun];
      MakeExec(g, observed, FnEnded(out), CompleteCalled(out), [], [DoneWg, GiveToken], CompleteRun, r);
    } else {
      assert [DoneWg] + [GiveToken] == [DoneWg, GiveToken];
      MakeExec(g, observed, FnEnded(out), TokenCalled(out), [], [DoneWg], GiveToken, r);
    }
  }

  lemma RecoverExec(g: Goroutine, out: Outcome, r: Reply)
    requires IsAt(g, true, CompleteCalled(out))
    ensures Arrives(g, Exec(g, true, r), true, CompleteCalled(out), r) && Head(g) == Some(Recover)
  {
    NoneRan(g.ran);
    var base, top := Base([], [DoneWg, GiveToken]), Deferring(Body(CompleteRun), PanicOf(out), None);
    Pair(base, top);
    assert Body(CompleteRun) == [Recover] + [Guarded(Completion), Repanic];
    ExecRecover(g, [base], top, [Guarded(Completion), Repanic], true, r);
    Pair(base, Deferring([Guarded(Completion), Repanic], None, PanicOf(out)));
  }

  lemma CompletionCalls(g: Goroutine, base: Frame, top: Frame, out: Outcome, r: Reply)
    requires g.stack == [base, top] && g.panic == None && g.err == ErrOf(out)
    requires top == Deferring([Guarded(Completion), Repanic], None, PanicOf(out))
    ensures Head(g) == Some(Guarded(Completion))
    ensures Exec(g, true, r) ==
      g.(stack := [base, Deferring([Repanic], None, PanicOf(out))] + [Call(SafeObserve(Completed(out)))])
  {
    Pair(base, top);
    assert top.code == [Guarded(Completion)] + [Repanic];
    CompletionBound(g.err, out, top);
    ExecGuarded(g, [base], top, Completion, [Repanic], true, r);
    Pairs(base, Deferring([Repanic], None, PanicOf(out)), Call(SafeObserve(Completed(out))));
  }

  lemma CompletionExec(g: Goroutine, out: Outcome, r: Reply)
    requires IsAt(g, true, CompleteRecovered(out))
    ensures Arrives(g, Exec(g, true, r), true, CompleteRecovered(out), r) && Head(g) == Some(Guarded(Completion))
  {
    NoneRan(g.ran);
    var base, top := Base([], [DoneWg, GiveToken]), Deferring([Guarded(Completion), Repanic], None, PanicOf(out));
    CompletionCalls(g, base, top, out, r);
  }

  lemma CompletionBound(err: Outcome, out: Outcome, top: Frame)
    requires err == ErrOf(out) && top.caught == PanicOf(out)
    ensures Bound(Completion, top, err) == Completed(out)
  {
  }

  lemma Pairs(a: Frame, b: Frame, c: Frame)
    ensures [a] + [b, c] == [a, b] + [c]
  {
  }

  lemma RepanicExec(g: Goroutine, out: Outcome, r: Reply)
    requires IsAt(g, true, CompleteBack(out))
    ensures Arrives(g, Exec(g, true, r), true, CompleteBack(out), r) && Head(g) == Some(Repanic)
  {
    NoneRan(g.ran);
    var base, top := Base([], [DoneWg, GiveToken]), Deferring([Repanic], None, PanicOf(out));
    Pair(base, top);
    ExecRepanic(g, [base], top, true, r);
    Pair(base, Deferring([], None, PanicOf(out)));
  }

  // A deferred call's own action.
  lemma DoExec(g: Goroutine, observed: bool, at: Spot, next: Spot, base: Frame, saved: Option<Panic>, d: Deferred,
               r: Reply)
    requires IsAt(g, observed, at) && NextSpot(observed, at, r) == Some(next) && RunsNow(observed, at) == []
    requires g.stack == [base, Deferring([Do(d)], saved, None)] && g.panic == None
    requires RunStack(observed, next) == [base, Deferring([], saved, None)]
    requires RunPanic(next) == None && RunErr(next) == RunErr(at)
    ensures Arrives(g, Exec(g, observed, r), observed, at, r) && Head(g) == Some(Do(d))
  {
    NoneRan(g.ran);
    var top := Deferring([Do(d)], saved, None);
    Pair(base, top);
    ExecAct(g, [base], top, d, observed, r);
    Pair(base, Deferring([], saved, None));
  }

  lemma OverExec(g: Goroutine, observed: bool, out: Outcome, r: Reply)
    requires IsAt(g, observed, RunOver(out))
    ensures Arrives(g, Exec(g, observed, r), observed, RunOver(out), r) && Head(g) == None
  {
    NoneRan(g.ran);
    Alone(Base([], []));
    ExecLeave(g, [], Base([], []), observed, r);
  }

  // The way out, once fn has ended or the Run has given up.
  lemma MakingExec(g: Goroutine, observed: bool, at: Spot, r: Reply)
    requires IsAt(g, observed, at) && (at.RefusedBack? || at.AfterComplete? || at.Leaving?)
    ensures Arrives(g, Exec(g, observed, r), observed, at, r) && Head(g) == None
  {
    assert [DoneWg] + [GiveToken] == [DoneWg, GiveToken];
    assert [] + [DoneWg] == [DoneWg];
    match at
    case RefusedBack => MakeExec(g, observed, at, WgCalled(GaveUp), [], [], DoneWg, r);
    case AfterComplete(out) => MakeExec(g, observed, at, TokenCalled(out), [], [DoneWg], GiveToken, r);
    case Leaving(out) => MakeExec(g, observed, at, WgCalled(out), [], [], DoneWg, r);
  }

  lemma LeavingExec(g: Goroutine, observed: bool, at: Spot, r: Reply)
    requires IsAt(g, observed, at) && (at.CompleteOver? || at.TokenGiven? || at.WgGiven?)
    ensures Arrives(g, Exec(g, observed, r), observed, at, r) && Head(g) == None
  {
    match at
    case CompleteOver(out) =>
      LeaveExec(g, observed, at, AfterComplete(out), Base([], [DoneWg, GiveToken]), Deferring([], None, PanicOf(out)),
                r);
    case TokenGiven(out) =>
      LeaveExec(g, observed, at, Leaving(out), Base([], [DoneWg]), Deferring([], PanicOf(out), None), r);
    case WgGiven(out) =>
      LeaveExec(g, observed, at, RunOver(out), Base([], []), Deferring([], PanicOf(out), None), r);
  }

  lemma DoingExec(g: Goroutine, observed: bool, at: Spot, r: Reply)
    requires IsAt(g, observed, at) && (at.TokenCalled? || at.WgCalled?)
    ensures Arrives(g, Exec(g, observed, r), observed, at, r)
    ensures Head(g) == Some(Do(if at.TokenCalled? then GiveToken else DoneWg))
  {
    match at
    case TokenCalled(out) => DoExec(g, observed, at, TokenGiven(out), Base([], [DoneWg]), PanicOf(out), GiveToken, r);
    case WgCalled(out) => DoExec(g, observed, at, WgGiven(out), Base([], []), PanicOf(out), DoneWg, r);
  }

  // Around a callback.
  lemma ToldExec(g: Goroutine, observed: bool, at: Spot, base: seq<Frame>, sa: SafeAt, n: Note, r: Reply)
    requires IsAt(g, observed, at) && base != []
    requires g.stack == base + SafeStack(sa, n) && g.panic == SafePanic(sa)
    requires RunsNow(observed, at) == if sa.SafeTold? then [Swallow] else []
    requires var next := NextSpot(observed, at, r);
      && next.Some? && RunStack(observed, next.value) == base + SafeFrames(NextSafe(sa, r), n)
      && RunPanic(next.value) == (if NextSafe(sa, r).None? then None else SafePanic(NextSafe(sa, r).value))
      && RunErr(next.value) == RunErr(at)
    ensures Arrives(g, Exec(g, observed, r), observed, at, r)
    ensures Head(g) == if sa.SafeArmed? then Some(Tell(n)) else if sa.SafeCalled? then Some(Defer(Swallow))
                       else if sa.SafeCatching? then Some(Recover) else None
  {
    SafeExec(g, base, sa, n, observed, r);
  }

  lemma RefusalToldExec(g: Goroutine, sa: SafeAt, r: Reply)
    requires IsAt(g, true, RefusalTold(sa))
    ensures Arrives(g, Exec(g, true, r), true, RefusalTold(sa), r)
    ensures sa.SafeArmed? ==> Head(g) == Some(Tell(Refusal))
    ensures !sa.SafeArmed? ==> Quiet(g)
  {
    ToldExec(g, true, RefusalTold(sa), [Base([], [DoneWg])], sa, Refusal, r);
  }

  lemma GrantToldExec(g: Goroutine, sa: SafeAt, r: Reply)
    requires IsAt(g, true, GrantTold(sa))
    ensures Arrives(g, Exec(g, true, r), true, GrantTold(sa), r)
    ensures sa.SafeArmed? ==> Head(g) == Some(Tell(Grants))
    ensures !sa.SafeArmed? ==> Quiet(g)
  {
    ToldExec(g, true, GrantTold(sa), [Base([Defer(GiveToken), Defer(CompleteRun), CallFn], [DoneWg])], sa, Grants, r);
  }

  lemma CompleteToldExec(g: Goroutine, out: Outcome, sa: SafeAt, r: Reply)
    requires IsAt(g, true, CompleteTold(out, sa))
    ensures Arrives(g, Exec(g, true, r), true, CompleteTold(out, sa), r)
    ensures sa.SafeArmed? ==> Head(g) == Some(Tell(Completed(out)))
    ensures !sa.SafeArmed? ==> Quiet(g)
  {
    var base := [Base([], [DoneWg, GiveToken]), Deferring([Repanic], None, PanicOf(out))];
    if sa.SafeOver? {
      assert base + SafeFrames(None, Completed(out)) == base;
    } else {
      assert NextSpot(true, CompleteTold(out, sa), r) == Some(CompleteTold(out, NextSafe(sa, r).value));
    }
    ToldExec(g, true, CompleteTold(out, sa), base, sa, Completed(out), r);
  }

  // The next step touches nothing but the goroutine itself.
  predicate Quiet(g: Goroutine) { QuietInstr(Head(g)) }

  predicate QuietInstr(i: Option<Instr>) {
    match i
    case None => true
    case Some(Defer(_)) => true
    case Some(Guarded(_)) => true
    case Some(Recover) => true
    case Some(Repanic) => true
    case _ => false
  }

  // What the next step asks of the rest of the system, by position.
  function HeadAt(observed: bool, at: Spot): Option<Instr> {
    match at
    case AtCheck => Some(CheckThrottle)
    case AtSelect => Some(SelectToken)
    case RefusalTold(sa) => if sa.SafeArmed? then Some(Tell(Refusal)) else None
    case GrantTold(sa) => if sa.SafeArmed? then Some(Tell(Grants)) else None
    case TokenArmed => if observed then None else Some(CallFn)
    case Calling => Some(CallFn)
    case CompleteTold(out, sa) => if sa.SafeArmed? then Some(Tell(Completed(out))) else None
    case TokenCalled(_) => Some(Do(GiveToken))
    case WgCalled(_) => Some(Do(DoneWg))
    case _ => None
  }

  // Every step from every position, whatever observers and fn do.
  lemma RunExec(g: Goroutine, observed: bool, at: Spot, r: Reply)
    requires IsAt(g, observed, at) && Possible(observed, at) && Answers(observed, at, r)
    ensures Arrives(g, Exec(g, observed, r), observed, at, r)
    ensures if HeadAt(observed, at).Some? then Head(g) == HeadAt(observed, at) else Quiet(g)
  {
    match at
    case AtEntry => EntryExec(g, observed, r);
    case AtCheck => CheckExec(g, observed, r);
    case AtSelect => SelectExec(g, observed, r);
    case Refusing => if observed { RefusingSeen(g, r); } else { RefusingUnseen(g, r); }
    case RefusalTold(sa) => RefusalToldExec(g, sa, r);
    case RefusedBack => MakingExec(g, observed, at, r);
    case Granting => if observed { GrantingSeen(g, r); } else { GrantingUnseen(g, r); }
    case GrantTold(sa) => GrantToldExec(g, sa, r);
    case Arming => ArmingExec(g, r);
    case TokenArmed => if observed { ArmedExec(g, r); } else { FnExec(g, observed, at, r); }
    case Calling => FnExec(g, observed, at, r);
    case FnEnded(out) => EndedExec(g, observed, out, r);
    case CompleteCalled(out) => RecoverExec(g, out, r);
    case CompleteRecovered(out) => CompletionExec(g, out, r);
    case CompleteTold(out, sa) => CompleteToldExec(g, out, sa, r);
    case CompleteBack(out) => RepanicExec(g, out, r);
    case CompleteOver(_) => LeavingExec(g, observed, at, r);
    case AfterComplete(_) => MakingExec(g, observed, at, r);
    case TokenCalled(_) => DoingExec(g, observed, at, r);
    case TokenGiven(_) => LeavingExec(g, observed, at, r);
    case Leaving(_) => MakingExec(g, observed, at, r);
    case WgCalled(_) => DoingExec(g, observed, at, r);
    case WgGiven(_) => LeavingExec(g, observed, at, r);
    case RunOver(out) => OverExec(g, observed, out, r);
  }
}
