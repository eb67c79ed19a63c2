// Where a goroutine can be while it delivers lifecycle callbacks under observerMu.
module Deliveries {
  import opened Basics
  import opened Protocol
  import opened Frames
  import opened Positions

  datatype Stop =
    | TellStart(events: seq<Callback>)
    | TellNext(events: seq<Callback>)
    | TellIn(cb: Callback, events: seq<Callback>, safe: SafeAt)
    | UnlockCalled
    | UnlockDone
    | TellLeaving
    | OpeningCalled
    | OpeningDone
    | TellOver

  function TellStack(next: Next, at: Stop): seq<Frame> {
    match at
    case TellStart(es) => [Base([Defer(UnlockObserver)] + Guards(es), Owed(next))]
    case TellNext(es) => [Base(Guards(es), Owed(next) + [UnlockObserver])]
    case TellIn(cb, es, sa) => [Base(Guards(es), Owed(next) + [UnlockObserver])] + SafeStack(sa, Lifecycle(cb))
    case UnlockCalled => [Base([], Owed(next)), Deferring([Do(UnlockObserver)], None, None)]
    case UnlockDone => [Base([], Owed(next)), Deferring([], None, None)]
    case TellLeaving => [Base([], Owed(next))]
    case OpeningCalled => [Base([], []), Deferring([Do(DoneOpening)], None, None)]
    case OpeningDone => [Base([], []), Deferring([], None, None)]
    case TellOver => [Base([], [])]
  }

  function TellPanic(at: Stop): Option<Panic> { if at.TellIn? then SafePanic(at.safe) else None }

  ghost predicate StopsAt(g: Goroutine, next: Next, at: Stop) {
    g.job == InNotify(next) && g.stack == TellStack(next, at) && g.panic == TellPanic(at)
  }

  predicate CanStop(next: Next, at: Stop) {
    at.OpeningCalled? || at.OpeningDone? || at.TellOver? ==> next.ToFinish?
  }

  function NextStop(next: Next, at: Stop, r: Reply): Option<Stop> {
    match at
    case TellStart(es) => Some(TellNext(es))
    case TellNext(es) => Some(if es == [] then UnlockCalled else TellIn(es[0], es[1..], SafeCalled))
    case TellIn(cb, es, sa) =>
      Some(if NextSafe(sa, r).Some? then TellIn(cb, es, NextSafe(sa, r).value) else TellNext(es))
    case UnlockCalled => Some(UnlockDone)
    case UnlockDone => Some(TellLeaving)
    case TellLeaving => if next.ToFinish? then Some(OpeningCalled) else None
    case OpeningCalled => Some(OpeningDone)
    case OpeningDone => Some(TellOver)
    case TellOver => None
  }

  function StopPc(next: Next, at: Stop): Pc {
    match at
    case TellStart(es) => Notify(es, next)
    case TellNext(es) => Notify(es, next)
    case TellIn(cb, es, sa) => Notify(if Early(sa) then [cb] + es else es, next)
    case UnlockCalled => Notify([], next)
    case UnlockDone => AfterUnlock(next)
    case TellLeaving => AfterUnlock(next)
    case OpeningCalled => Finish
    case OpeningDone => Done(Nothing)
    case TellOver => Done(Nothing)
  }

  function StopHead(at: Stop): Option<Instr> {
    match at
    case TellIn(cb, _, sa) => if sa.SafeArmed? then Some(Tell(Lifecycle(cb))) else None
    case UnlockCalled => Some(Do(UnlockObserver))
    case OpeningCalled => Some(Do(DoneOpening))
    case _ => None
  }

  ghost predicate Reaches(g: Goroutine, g': Goroutine, next: Next, at: Stop, r: Reply) {
    var after := NextStop(next, at, r);
    if after.Some? then StopsAt(g', next, after.value)
    else g'.stack == [] && g'.panic == None && g'.job == g.job
  }

  lemma GuardsFirst(es: seq<Callback>)
    requires es != []
    ensures Guards(es) == [Guarded(Lifecycle(es[0]))] + Guards(es[1..])
  {
  }

  lemma StartExec(g: Goroutine, next: Next, es: seq<Callback>, observed: bool, r: Reply)
    requires StopsAt(g, next, TellStart(es))
    ensures Reaches(g, Exec(g, observed, r), next, TellStart(es), r) && Head(g) == Some(Defer(UnlockObserver))
  {
    var top := Base([Defer(UnlockObserver)] + Guards(es), Owed(next));
    Alone(top);
    ExecDefer(g, [], top, UnlockObserver, Guards(es), observed, r);
    Alone(Base(Guards(es), Owed(next) + [UnlockObserver]));
  }

  lemma NextExec(g: Goroutine, next: Next, es: seq<Callback>, observed: bool, r: Reply)
    requires StopsAt(g, next, TellNext(es))
    ensures Reaches(g, Exec(g, observed, r), next, TellNext(es), r) && Quiet(g)
  {
    var top := Base(Guards(es), Owed(next) + [UnlockObserver]);
    Alone(top);
    if es == [] {
      ExecDeferred(g, [], top, Owed(next), UnlockObserver, observed, r);
      Pair(Base([], Owed(next)), Deferring([Do(UnlockObserver)], None, None));
    } else {
      GuardsFirst(es);
      ExecGuarded(g, [], top, Lifecycle(es[0]), Guards(es[1..]), observed, r);
      Pair(Base(Guards(es[1..]), Owed(next) + [UnlockObserver]), Call(SafeObserve(Lifecycle(es[0]))));
    }
  }

  lemma InExec(g: Goroutine, next: Next, cb: Callback, es: seq<Callback>, sa: SafeAt, observed: bool, r: Reply)
    requires StopsAt(g, next, TellIn(cb, es, sa))
    ensures Reaches(g, Exec(g, observed, r), next, TellIn(cb, es, sa), r)
    ensures if sa.SafeArmed? then Head(g) == Some(Tell(Lifecycle(cb))) else Quiet(g)
  {
    var base := [Base(Guards(es), Owed(next) + [UnlockObserver])];
    SafeExec(g, base, sa, Lifecycle(cb), observed, r);
    if sa.SafeOver? { assert base + [] == base; }
  }

  lemma ActExec(g: Goroutine, next: Next, at: Stop, d: Deferred, observed: bool, r: Reply)
    requires StopsAt(g, next, at)
    requires (at.UnlockCalled? && d.UnlockObserver?) || (at.OpeningCalled? && d.DoneOpening?)
    ensures Reaches(g, Exec(g, observed, r), next, at, r) && Head(g) == Some(Do(d))
  {
    var base := Base([], if d.UnlockObserver? then Owed(next) else []);
    Pair(base, Deferring([Do(d)], None, None));
    ExecAct(g, [base], Deferring([Do(d)], None, None), d, observed, r);
    Pair(base, Deferring([], None, None));
  }

  lemma BackExec(g: Goroutine, next: Next, at: Stop, observed: bool, r: Reply)
    requires StopsAt(g, next, at) && (at.UnlockDone? || at.OpeningDone?)
    ensures Reaches(g, Exec(g, observed, r), next, at, r) && Head(g) == None
  {
    var base := Base([], if at.UnlockDone? then Owed(next) else []);
    Pair(base, Deferring([], None, None));
    ExecLeave(g, [base], Deferring([], None, None), observed, r);
  }

  lemma OweExec(g: Goroutine, next: Next, observed: bool, r: Reply)
    requires StopsAt(g, next, TellLeaving) && next.ToFinish?
    ensures Reaches(g, Exec(g, observed, r), next, TellLeaving, r) && Head(g) == None
  {
    var top := Base([], [DoneOpening]);
    assert g.stack == [top];
    Alone(top);
    assert [] + [DoneOpening] == [DoneOpening];
    ExecDeferred(g, [], top, [], DoneOpening, observed, r);
    Pair(Base([], []), Deferring([Do(DoneOpening)], None, None));
  }

  lemma GoneExec(g: Goroutine, next: Next, at: Stop, observed: bool, r: Reply)
    requires StopsAt(g, next, at) && ((at.TellLeaving? && !next.ToFinish?) || at.TellOver?)
    ensures Reaches(g, Exec(g, observed, r), next, at, r) && Head(g) == None
  {
    assert g.stack == [Base([], [])];
    Alone(Base([], []));
    ExecLeave(g, [], Base([], []), observed, r);
  }

  // Every step of a delivery, whatever the observers do.
  lemma TellExec(g: Goroutine, next: Next, at: Stop, observed: bool, r: Reply)
    requires StopsAt(g, next, at) && CanStop(next, at)
    ensures Reaches(g, Exec(g, observed, r), next, at, r)
    ensures if StopHead(at).Some? then Head(g) == StopHead(at) else Quiet(g)
  {
    match at
    case TellStart(es) => StartExec(g, next, es, observed, r);
    case TellNext(es) => NextExec(g, next, es, observed, r);
    case TellIn(cb, es, sa) => InExec(g, next, cb, es, sa, observed, r);
    case UnlockCalled => ActExec(g, next, at, UnlockObserver, observed, r);
    case UnlockDone => BackExec(g, next, at, observed, r);
    case TellLeaving =>
      if next.ToFinish? { OweExec(g, next, observed, r); } else { GoneExec(g, next, at, observed, r); }
    case OpeningCalled => ActExec(g, next, at, DoneOpening, observed, r);
    case OpeningDone => BackExec(g, next, at, observed, r);
    case TellOver => GoneExec(g, next, at, observed, r);
  }
}
