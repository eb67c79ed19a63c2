// Every step with goroutines is a step of the protocol or leaves its state alone,
// whichever observers panic; so all that holds of the protocol holds with panics.
module Unwound {
  import opened Basics
  import opened Protocol
  import opened Shape
  import opened Frames
  import opened Positions
  import opened Deliveries
  import opened Unwinding

  lemma RelabelPut(s: State, l: map<CallId, Pc>, t: CallId, th: Thread)
    requires t !in l
    ensures Relabel(s.(threads := s.threads[t := th]), l).threads == Relabel(s, l).threads[t := th]
  {
  }

  lemma RegisterLabels(s: State, l: map<CallId, Pc>, t: CallId, th: Thread, a: RegisterStep, th': Thread, s': State)
    requires StepRegister(s, t, th, a, th', s') && t !in l
    ensures StepRegister(Relabel(s, l), t, th, a, th', Relabel(s', l))
  {
    RelabelPut(s, l, t, th');
  }

  lemma NotifyLabels(s: State, l: map<CallId, Pc>, t: CallId, th: Thread, a: NotifyStep, th': Thread, s': State)
    requires StepNotify(s, t, th, a, th', s') && t !in l
    ensures StepNotify(Relabel(s, l), t, th, a, th', Relabel(s', l))
  {
    RelabelPut(s, l, t, th');
  }

  lemma RemoveLabels(s: State, l: map<CallId, Pc>, t: CallId, th: Thread, a: RemoveStep, th': Thread, s': State)
    requires StepRemove(s, t, th, a, th', s') && t !in l
    ensures StepRemove(Relabel(s, l), t, th, a, th', Relabel(s', l))
  {
    RelabelPut(s, l, t, th');
  }

  lemma RunLabels(s: State, l: map<CallId, Pc>, t: CallId, th: Thread, a: RunStep, th': Thread, s': State)
    requires StepRun(s, t, th, a, th', s') && t !in l
    ensures StepRun(Relabel(s, l), t, th, a, th', Relabel(s', l))
  {
    RelabelPut(s, l, t, th');
  }

  lemma OtherLabels(s: State, l: map<CallId, Pc>, t: CallId, a: OtherStep, th': Thread, s': State)
    requires StepOther(s, t, a, th', s') && t !in l
    ensures StepOther(Relabel(s, l), t, a, th', Relabel(s', l))
  {
    RelabelPut(s, l, t, th');
  }

  lemma CancelLabels(s: State, l: map<CallId, Pc>, t: CallId, s': State)
    requires Takes(s, t, Other(Cancel), s') && t in l
    ensures Takes(Relabel(s, l), t, Other(Cancel), Relabel(s', l))
  {
    var q, q' := Relabel(s, l), Relabel(s', l);
    assert q'.threads == q.threads[t := q.threads[t].(cancelled := true)];
  }

  lemma TakesLabels(s: State, l: map<CallId, Pc>, t: CallId, a: Action, s': State)
    requires Takes(s, t, a, s') && t !in l
    ensures Takes(Relabel(s, l), t, a, Relabel(s', l))
  {
    match a
    case Registering(r) => RegisterLabels(s, l, t, s.threads[t], r, s'.threads[t], s');
    case Notifying(n) => NotifyLabels(s, l, t, s.threads[t], n, s'.threads[t], s');
    case Removing(r) => RemoveLabels(s, l, t, s.threads[t], r, s'.threads[t], s');
    case Running(r) => RunLabels(s, l, t, s.threads[t], r, s'.threads[t], s');
    case Other(o) => OtherLabels(s, l, t, o, s'.threads[t], s');
    case AddDriver(_, _) =>
  }

  lemma AddLabels(s: State, l: map<CallId, Pc>, t: CallId, a: Action, s': State)
    requires Takes(s, t, a, s') && a.AddDriver?
    ensures Takes(Relabel(s, l), t, a, Relabel(s', l))
  {
  }

  // Where a goroutine begins that has just been started.
  function StartsAt(pc: Pc): Where {
    if pc.Notify? then TellAt(TellStart(pc.events)) else RunAt(AtEntry)
  }

  // The goroutine a step begins is where its call is.
  lemma SpawnStands(f: Fine, t: CallId, a: Action, s': State)
    requires t !in f.gs && t in s'.threads && t in Spawned(f.gs, t, a, s')
    ensures var g, pc := Spawned(f.gs, t, a, s')[t], s'.threads[t].pc;
      Stands(s'.observed, g, StartsAt(pc)) && Label(g.job, StartsAt(pc)) == pc
  {
    FreshAccounts(Spawned(f.gs, t, a, s')[t]);
  }

  lemma FreshAccounts(g: Goroutine)
    requires |g.stack| == 1 && g.ran == [] && g.registered == multiset(g.stack[0].defers)
    ensures Accounted(g)
  {
    assert g.stack[..0] == [];
  }

  lemma PlainKeeps(f: Fine, ws: map<CallId, Where>, t: CallId, a: Action, f': Fine)
    requires Stood(f, ws) && Plainly(f, t, a, f') && f'.gs == f.gs
    ensures Stood(f', ws) && Takes(Abs(f, ws), t, a, Abs(f', ws))
  {
    var l := Labels(f.gs, ws);
    TakesKeepsCalls(f.s, t, a, f'.s);
    if a.AddDriver? {
      AddLabels(f.s, l, t, a, f'.s);
    } else if t in f.gs {
      CancelLabels(f.s, l, t, f'.s);
    } else {
      TakesLabels(f.s, l, t, a, f'.s);
    }
  }

  lemma TakesKeepsCalls(s: State, t: CallId, a: Action, s': State)
    requires Takes(s, t, a, s')
    ensures s.threads.Keys <= s'.threads.Keys && s'.observed == s.observed
  {
  }

  lemma PlainSpawns(f: Fine, ws: map<CallId, Where>, t: CallId, a: Action, f': Fine)
    requires Stood(f, ws) && Plainly(f, t, a, f') && f'.gs != f.gs
    ensures t !in f.gs && t in f'.gs && t in f'.s.threads
    ensures var ws' := ws[t := StartsAt(f'.s.threads[t].pc)];
      Stood(f', ws') && Takes(Abs(f, ws), t, a, Abs(f', ws'))
  {
    TakesKeepsCalls(f.s, t, a, f'.s);
    TakesLabels(f.s, Labels(f.gs, ws), t, a, f'.s);
    SpawnStands(f, t, a, f'.s);
    var w := StartsAt(f'.s.threads[t].pc);
    NewLabel(f.gs, ws, t, f'.gs[t], w, f'.s);
    StoodMore(f, ws, t, w, f');
  }

  lemma NewLabel(gs: map<CallId, Goroutine>, ws: map<CallId, Where>, t: CallId, g: Goroutine, w: Where, s': State)
    requires ws.Keys == gs.Keys && t !in gs && t in s'.threads && Label(g.job, w) == s'.threads[t].pc
    ensures Relabel(s', Labels(gs[t := g], ws[t := w])) == Relabel(s', Labels(gs, ws))
  {
    var l := Labels(gs, ws);
    assert Labels(gs[t := g], ws[t := w]) == l[t := s'.threads[t].pc];
    assert Relabel(s', l[t := s'.threads[t].pc]).threads == Relabel(s', l).threads;
  }

  lemma StoodMore(f: Fine, ws: map<CallId, Where>, t: CallId, w: Where, f': Fine)
    requires Stood(f, ws) && t !in f.gs && t in f'.gs && f'.gs == f.gs[t := f'.gs[t]]
    requires f.s.threads.Keys <= f'.s.threads.Keys && t in f'.s.threads && f'.s.observed == f.s.observed
    requires Stands(f'.s.observed, f'.gs[t], w)
    ensures Stood(f', ws[t := w])
  {
  }

  // What one position's step is in the protocol, if it is anything there.
  function RunAction(observed: bool, at: Spot, r: Reply): Option<RunStep> {
    match at
    case AtCheck => Some(CheckContext)
    case AtSelect => Some(if r.LetIn? then Grant else GiveUp)
    case Refusing => if observed then None else Some(ObserveRefused)
    case RefusalTold(sa) => if sa.SafeArmed? then Some(ObserveRefused) else None
    case Granting => if observed then None else Some(ObserveGranted)
    case GrantTold(sa) => if sa.SafeArmed? then Some(ObserveGranted) else None
    case TokenArmed => if observed then None else Some(FnReturns(if r.Ends? then r.out else Panicked))
    case Calling => Some(FnReturns(if r.Ends? then r.out else Panicked))
    case FnEnded(_) => if observed then None else Some(ObserveComplete)
    case CompleteTold(_, sa) => if sa.SafeArmed? then Some(ObserveComplete) else None
    case TokenCalled(_) => Some(ReturnToken)
    case WgCalled(_) => Some(WgDone)
    case _ => None
  }

  // The goroutine moves from one position to the next, and a step of the protocol with it.
  ghost predicate Moved(q: State, t: CallId, e: EntryId, next: Option<Spot>, at: Spot, data: State, q': State) {
    && data.threads == q.threads && t in q.threads
    && q' == data.(threads := q.threads[t := q.threads[t].(pc := PcAt(e, if next.Some? then next.value else at))])
  }

  lemma SilentRun(q: State, t: CallId, e: EntryId, at: Spot, r: Reply)
    requires RunAction(q.observed, at, r).None? && Possible(q.observed, at)
    ensures var next := NextSpot(q.observed, at, r); next.Some? ==> PcAt(e, next.value) == PcAt(e, at)
  {
  }

  // The reply is one the position can get, because the rest of the system gives no other.
  lemma TouchAnswers(q: State, t: CallId, th: Thread, e: EntryId, at: Spot, r: Reply, data: State)
    requires Touches(q, t, th, HeadAt(q.observed, at), InRun(e), r, data)
    ensures Answers(q.observed, at, r)
  {
  }

  // A position's step as a step of the protocol.
  ghost predicate IsRunStep(q: State, t: CallId, at: Spot, r: Reply, q': State) {
    var a := RunAction(q.observed, at, r);
    if a.None? then q' == q
    else t in q.threads && t in q'.threads && StepRun(q, t, q.threads[t], a.value, q'.threads[t], q')
  }

  // What the lemmas about one position start from.
  ghost predicate Poised(q: State, t: CallId, e: EntryId, at: Spot, r: Reply, data: State, q': State) {
    && t in q.threads && IsRun(q.threads[t].op) && q.threads[t].pc == PcAt(e, at) && Possible(q.observed, at)
    && Touches(q, t, q.threads[t], HeadAt(q.observed, at), InRun(e), r, data)
    && Moved(q, t, e, NextSpot(q.observed, at, r), at, data, q')
  }

  lemma SameThread(q: State, t: CallId)
    requires t in q.threads
    ensures q.(threads := q.threads[t := q.threads[t].(pc := q.threads[t].pc)]) == q
  {
    assert q.threads[t := q.threads[t]] == q.threads;
  }

  lemma SilentMoves(q: State, t: CallId, e: EntryId, at: Spot, r: Reply, data: State, q': State)
    requires Poised(q, t, e, at, r, data, q') && RunAction(q.observed, at, r).None?
    ensures q' == q
  {
    SilentRun(q, t, e, at, r);
    SilentHead(q.observed, at, r);
    SameThread(q, t);
  }

  lemma SilentHead(observed: bool, at: Spot, r: Reply)
    requires RunAction(observed, at, r).None?
    ensures HeadAt(observed, at).None?
  {
  }

  lemma ThrottleMoves(q: State, t: CallId, e: EntryId, at: Spot, r: Reply, data: State, q': State)
    requires Poised(q, t, e, at, r, data, q') && (at.AtCheck? || at.AtSelect?)
    ensures IsRunStep(q, t, at, r, q')
  {
  }

  lemma ObserveMoves(q: State, t: CallId, e: EntryId, at: Spot, r: Reply, data: State, q': State)
    requires Poised(q, t, e, at, r, data, q') && IsTold(at) && at.safe.SafeArmed?
    ensures IsRunStep(q, t, at, r, q')
  {
  }

  // Without an observer the moments of the callbacks pass in silence.
  lemma UnseenMoves(q: State, t: CallId, e: EntryId, at: Spot, r: Reply, data: State, q': State)
    requires Poised(q, t, e, at, r, data, q') && !q.observed && (at.Refusing? || at.Granting? || at.FnEnded?)
    ensures IsRunStep(q, t, at, r, q')
  {
  }

  lemma FnMoves(q: State, t: CallId, e: EntryId, at: Spot, r: Reply, data: State, q': State)
    requires Poised(q, t, e, at, r, data, q') && (at.Calling? || (at.TokenArmed? && !q.observed))
    ensures IsRunStep(q, t, at, r, q')
  {
  }

  lemma GiveMoves(q: State, t: CallId, e: EntryId, out: Outcome, r: Reply, data: State, q': State)
    requires Poised(q, t, e, TokenCalled(out), r, data, q')
    ensures IsRunStep(q, t, TokenCalled(out), r, q')
  {
    assert GivesToken(q, e, data);
    assert q'.threads[t] == q.threads[t].(pc := Release(e, out));
  }

  lemma LetGoMoves(q: State, t: CallId, e: EntryId, out: Outcome, r: Reply, data: State, q': State)
    requires Poised(q, t, e, WgCalled(out), r, data, q')
    ensures IsRunStep(q, t, WgCalled(out), r, q')
  {
    assert Acts(q, InRun(e), DoneWg, data);
    assert q'.threads[t] == q.threads[t].(pc := Done(out));
  }

  lemma RunMoves(q: State, t: CallId, e: EntryId, at: Spot, r: Reply, data: State, q': State)
    requires Poised(q, t, e, at, r, data, q')
    ensures IsRunStep(q, t, at, r, q')
  {
    if RunAction(q.observed, at, r).None? {
      SilentMoves(q, t, e, at, r, data, q');
    } else {
      match at
      case AtCheck => ThrottleMoves(q, t, e, at, r, data, q');
      case AtSelect => ThrottleMoves(q, t, e, at, r, data, q');
      case Refusing => UnseenMoves(q, t, e, at, r, data, q');
      case RefusalTold(_) => ObserveMoves(q, t, e, at, r, data, q');
      case Granting => UnseenMoves(q, t, e, at, r, data, q');
      case GrantTold(_) => ObserveMoves(q, t, e, at, r, data, q');
      case TokenArmed => FnMoves(q, t, e, at, r, data, q');
      case Calling => FnMoves(q, t, e, at, r, data, q');
      case FnEnded(_) => UnseenMoves(q, t, e, at, r, data, q');
      case CompleteTold(_, _) => ObserveMoves(q, t, e, at, r, data, q');
      case TokenCalled(out) => GiveMoves(q, t, e, out, r, data, q');
      case WgCalled(out) => LetGoMoves(q, t, e, out, r, data, q');
    }
  }

  function StopAction(at: Stop): Option<Action> {
    match at
    case TellIn(_, _, sa) => if sa.SafeArmed? then Some(Notifying(Deliver)) else None
    case UnlockCalled => Some(Notifying(Unlock))
    case OpeningCalled => Some(Registering(FinishRegister))
    case _ => None
  }

  ghost predicate TellPoised(q: State, t: CallId, next: Next, at: Stop, r: Reply, data: State, q': State) {
    && t in q.threads && q.threads[t].pc == StopPc(next, at) && CanStop(next, at)
    && Touches(q, t, q.threads[t], StopHead(at), InNotify(next), r, data)
    && data.threads == q.threads
    && var after := if NextStop(next, at, r).Some? then NextStop(next, at, r).value else at;
       q' == data.(threads := q.threads[t := q.threads[t].(pc := StopPc(next, after))])
  }

  lemma SilentStop(next: Next, at: Stop, r: Reply)
    requires StopAction(at).None? && CanStop(next, at)
    ensures StopHead(at).None?
    ensures NextStop(next, at, r).Some? ==> StopPc(next, NextStop(next, at, r).value) == StopPc(next, at)
  {
    if at.TellNext? && at.events != [] {
      assert [at.events[0]] + at.events[1..] == at.events;
    }
  }

  lemma SilentTells(q: State, t: CallId, next: Next, at: Stop, r: Reply, data: State, q': State)
    requires TellPoised(q, t, next, at, r, data, q') && StopAction(at).None?
    ensures q' == q
  {
    SilentStop(next, at, r);
    SameThread(q, t);
  }

  lemma DeliverTells(q: State, t: CallId, next: Next, at: Stop, r: Reply, data: State, q': State)
    requires TellPoised(q, t, next, at, r, data, q') && at.TellIn? && at.safe.SafeArmed?
    ensures t in q'.threads && StepNotify(q, t, q.threads[t], Deliver, q'.threads[t], q')
  {
    assert ([at.cb] + at.events)[1..] == at.events;
  }

  lemma UnlockTells(q: State, t: CallId, next: Next, r: Reply, data: State, q': State)
    requires TellPoised(q, t, next, UnlockCalled, r, data, q')
    ensures t in q'.threads && StepNotify(q, t, q.threads[t], Unlock, q'.threads[t], q')
  {
  }

  lemma OpeningTells(q: State, t: CallId, next: Next, r: Reply, data: State, q': State)
    requires TellPoised(q, t, next, OpeningCalled, r, data, q') && q.threads[t].op.Register?
    ensures t in q'.threads && StepRegister(q, t, q.threads[t], FinishRegister, q'.threads[t], q')
  {
  }

  lemma TellMoves(q: State, t: CallId, next: Next, at: Stop, r: Reply, data: State, q': State)
    requires TellPoised(q, t, next, at, r, data, q') && Fits(q.threads[t])
    ensures if StopAction(at).None? then q' == q else Takes(q, t, StopAction(at).value, q')
  {
    match at
    case TellIn(_, _, sa) =>
      if sa.SafeArmed? { DeliverTells(q, t, next, at, r, data, q'); } else { SilentTells(q, t, next, at, r, data, q'); }
    case UnlockCalled => UnlockTells(q, t, next, r, data, q');
    case OpeningCalled => OpeningTells(q, t, next, r, data, q');
    case _ => SilentTells(q, t, next, at, r, data, q');
  }

  // What goroutines share looks the same through labels.
  lemma TouchLabels(s: State, l: map<CallId, Pc>, t: CallId, i: Option<Instr>, job: Job, r: Reply, data: State)
    requires t in s.threads && data.threads == s.threads && Touches(s, t, s.threads[t], i, job, r, data)
    ensures Touches(Relabel(s, l), t, Relabel(s, l).threads[t], i, job, r, Relabel(data, l))
  {
  }

  // A goroutine that has moved on, or has unwound.
  lemma GoneLabels(gs: map<CallId, Goroutine>, ws: map<CallId, Where>, t: CallId, pc: Pc, s: State, data: State)
    requires ws.Keys == gs.Keys && t in gs && t in s.threads && data.threads == s.threads
    ensures var l := Labels(gs, ws);
      Relabel(data.(threads := s.threads[t := s.threads[t].(pc := pc)]), Labels(gs - {t}, ws - {t})) ==
      Relabel(data, l).(threads := Relabel(s, l).threads[t := Relabel(s, l).threads[t].(pc := pc)])
  {
    assert Labels(gs - {t}, ws - {t}) == Labels(gs, ws) - {t};
  }

  lemma MovedLabels(gs: map<CallId, Goroutine>, ws: map<CallId, Where>, t: CallId, g: Goroutine, w: Where,
                    s: State, data: State)
    requires ws.Keys == gs.Keys && t in gs && t in s.threads && data.threads == s.threads
    ensures var l := Labels(gs, ws);
      Relabel(data, Labels(gs[t := g], ws[t := w])) ==
      Relabel(data, l).(threads := Relabel(s, l).threads[t := Relabel(s, l).threads[t].(pc := Label(g.job, w))])
  {
    assert Labels(gs[t := g], ws[t := w]) == Labels(gs, ws)[t := Label(g.job, w)];
  }

  // A reply that the position can get.
  function SomeReply(at: Spot): Reply {
    match at
    case AtCheck => LetIn
    case AtSelect => LetIn
    case TokenArmed => Ends(Value)
    case Calling => Ends(Value)
    case _ => Calm
  }

  lemma HeadIs(g: Goroutine, observed: bool, at: Spot)
    requires IsAt(g, observed, at) && Possible(observed, at)
    ensures if HeadAt(observed, at).Some? then Head(g) == HeadAt(observed, at) else Quiet(g)
  {
    RunExec(g, observed, at, SomeReply(at));
  }

  lemma QuietTouches(s: State, t: CallId, th: Thread, i: Option<Instr>, job: Job, r: Reply, s': State)
    requires Touches(s, t, th, i, job, r, s') && QuietInstr(i)
    ensures Touches(s, t, th, None, job, r, s')
  {
  }

  lemma FramesLeft(observed: bool, at: Spot)
    ensures RunStack(observed, at) != []
  {
  }

  lemma NextPossible(observed: bool, at: Spot, r: Reply)
    requires Possible(observed, at) && Answers(observed, at, r) && NextSpot(observed, at, r).Some?
    ensures Possible(observed, NextSpot(observed, at, r).value)
  {
  }

  // Where a Run's goroutine stands after its step.
  lemma RunStands(g: Goroutine, observed: bool, at: Spot, r: Reply)
    requires g.stack != [] && Stands(observed, g, RunAt(at)) && Answers(observed, at, r)
    requires NextSpot(observed, at, r).Some?
    ensures var g' := Exec(g, observed, r);
      g'.job == g.job && g'.stack != [] && Stands(observed, g', RunAt(NextSpot(observed, at, r).value))
  {
    RunExec(g, observed, at, r);
    ExecAccounts(g, observed, r);
    FramesLeft(observed, NextSpot(observed, at, r).value);
    NextPossible(observed, at, r);
    RanStep(observed, at, r);
  }

  // And when it has unwound: every deferred call was made, in order, and a panic goes
  // on to the caller exactly when fn panicked.
  ghost predicate Unwinds(g: Goroutine, observed: bool, out: Outcome) {
    && g.stack == [] && Accounted(g) && multiset(g.ran) == g.registered
    && g.ran == AllRan(observed, out) && g.panic == PanicOf(out) && g.err == ErrOf(out)
  }

  lemma RunEnds(g: Goroutine, observed: bool, at: Spot, r: Reply)
    requires g.stack != [] && Stands(observed, g, RunAt(at)) && NextSpot(observed, at, r).None?
    ensures at.RunOver? && Exec(g, observed, r).job == g.job
    ensures Unwinds(Exec(g, observed, r), observed, at.out) && Final(Exec(g, observed, r)) == Done(at.out)
  {
    LastIsOver(observed, at, r);
    OverEnds(g, observed, at.out, r);
  }

  lemma LastIsOver(observed: bool, at: Spot, r: Reply)
    requires NextSpot(observed, at, r).None?
    ensures at.RunOver?
  {
  }

  lemma OverLeaves(g: Goroutine, observed: bool, out: Outcome, r: Reply)
    requires IsAt(g, observed, RunOver(out))
    ensures Exec(g, observed, r) == g.(stack := []) && g.stack == [Base([], [])]
    ensures g.panic == PanicOf(out) && g.err == ErrOf(out) && g.job.InRun?
  {
    Alone(Base([], []));
    ExecLeave(g, [], Base([], []), observed, r);
  }

  lemma OverEnds(g: Goroutine, observed: bool, out: Outcome, r: Reply)
    requires g.stack != [] && Accounted(g) && IsAt(g, observed, RunOver(out)) && g.ran == AllRan(observed, out)
    ensures var g' := Exec(g, observed, r);
      g'.job == g.job && Unwinds(g', observed, out) && (!out.Nothing? ==> Final(g') == Done(out))
  {
    OverLeaves(g, observed, out, r);
    PendingPut([], Base([], []));
    Alone(Base([], []));
  }

  // What the step shares, read off the position instead of the frames.
  lemma RunTouches(f: Fine, t: CallId, at: Spot, r: Reply, f': Fine)
    requires Goes(f, t, r, f') && Stands(f.s.observed, f.gs[t], RunAt(at))
    ensures Touches(f.s, t, f.s.threads[t], HeadAt(f.s.observed, at), f.gs[t].job, r, f'.s.(threads := f.s.threads))
    ensures Answers(f.s.observed, at, r)
  {
    var g := f.gs[t];
    var data := f'.s.(threads := f.s.threads);
    HeadIs(g, f.s.observed, at);
    if HeadAt(f.s.observed, at).None? {
      QuietTouches(f.s, t, f.s.threads[t], Head(g), g.job, r, data);
    }
    TouchAnswers(f.s, t, f.s.threads[t], g.job.entry, at, r, data);
  }

  // The program counters of an admitted Run, its return with an outcome among them.
  predicate RunPc(pc: Pc) {
    match pc
    case Check(_) => true
    case Select(_) => true
    case Refused(_) => true
    case Granted(_) => true
    case InFn(_) => true
    case Returned(_, _) => true
    case TokenBack(_, _) => true
    case Release(_, _) => true
    case Done(out) => !out.Nothing?
    case _ => false
  }

  lemma PcIsRun(observed: bool, e: EntryId, at: Spot)
    requires Possible(observed, at)
    ensures RunPc(PcAt(e, at))
  {
  }

  lemma RunIsRun(q: State, t: CallId)
    requires Shaped(q) && t in q.threads && RunPc(q.threads[t].pc)
    ensures IsRun(q.threads[t].op)
  {
    assert Fits(q.threads[t]);
  }
}
