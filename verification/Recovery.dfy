// Runs with goroutines are runs of the protocol, so everything proved of the protocol
// holds whatever panics; and which observers panic cannot be told from the outside.
module Recovery {
  import opened Basics
  import opened Protocol
  import opened Shape
  import opened Frames
  import opened Positions
  import opened Deliveries
  import opened Unwinding
  import opened Unwound

  // No step, or one.
  ghost predicate MaybeStep(q: State, q': State) { q' == q || Step(q, q') }

  lemma TouchKeeps(s: State, t: CallId, th: Thread, i: Option<Instr>, job: Job, r: Reply, s': State)
    requires Touches(s, t, th, i, job, r, s')
    ensures s'.observed == s.observed && s'.threads == s.threads
  {
  }

  lemma AbsThread(f: Fine, ws: map<CallId, Where>, t: CallId)
    requires Stood(f, ws) && t in ws
    ensures t in f.gs && t in f.s.threads && Abs(f, ws).observed == f.s.observed
    ensures t in Abs(f, ws).threads && Abs(f, ws).threads[t] == f.s.threads[t].(pc := Label(f.gs[t].job, ws[t]))
  {
  }

  // A goroutine that goes on, and one that has come to its end.
  lemma StoodOn(f: Fine, ws: map<CallId, Where>, t: CallId, g: Goroutine, w: Where, f': Fine)
    requires Stood(f, ws) && t in f.gs && f'.gs == f.gs[t := g] && f'.s.threads == f.s.threads
    requires f'.s.observed == f.s.observed && Stands(f'.s.observed, g, w)
    ensures Stood(f', ws[t := w])
  {
  }

  lemma StoodLess(f: Fine, ws: map<CallId, Where>, t: CallId, f': Fine)
    requires Stood(f, ws) && t in f.gs && f'.gs == f.gs - {t}
    requires f'.s.threads.Keys == f.s.threads.Keys && f'.s.observed == f.s.observed
    ensures Stood(f', ws - {t})
  {
  }

  // What call t's step makes of the state, other than moving t.
  function Data(f: Fine, f': Fine): State { f'.s.(threads := f.s.threads) }

  // The protocol's state with t moved to pc, and what goroutines share changed to `data`.
  ghost predicate Shifts(f: Fine, ws: map<CallId, Where>, t: CallId, pc: Pc, f': Fine, ws': map<CallId, Where>) {
    var l, q := Labels(f.gs, ws), Abs(f, ws);
    && t in q.threads && Stood(f', ws')
    && Abs(f', ws') == Relabel(Data(f, f'), l).(threads := q.threads[t := q.threads[t].(pc := pc)])
  }

  lemma ShiftsOn(f: Fine, ws: map<CallId, Where>, t: CallId, g: Goroutine, w: Where, f': Fine)
    requires Stood(f, ws) && t in f.gs && f' == Fine(f'.s.(threads := f.s.threads), f.gs[t := g])
    requires f'.s.observed == f.s.observed && Stands(f.s.observed, g, w)
    ensures Shifts(f, ws, t, Label(g.job, w), f', ws[t := w])
  {
    StoodOn(f, ws, t, g, w, f');
    MovedLabels(f.gs, ws, t, g, w, f.s, Data(f, f'));
  }

  lemma ShiftsOut(f: Fine, ws: map<CallId, Where>, t: CallId, pc: Pc, f': Fine)
    requires Stood(f, ws) && t in f.gs && f'.gs == f.gs - {t} && f'.s.observed == f.s.observed
    requires f'.s.threads == f.s.threads[t := f.s.threads[t].(pc := pc)]
    ensures Shifts(f, ws, t, pc, f', ws - {t})
  {
    StoodLess(f, ws, t, f');
    GoneLabels(f.gs, ws, t, pc, f.s, Data(f, f'));
  }

  // The position after call t's step.
  function Onward(f: Fine, ws: map<CallId, Where>, t: CallId, r: Reply): map<CallId, Where>
    requires t in f.gs && t in ws
  {
    Marks(ws, t, NextWhere(f.s.observed, f.gs[t].job, ws[t], r))
  }

  lemma RunKeeps(f: Fine, t: CallId, at: Spot, r: Reply, f': Fine)
    requires Goes(f, t, r, f') && Stands(f.s.observed, f.gs[t], RunAt(at))
    ensures Data(f, f').observed == f.s.observed && Answers(f.s.observed, at, r)
  {
    RunTouches(f, t, at, r, f');
    TouchKeeps(f.s, t, f.s.threads[t], HeadAt(f.s.observed, at), f.gs[t].job, r, Data(f, f'));
  }

  lemma RunShiftsOn(f: Fine, ws: map<CallId, Where>, t: CallId, at: Spot, r: Reply, f': Fine, next: Spot)
    requires Stood(f, ws) && Goes(f, t, r, f') && t in ws && ws[t] == RunAt(at)
    requires NextSpot(f.s.observed, at, r) == Some(next)
    ensures Shifts(f, ws, t, PcAt(f.gs[t].job.entry, next), f', ws[t := RunAt(next)])
  {
    RunKeeps(f, t, at, r, f');
    RunStands(f.gs[t], f.s.observed, at, r);
    ShiftsOn(f, ws, t, Exec(f.gs[t], f.s.observed, r), RunAt(next), f');
  }

  lemma RunShiftsOut(f: Fine, ws: map<CallId, Where>, t: CallId, at: Spot, r: Reply, f': Fine)
    requires Stood(f, ws) && Goes(f, t, r, f') && t in ws && ws[t] == RunAt(at)
    requires NextSpot(f.s.observed, at, r).None?
    ensures Shifts(f, ws, t, PcAt(f.gs[t].job.entry, at), f', ws - {t})
  {
    RunKeeps(f, t, at, r, f');
    RunEnds(f.gs[t], f.s.observed, at, r);
    ShiftsOut(f, ws, t, Done(at.out), f');
  }

  lemma OnwardRun(f: Fine, ws: map<CallId, Where>, t: CallId, at: Spot, r: Reply)
    requires t in f.gs && t in ws && ws[t] == RunAt(at) && f.gs[t].job.InRun?
    ensures var next := NextSpot(f.s.observed, at, r);
      Onward(f, ws, t, r) == if next.Some? then ws[t := RunAt(next.value)] else ws - {t}
  {
  }

  lemma OnwardTell(f: Fine, ws: map<CallId, Where>, t: CallId, at: Stop, r: Reply)
    requires t in f.gs && t in ws && ws[t] == TellAt(at) && f.gs[t].job.InNotify?
    ensures var next := NextStop(f.gs[t].job.next, at, r);
      Onward(f, ws, t, r) == if next.Some? then ws[t := TellAt(next.value)] else ws - {t}
  {
  }

  lemma RunShifts(f: Fine, ws: map<CallId, Where>, t: CallId, at: Spot, r: Reply, f': Fine)
    requires Stood(f, ws) && Goes(f, t, r, f') && t in ws && ws[t] == RunAt(at)
    ensures var next := NextSpot(f.s.observed, at, r);
      Shifts(f, ws, t, PcAt(f.gs[t].job.entry, if next.Some? then next.value else at), f', Onward(f, ws, t, r))
  {
    var next := NextSpot(f.s.observed, at, r);
    assert f.gs[t].job.InRun?;
    OnwardRun(f, ws, t, at, r);
    if next.Some? {
      RunShiftsOn(f, ws, t, at, r, f', next.value);
    } else {
      RunShiftsOut(f, ws, t, at, r, f');
    }
  }

  lemma RunPoised(f: Fine, ws: map<CallId, Where>, t: CallId, at: Spot, r: Reply, f': Fine, ws': map<CallId, Where>)
    requires Stood(f, ws) && Goes(f, t, r, f') && t in ws && ws[t] == RunAt(at) && Shaped(Abs(f, ws))
    requires var next := NextSpot(f.s.observed, at, r);
      Shifts(f, ws, t, PcAt(f.gs[t].job.entry, if next.Some? then next.value else at), f', ws')
    ensures Poised(Abs(f, ws), t, f.gs[t].job.entry, at, r, Relabel(Data(f, f'), Labels(f.gs, ws)), Abs(f', ws'))
  {
    var g, l := f.gs[t], Labels(f.gs, ws);
    AbsThread(f, ws, t);
    RunTouches(f, t, at, r, f');
    TouchLabels(f.s, l, t, HeadAt(f.s.observed, at), g.job, r, Data(f, f'));
    PcIsRun(f.s.observed, g.job.entry, at);
    RunIsRun(Abs(f, ws), t);
  }

  // A step of a Run's goroutine is the protocol's step for its position.
  lemma RunAdvances(f: Fine, ws: map<CallId, Where>, t: CallId, at: Spot, r: Reply, f': Fine)
    requires Stood(f, ws) && Goes(f, t, r, f') && t in ws && ws[t] == RunAt(at) && Shaped(Abs(f, ws))
    ensures var ws' := Onward(f, ws, t, r); Stood(f', ws') && IsRunStep(Abs(f, ws), t, at, r, Abs(f', ws'))
  {
    var ws' := Onward(f, ws, t, r);
    RunShifts(f, ws, t, at, r, f');
    RunPoised(f, ws, t, at, r, f', ws');
    RunMoves(Abs(f, ws), t, f.gs[t].job.entry, at, r, Relabel(Data(f, f'), Labels(f.gs, ws)), Abs(f', ws'));
  }

  lemma RunGoes(f: Fine, ws: map<CallId, Where>, t: CallId, at: Spot, r: Reply, f': Fine)
    requires Stood(f, ws) && Goes(f, t, r, f') && t in ws && ws[t] == RunAt(at) && Shaped(Abs(f, ws))
    ensures var ws' := Onward(f, ws, t, r); Stood(f', ws') && MaybeStep(Abs(f, ws), Abs(f', ws'))
  {
    RunAdvances(f, ws, t, at, r, f');
    IsStep(Abs(f, ws), t, at, r, Abs(f', Onward(f, ws, t, r)));
  }

  lemma IsStep(q: State, t: CallId, at: Spot, r: Reply, q': State)
    requires IsRunStep(q, t, at, r, q')
    ensures MaybeStep(q, q')
  {
    if RunAction(q.observed, at, r).Some? {
      assert Takes(q, t, Action.Running(RunAction(q.observed, at, r).value), q');
    }
  }

  lemma NextCanStop(next: Next, at: Stop, r: Reply)
    requires CanStop(next, at) && NextStop(next, at, r).Some?
    ensures CanStop(next, NextStop(next, at, r).value) && TellStack(next, NextStop(next, at, r).value) != []
  {
  }

  // Where a delivery stands after its step.
  lemma TellStands(g: Goroutine, observed: bool, at: Stop, r: Reply)
    requires g.stack != [] && Stands(observed, g, TellAt(at)) && NextStop(g.job.next, at, r).Some?
    ensures var g' := Exec(g, observed, r);
      g'.job == g.job && g'.stack != [] && Stands(observed, g', TellAt(NextStop(g.job.next, at, r).value))
  {
    TellExec(g, g.job.next, at, observed, r);
    ExecAccounts(g, observed, r);
    NextCanStop(g.job.next, at, r);
  }

  // And at its end: no panic is left, and every deferred call was made.
  lemma TellEnds(g: Goroutine, observed: bool, at: Stop, r: Reply)
    requires g.stack != [] && Stands(observed, g, TellAt(at)) && NextStop(g.job.next, at, r).None?
    ensures var g' := Exec(g, observed, r);
      && g'.stack == [] && g'.panic == None && multiset(g'.ran) == g'.registered && g'.job == g.job
      && Final(g') == StopPc(g.job.next, at)
  {
    TellExec(g, g.job.next, at, observed, r);
    ExecAccounts(g, observed, r);
  }

  lemma StopTouches(f: Fine, t: CallId, at: Stop, r: Reply, f': Fine)
    requires Goes(f, t, r, f') && Stands(f.s.observed, f.gs[t], TellAt(at))
    ensures Touches(f.s, t, f.s.threads[t], StopHead(at), f.gs[t].job, r, f'.s.(threads := f.s.threads))
  {
    var g := f.gs[t];
    TellExec(g, g.job.next, at, f.s.observed, r);
    if StopHead(at).None? {
      QuietTouches(f.s, t, f.s.threads[t], Head(g), g.job, r, f'.s.(threads := f.s.threads));
    }
  }

  lemma TellKeeps(f: Fine, t: CallId, at: Stop, r: Reply, f': Fine)
    requires Goes(f, t, r, f') && Stands(f.s.observed, f.gs[t], TellAt(at))
    ensures Data(f, f').observed == f.s.observed
  {
    StopTouches(f, t, at, r, f');
    TouchKeeps(f.s, t, f.s.threads[t], StopHead(at), f.gs[t].job, r, Data(f, f'));
  }

  lemma TellShiftsOn(f: Fine, ws: map<CallId, Where>, t: CallId, at: Stop, r: Reply, f': Fine, after: Stop)
    requires Stood(f, ws) && Goes(f, t, r, f') && t in ws && ws[t] == TellAt(at)
    requires NextStop(f.gs[t].job.next, at, r) == Some(after)
    ensures Shifts(f, ws, t, StopPc(f.gs[t].job.next, after), f', ws[t := TellAt(after)])
  {
    TellKeeps(f, t, at, r, f');
    TellStands(f.gs[t], f.s.observed, at, r);
    ShiftsOn(f, ws, t, Exec(f.gs[t], f.s.observed, r), TellAt(after), f');
  }

  lemma TellShiftsOut(f: Fine, ws: map<CallId, Where>, t: CallId, at: Stop, r: Reply, f': Fine)
    requires Stood(f, ws) && Goes(f, t, r, f') && t in ws && ws[t] == TellAt(at)
    requires NextStop(f.gs[t].job.next, at, r).None?
    ensures Shifts(f, ws, t, StopPc(f.gs[t].job.next, at), f', ws - {t})
  {
    TellKeeps(f, t, at, r, f');
    TellEnds(f.gs[t], f.s.observed, at, r);
    ShiftsOut(f, ws, t, StopPc(f.gs[t].job.next, at), f');
  }

  lemma TellShifts(f: Fine, ws: map<CallId, Where>, t: CallId, at: Stop, r: Reply, f': Fine)
    requires Stood(f, ws) && Goes(f, t, r, f') && t in ws && ws[t] == TellAt(at)
    ensures var next := f.gs[t].job.next; var after := NextStop(next, at, r);
      Shifts(f, ws, t, StopPc(next, if after.Some? then after.value else at), f', Onward(f, ws, t, r))
  {
    var after := NextStop(f.gs[t].job.next, at, r);
    OnwardTell(f, ws, t, at, r);
    if after.Some? {
      TellShiftsOn(f, ws, t, at, r, f', after.value);
    } else {
      TellShiftsOut(f, ws, t, at, r, f');
    }
  }

  lemma TellIsPoised(f: Fine, ws: map<CallId, Where>, t: CallId, at: Stop, r: Reply, f': Fine, ws': map<CallId, Where>)
    requires Stood(f, ws) && Goes(f, t, r, f') && t in ws && ws[t] == TellAt(at)
    requires var next := f.gs[t].job.next; var after := NextStop(next, at, r);
      Shifts(f, ws, t, StopPc(next, if after.Some? then after.value else at), f', ws')
    ensures TellPoised(Abs(f, ws), t, f.gs[t].job.next, at, r, Relabel(Data(f, f'), Labels(f.gs, ws)), Abs(f', ws'))
  {
    AbsThread(f, ws, t);
    StopTouches(f, t, at, r, f');
    TouchLabels(f.s, Labels(f.gs, ws), t, StopHead(at), f.gs[t].job, r, Data(f, f'));
  }

  lemma TakesIsStep(q: State, t: CallId, a: Action, q': State)
    requires Takes(q, t, a, q')
    ensures MaybeStep(q, q')
  {
  }

  // A delivery's step as a step of the protocol.
  ghost predicate IsStopStep(q: State, t: CallId, at: Stop, q': State) {
    if StopAction(at).None? then q' == q else Takes(q, t, StopAction(at).value, q')
  }

  lemma TellSteps(q: State, t: CallId, next: Next, at: Stop, r: Reply, data: State, q': State)
    requires Shaped(q) && TellPoised(q, t, next, at, r, data, q')
    ensures IsStopStep(q, t, at, q')
  {
    TellMoves(q, t, next, at, r, data, q');
  }

  lemma TellAdvances(f: Fine, ws: map<CallId, Where>, t: CallId, at: Stop, r: Reply, f': Fine)
    requires Stood(f, ws) && Goes(f, t, r, f') && t in ws && ws[t] == TellAt(at) && Shaped(Abs(f, ws))
    ensures var ws' := Onward(f, ws, t, r); Stood(f', ws') && IsStopStep(Abs(f, ws), t, at, Abs(f', ws'))
  {
    var ws' := Onward(f, ws, t, r);
    TellShifts(f, ws, t, at, r, f');
    TellIsPoised(f, ws, t, at, r, f', ws');
    TellSteps(Abs(f, ws), t, f.gs[t].job.next, at, r, Relabel(Data(f, f'), Labels(f.gs, ws)), Abs(f', ws'));
  }

  lemma TellGoes(f: Fine, ws: map<CallId, Where>, t: CallId, at: Stop, r: Reply, f': Fine)
    requires Stood(f, ws) && Goes(f, t, r, f') && t in ws && ws[t] == TellAt(at) && Shaped(Abs(f, ws))
    ensures var ws' := Onward(f, ws, t, r); Stood(f', ws') && MaybeStep(Abs(f, ws), Abs(f', ws'))
  {
    TellAdvances(f, ws, t, at, r, f');
    if StopAction(at).Some? {
      TakesIsStep(Abs(f, ws), t, StopAction(at).value, Abs(f', Onward(f, ws, t, r)));
    }
  }

  // One step with goroutines is one step of the protocol, or none.
  lemma FineStepRefines(f: Fine, ws: map<CallId, Where>, f': Fine) returns (ws': map<CallId, Where>)
    requires Stood(f, ws) && FineStep(f, f') && Shaped(Abs(f, ws))
    ensures Stood(f', ws') && MaybeStep(Abs(f, ws), Abs(f', ws'))
  {
    if t, a :| Plainly(f, t, a, f') {
      if f'.gs == f.gs {
        PlainKeeps(f, ws, t, a, f');
        ws' := ws;
      } else {
        PlainSpawns(f, ws, t, a, f');
        ws' := ws[t := StartsAt(f'.s.threads[t].pc)];
      }
    } else {
      var t, r :| Goes(f, t, r, f');
      ws' := Onward(f, ws, t, r);
      match ws[t]
      case RunAt(at) => RunGoes(f, ws, t, at, r, f');
      case TellAt(at) => TellGoes(f, ws, t, at, r, f');
    }
  }

  // A goroutine's step leaves every goroutine somewhere.
  lemma Marches(f: Fine, ws: map<CallId, Where>, t: CallId, r: Reply, f': Fine)
    requires Stood(f, ws) && Goes(f, t, r, f')
    ensures t in ws && Stood(f', Onward(f, ws, t, r)) && Replies(f.s.observed, ws[t], r)
    ensures Touches(f.s, t, f.s.threads[t], WhereHead(f.s.observed, ws[t]), f.gs[t].job, r, Data(f, f'))
  {
    match ws[t]
    case RunAt(at) =>
      RunTouches(f, t, at, r, f');
      RunShifts(f, ws, t, at, r, f');
    case TellAt(at) =>
      StopTouches(f, t, at, r, f');
      TellShifts(f, ws, t, at, r, f');
  }

  // The state after a step of call t's goroutine that makes of the rest what `data` says.
  function Marched(f: Fine, t: CallId, r: Reply, data: State): Fine
    requires t in f.gs && f.gs[t].stack != [] && t in f.s.threads
  {
    var g := Exec(f.gs[t], f.s.observed, r);
    if g.stack == [] then Fine(data.(threads := f.s.threads[t := f.s.threads[t].(pc := Final(g))]), f.gs - {t})
    else Fine(data, f.gs[t := g])
  }

  lemma StandsSomewhere(f: Fine, ws: map<CallId, Where>, t: CallId)
    requires Stood(f, ws) && t in f.gs
    ensures t in ws && t in f.s.threads && f.gs[t].stack != []
    ensures if WhereHead(f.s.observed, ws[t]).Some? then Head(f.gs[t]) == WhereHead(f.s.observed, ws[t])
            else Quiet(f.gs[t])
  {
    var g := f.gs[t];
    match ws[t]
    case RunAt(at) =>
      FramesLeft(f.s.observed, at);
      HeadIs(g, f.s.observed, at);
    case TellAt(at) => TellExec(g, g.job.next, at, f.s.observed, Calm);
  }

  // What the position lets the rest of the system do, the goroutine does.
  lemma CanMarch(f: Fine, ws: map<CallId, Where>, t: CallId, r: Reply, data: State)
    requires Stood(f, ws) && t in f.gs && t in ws && t in f.s.threads && f.gs[t].stack != []
    requires Touches(f.s, t, f.s.threads[t], WhereHead(f.s.observed, ws[t]), f.gs[t].job, r, data)
    ensures Goes(f, t, r, Marched(f, t, r, data))
  {
    var f' := Marched(f, t, r, data);
    StandsSomewhere(f, ws, t);
    TouchKeeps(f.s, t, f.s.threads[t], WhereHead(f.s.observed, ws[t]), f.gs[t].job, r, data);
    assert data.(threads := f.s.threads) == data;
    assert Data(f, f') == data;
  }

  // Steps a goroutine has left, at most.
  function SafeLeft(sa: SafeAt): nat {
    match sa
    case SafeCalled => 6
    case SafeArmed => 5
    case SafeTold(_) => 4
    case SafeCatching(_) => 3
    case SafeCaught(_) => 2
    case SafeOver => 1
  }

  function SpotLeft(at: Spot): nat {
    match at
    case AtEntry => 31
    case AtCheck => 30
    case AtSelect => 29
    case Refusing => 11
    case RefusalTold(sa) => 4 + SafeLeft(sa)
    case RefusedBack => 4
    case Granting => 28
    case GrantTold(sa) => 21 + SafeLeft(sa)
    case Arming => 21
    case TokenArmed => 20
    case Calling => 19
    case FnEnded(_) => 18
    case CompleteCalled(_) => 17
    case CompleteRecovered(_) => 16
    case CompleteTold(_, sa) => 9 + SafeLeft(sa)
    case CompleteBack(_) => 9
    case CompleteOver(_) => 8
    case AfterComplete(_) => 7
    case TokenCalled(_) => 6
    case TokenGiven(_) => 5
    case Leaving(_) => 4
    case WgCalled(_) => 3
    case WgGiven(_) => 2
    case RunOver(_) => 1
  }

  function StopLeft(at: Stop): nat {
    match at
    case TellStart(es) => 8 + 7 * |es|
    case TellNext(es) => 7 + 7 * |es|
    case TellIn(_, es, sa) => 7 + 7 * |es| + SafeLeft(sa)
    case UnlockCalled => 6
    case UnlockDone => 5
    case TellLeaving => 4
    case OpeningCalled => 3
    case OpeningDone => 2
    case TellOver => 1
  }

  function Left(w: Where): nat {
    match w
    case RunAt(at) => SpotLeft(at)
    case TellAt(stop) => StopLeft(stop)
  }

  lemma SpotFalls(observed: bool, at: Spot, r: Reply)
    requires Possible(observed, at) && NextSpot(observed, at, r).Some?
    ensures SpotLeft(NextSpot(observed, at, r).value) < SpotLeft(at)
  {
  }

  lemma StopFalls(next: Next, at: Stop, r: Reply)
    requires NextStop(next, at, r).Some?
    ensures StopLeft(NextStop(next, at, r).value) < StopLeft(at)
  {
  }

  // A goroutine's own steps come to an end.
  lemma LeftFalls(g: Goroutine, observed: bool, w: Where, r: Reply)
    requires Stands(observed, g, w) && NextWhere(observed, g.job, w, r).Some?
    ensures Left(NextWhere(observed, g.job, w, r).value) < Left(w)
  {
    match w
    case RunAt(at) => SpotFalls(observed, at, r);
    case TellAt(stop) => StopFalls(g.job.next, stop, r);
  }
}
