// Every run of the protocol is carried out by goroutines, whichever observers are to
// panic; so a run without an observer has one with any observers and any panics.
module Execution {
  import opened Basics
  import opened Protocol
  import opened Counting
  import opened Transparency
  import opened Frames
  import opened Positions
  import opened Deliveries
  import opened Unwinding
  import opened Unwound
  import opened Recovery
  import opened Patterns

  // Seen through labels, the steps of other calls are the same both ways.
  lemma RelabelBack(s: State, l: map<CallId, Pc>, t: CallId, q': State)
    requires t !in l && t in q'.threads && q'.threads == Relabel(s, l).threads[t := q'.threads[t]]
    ensures Relabel(Unlabelled(s, t, q'), l) == q'
  {
    RelabelPut(s, l, t, q'.threads[t]);
  }

  // q' with the program counters the calls have in s, but for t.
  function Unlabelled(s: State, t: CallId, q': State): State
    requires t in q'.threads
  {
    q'.(threads := s.threads[t := q'.threads[t]])
  }

  lemma RegisterUnlabelled(s: State, l: map<CallId, Pc>, t: CallId, th: Thread, a: RegisterStep, th': Thread, q': State)
    requires StepRegister(Relabel(s, l), t, th, a, th', q') && t !in l
    ensures t in q'.threads && q'.threads == Relabel(s, l).threads[t := th']
    ensures StepRegister(s, t, th, a, th', Unlabelled(s, t, q'))
  {
  }

  lemma NotifyUnlabelled(s: State, l: map<CallId, Pc>, t: CallId, th: Thread, a: NotifyStep, th': Thread, q': State)
    requires StepNotify(Relabel(s, l), t, th, a, th', q') && t !in l
    ensures t in q'.threads && q'.threads == Relabel(s, l).threads[t := th']
    ensures StepNotify(s, t, th, a, th', Unlabelled(s, t, q'))
  {
  }

  lemma RemoveUnlabelled(s: State, l: map<CallId, Pc>, t: CallId, th: Thread, a: RemoveStep, th': Thread, q': State)
    requires StepRemove(Relabel(s, l), t, th, a, th', q') && t !in l
    ensures t in q'.threads && q'.threads == Relabel(s, l).threads[t := th']
    ensures StepRemove(s, t, th, a, th', Unlabelled(s, t, q'))
  {
  }

  lemma RunUnlabelled(s: State, l: map<CallId, Pc>, t: CallId, th: Thread, a: RunStep, th': Thread, q': State)
    requires StepRun(Relabel(s, l), t, th, a, th', q') && t !in l
    ensures t in q'.threads && q'.threads == Relabel(s, l).threads[t := th']
    ensures StepRun(s, t, th, a, th', Unlabelled(s, t, q'))
  {
  }

  lemma OtherUnlabelled(s: State, l: map<CallId, Pc>, t: CallId, a: OtherStep, th': Thread, q': State)
    requires StepOther(Relabel(s, l), t, a, th', q') && t !in l
    ensures t in q'.threads && q'.threads == Relabel(s, l).threads[t := th']
    ensures StepOther(s, t, a, th', Unlabelled(s, t, q'))
  {
  }

  lemma TakesUnlabelled(s: State, l: map<CallId, Pc>, t: CallId, a: Action, q': State)
    requires Takes(Relabel(s, l), t, a, q') && !a.AddDriver? && t !in l
    ensures t in q'.threads && q'.threads == Relabel(s, l).threads[t := q'.threads[t]]
    ensures Takes(s, t, a, Unlabelled(s, t, q'))
  {
    var q := Relabel(s, l);
    match a
    case Registering(x) => RegisterUnlabelled(s, l, t, q.threads[t], x, q'.threads[t], q');
    case Notifying(x) => NotifyUnlabelled(s, l, t, q.threads[t], x, q'.threads[t], q');
    case Removing(x) => RemoveUnlabelled(s, l, t, q.threads[t], x, q'.threads[t], q');
    case Running(x) => RunUnlabelled(s, l, t, q.threads[t], x, q'.threads[t], q');
    case Other(x) => OtherUnlabelled(s, l, t, x, q'.threads[t], q');
  }

  // A step that needs no goroutine, as a step of the finer machine.
  lemma PlainBack(s: State, l: map<CallId, Pc>, t: CallId, a: Action, q': State) returns (s': State)
    requires Takes(Relabel(s, l), t, a, q') && (t !in l || a.AddDriver? || a == Other(Cancel))
    ensures Takes(s, t, a, s') && Relabel(s', l) == q'
  {
    if a.AddDriver? {
      s' := q'.(threads := s.threads);
    } else if t !in l {
      TakesUnlabelled(s, l, t, a, q');
      s' := Unlabelled(s, t, q');
      RelabelBack(s, l, t, q');
    } else {
      s' := s.(threads := s.threads[t := s.threads[t].(cancelled := true)]);
      assert Relabel(s', l).threads == Relabel(s, l).threads[t := Relabel(s, l).threads[t].(cancelled := true)];
    }
  }

  // The goroutine's next step is one of the protocol's.
  predicate Loud(observed: bool, w: Where) {
    match w
    case RunAt(at) => RunAction(observed, at, Calm).Some?
    case TellAt(stop) => StopAction(stop).Some?
  }

  // What the rest of the system does when the protocol goes from q to q' at this position.
  ghost predicate Matches(q: State, t: CallId, e: EntryId, at: Spot, r: Reply, q': State) {
    t in q.threads &&
    var next := NextSpot(q.observed, at, r);
    && Touches(q, t, q.threads[t], HeadAt(q.observed, at), InRun(e), r, q'.(threads := q.threads))
    && q'.threads == q.threads[t := q.threads[t].(pc := PcAt(e, if next.Some? then next.value else at))]
  }

  // Call t is at this position, and takes a step of its Run.
  ghost predicate RunsFrom(q: State, t: CallId, e: EntryId, at: Spot, a: RunStep, q': State) {
    && t in q.threads && q.threads[t].pc == PcAt(e, at) && Possible(q.observed, at)
    && t in q'.threads && StepRun(q, t, q.threads[t], a, q'.threads[t], q')
  }

  lemma CheckBack(q: State, t: CallId, e: EntryId, a: RunStep, q': State) returns (r: Reply)
    requires RunsFrom(q, t, e, AtCheck, a, q')
    ensures Matches(q, t, e, AtCheck, r, q')
  {
    r := if q.threads[t].cancelled then TurnAway else if q.heap[e].limit <= 0 then LetIn else Queue;
  }

  lemma SelectBack(q: State, t: CallId, e: EntryId, a: RunStep, q': State) returns (r: Reply)
    requires RunsFrom(q, t, e, AtSelect, a, q')
    ensures Matches(q, t, e, AtSelect, r, q')
  {
    r := if a.Grant? then LetIn else TurnAway;
  }

  lemma ObserveBack(q: State, t: CallId, e: EntryId, at: Spot, a: RunStep, q': State, r: Reply)
    requires RunsFrom(q, t, e, at, a, q') && IsTold(at) && at.safe.SafeArmed? && (r.Calm? || r.Raise?)
    ensures Matches(q, t, e, at, r, q')
  {
  }

  lemma UnseenBack(q: State, t: CallId, e: EntryId, at: Spot, a: RunStep, q': State)
    requires RunsFrom(q, t, e, at, a, q') && !q.observed && (at.Refusing? || at.Granting? || at.FnEnded?)
    ensures Matches(q, t, e, at, Calm, q')
  {
  }

  lemma FnBack(q: State, t: CallId, e: EntryId, at: Spot, a: RunStep, q': State) returns (r: Reply)
    requires RunsFrom(q, t, e, at, a, q') && (at.Calling? || (at.TokenArmed? && !q.observed))
    ensures Matches(q, t, e, at, r, q')
  {
    r := Ends(a.out);
  }

  lemma GiveBack(q: State, t: CallId, e: EntryId, out: Outcome, a: RunStep, q': State)
    requires RunsFrom(q, t, e, TokenCalled(out), a, q')
    ensures Matches(q, t, e, TokenCalled(out), Calm, q')
  {
    GivesBack(q, t, e, q.threads[t], a, q'.threads[t], q');
    GiveMatches(q, t, e, out, q');
  }

  lemma GiveMatches(q: State, t: CallId, e: EntryId, out: Outcome, q': State)
    requires t in q.threads && q.threads[t].pc == TokenBack(e, out)
    requires GivesToken(q, e, q'.(threads := q.threads))
    requires q'.threads == q.threads[t := q.threads[t].(pc := Release(e, out))]
    ensures Matches(q, t, e, TokenCalled(out), Calm, q')
  {
    assert NextSpot(q.observed, TokenCalled(out), Calm) == Some(TokenGiven(out));
    assert HeadAt(q.observed, TokenCalled(out)) == Some(Do(GiveToken));
    assert Acts(q, InRun(e), GiveToken, q'.(threads := q.threads));
  }

  lemma GivesBack(q: State, t: CallId, e: EntryId, th: Thread, a: RunStep, th': Thread, q': State)
    requires StepRun(q, t, th, a, th', q') && th.pc.TokenBack? && th.pc.entry == e
    ensures GivesToken(q, e, q'.(threads := q.threads)) && q'.threads == q.threads[t := th']
    ensures th' == th.(pc := Release(e, th.pc.out))
  {
  }

  lemma DoneBack(q: State, t: CallId, e: EntryId, out: Outcome, a: RunStep, q': State)
    requires RunsFrom(q, t, e, WgCalled(out), a, q')
    ensures Matches(q, t, e, WgCalled(out), Calm, q')
  {
    LetsGo(q, t, e, q.threads[t], a, q'.threads[t], q');
    DoneMatches(q, t, e, out, q');
  }

  lemma DoneMatches(q: State, t: CallId, e: EntryId, out: Outcome, q': State)
    requires t in q.threads && q.threads[t].pc == Release(e, out)
    requires Acts(q, InRun(e), DoneWg, q'.(threads := q.threads))
    requires q'.threads == q.threads[t := q.threads[t].(pc := Done(out))]
    ensures Matches(q, t, e, WgCalled(out), Calm, q')
  {
    assert NextSpot(q.observed, WgCalled(out), Calm) == Some(WgGiven(out));
    assert HeadAt(q.observed, WgCalled(out)) == Some(Do(DoneWg));
  }

  lemma LetsGo(q: State, t: CallId, e: EntryId, th: Thread, a: RunStep, th': Thread, q': State)
    requires StepRun(q, t, th, a, th', q') && th.pc.Release? && th.pc.entry == e
    ensures Acts(q, InRun(e), DoneWg, q'.(threads := q.threads)) && q'.threads == q.threads[t := th']
    ensures th' == th.(pc := Done(th.pc.out))
  {
  }

  lemma RunBack(q: State, t: CallId, e: EntryId, at: Spot, a: RunStep, q': State, raise: bool) returns (r: Reply)
    requires RunsFrom(q, t, e, at, a, q') && Loud(q.observed, RunAt(at))
    ensures Matches(q, t, e, at, r, q') && r == Instead(HeadAt(q.observed, at), r, raise)
  {
    r := Instead(HeadAt(q.observed, at), Calm, raise);
    match at {
      case AtCheck => r := CheckBack(q, t, e, a, q');
      case AtSelect => r := SelectBack(q, t, e, a, q');
      case RefusalTold(_) => ObserveBack(q, t, e, at, a, q', r);
      case GrantTold(_) => ObserveBack(q, t, e, at, a, q', r);
      case CompleteTold(_, _) => ObserveBack(q, t, e, at, a, q', r);
      case TokenArmed => r := FnBack(q, t, e, at, a, q');
      case Calling => r := FnBack(q, t, e, at, a, q');
      case TokenCalled(out) => GiveBack(q, t, e, out, a, q');
      case WgCalled(out) => DoneBack(q, t, e, out, a, q');
      case _ => UnseenBack(q, t, e, at, a, q');
    }
  }

  // The same for a delivery.
  ghost predicate StopMatches(q: State, t: CallId, todo: Next, at: Stop, r: Reply, q': State) {
    t in q.threads &&
    var next := NextStop(todo, at, r);
    && Touches(q, t, q.threads[t], StopHead(at), InNotify(todo), r, q'.(threads := q.threads))
    && q'.threads == q.threads[t := q.threads[t].(pc := StopPc(todo, if next.Some? then next.value else at))]
  }

  lemma DeliverBack(q: State, t: CallId, todo: Next, at: Stop, q': State, r: Reply)
    requires t in q.threads && q.threads[t].pc == StopPc(todo, at) && at.TellIn? && at.safe.SafeArmed?
    requires t in q'.threads && StepNotify(q, t, q.threads[t], Deliver, q'.threads[t], q') && (r.Calm? || r.Raise?)
    ensures StopMatches(q, t, todo, at, r, q')
  {
    assert ([at.cb] + at.events)[1..] == at.events;
  }

  lemma UnlockBack(q: State, t: CallId, todo: Next, q': State, r: Reply)
    requires t in q.threads && q.threads[t].pc == StopPc(todo, UnlockCalled)
    requires t in q'.threads && StepNotify(q, t, q.threads[t], Unlock, q'.threads[t], q')
    ensures StopMatches(q, t, todo, UnlockCalled, r, q')
  {
  }

  lemma FinishBack(q: State, t: CallId, todo: Next, q': State, r: Reply)
    requires t in q.threads && q.threads[t].pc == StopPc(todo, OpeningCalled)
    requires t in q'.threads && StepRegister(q, t, q.threads[t], FinishRegister, q'.threads[t], q')
    ensures StopMatches(q, t, todo, OpeningCalled, r, q')
  {
  }

  // Only what its position calls for moves a call that delivers callbacks.
  lemma OnlyTells(q: State, t: CallId, todo: Next, at: Stop, a: Action, q': State)
    requires t in q.threads && q.threads[t].pc == StopPc(todo, at) && StopAction(at).Some?
    requires Takes(q, t, a, q') && !a.AddDriver? && a != Other(Cancel)
    ensures a == StopAction(at).value
  {
  }

  lemma TellBack(q: State, t: CallId, todo: Next, at: Stop, a: Action, q': State, raise: bool) returns (r: Reply)
    requires t in q.threads && q.threads[t].pc == StopPc(todo, at) && Loud(q.observed, TellAt(at))
    requires Takes(q, t, a, q') && !a.AddDriver? && a != Other(Cancel)
    ensures StopMatches(q, t, todo, at, r, q') && r == Instead(StopHead(at), r, raise)
  {
    r := if raise then Raise else Calm;
    OnlyTells(q, t, todo, at, a, q');
    match at {
      case TellIn(_, _, _) => DeliverBack(q, t, todo, at, q', r);
      case UnlockCalled => UnlockBack(q, t, todo, q', r);
      case OpeningCalled => FinishBack(q, t, todo, q', r);
    }
  }

  // Only its Run's own steps move a call that is at a position where it acts.
  lemma OnlyRuns(q: State, t: CallId, e: EntryId, at: Spot, a: Action, q': State)
    requires t in q.threads && q.threads[t].pc == PcAt(e, at) && Loud(q.observed, RunAt(at)) && Possible(q.observed, at)
    requires Takes(q, t, a, q') && !a.AddDriver? && a != Other(Cancel)
    ensures a.Running?
  {
    LoudPc(q.observed, e, at);
  }

  lemma LoudPc(observed: bool, e: EntryId, at: Spot)
    requires Loud(observed, RunAt(at)) && Possible(observed, at)
    ensures Used(PcAt(e, at)).Some?
  {
  }

  lemma TouchUnlabelled(s: State, l: map<CallId, Pc>, t: CallId, i: Option<Instr>, job: Job, r: Reply, d: State)
    requires t in s.threads && d.threads == Relabel(s, l).threads
    requires Touches(Relabel(s, l), t, Relabel(s, l).threads[t], i, job, r, d)
    ensures Touches(s, t, s.threads[t], i, job, r, d.(threads := s.threads))
    ensures Relabel(d.(threads := s.threads), l) == d
  {
  }

  // A step at a position where nothing happens in the protocol.
  lemma SilentShift(f: Fine, ws: map<CallId, Where>, t: CallId, pc: Pc, f': Fine, ws': map<CallId, Where>)
    requires Stood(f, ws) && Shifts(f, ws, t, pc, f', ws') && Data(f, f') == f.s
    requires Abs(f, ws).threads[t].pc == pc
    ensures Abs(f', ws') == Abs(f, ws)
  {
    SameThread(Abs(f, ws), t);
  }

  lemma SilentGoes(f: Fine, ws: map<CallId, Where>, t: CallId, f': Fine)
    requires Stood(f, ws) && t in ws && !Loud(f.s.observed, ws[t]) && Goes(f, t, Calm, f') && Data(f, f') == f.s
    ensures Abs(f', Onward(f, ws, t, Calm)) == Abs(f, ws)
  {
    AbsThread(f, ws, t);
    var g, ws' := f.gs[t], Onward(f, ws, t, Calm);
    match ws[t]
    case RunAt(at) =>
      RunShifts(f, ws, t, at, Calm, f');
      SilentRun(f.s, t, g.job.entry, at, Calm);
      SilentShift(f, ws, t, PcAt(g.job.entry, at), f', ws');
    case TellAt(at) =>
      TellShifts(f, ws, t, at, Calm, f');
      SilentStop(g.job.next, at, Calm);
      SilentShift(f, ws, t, StopPc(g.job.next, at), f', ws');
  }

  lemma SilentWhere(g: Goroutine, observed: bool, w: Where)
    requires Stands(observed, g, w) && !Loud(observed, w)
    ensures WhereHead(observed, w) == None
  {
    match w
    case RunAt(at) => SilentHead(observed, at, Calm);
    case TellAt(at) => SilentStop(g.job.next, at, Calm);
  }

  lemma Quieter(f: Fine, ws: map<CallId, Where>, t: CallId, raise: bool) returns (f': Fine, ws': map<CallId, Where>)
    requires Stood(f, ws) && t in ws && !Loud(f.s.observed, ws[t])
    ensures FineStep(f, f') && Obeys(f, f', raise) && Stood(f', ws') && Abs(f', ws') == Abs(f, ws)
    ensures t in ws' ==> Left(ws'[t]) < Left(ws[t])
  {
    StandsSomewhere(f, ws, t);
    SilentWhere(f.gs[t], f.s.observed, ws[t]);
    CanMarch(f, ws, t, Calm, f.s);
    f', ws' := Marched(f, t, Calm, f.s), Onward(f, ws, t, Calm);
    Marches(f, ws, t, Calm, f');
    assert Data(f, f') == f.s;
    SilentGoes(f, ws, t, f');
    GoesObeys(f, ws, t, Calm, f.s, raise);
    if t in ws' {
      LeftFalls(f.gs[t], f.s.observed, ws[t], Calm);
    }
  }

  // A run with goroutines that obeys the pattern and has come to this state of the protocol.
  ghost predicate Carries(fr: seq<Fine>, ws: map<CallId, Where>, raises: nat -> bool, q: State) {
    FineRun(fr) && Pattern(fr, raises) && Stood(fr[|fr| - 1], ws) && Abs(fr[|fr| - 1], ws) == q
  }

  lemma CarriesMore(fr: seq<Fine>, ws: map<CallId, Where>, raises: nat -> bool, q: State,
                    f: Fine, ws': map<CallId, Where>, q': State)
    requires Carries(fr, ws, raises, q) && FineStep(fr[|fr| - 1], f) && Obeys(fr[|fr| - 1], f, raises(|fr| - 1))
    requires Stood(f, ws') && Abs(f, ws') == q'
    ensures Carries(fr + [f], ws', raises, q')
  {
    FineMore(fr, f);
    PatternMore(fr, f, raises);
  }

  function Rest(ws: map<CallId, Where>, t: CallId): nat { if t in ws then Left(ws[t]) else 0 }

  lemma SettleOnce(fr: seq<Fine>, ws: map<CallId, Where>, raises: nat -> bool, q: State, t: CallId)
      returns (fr': seq<Fine>, ws': map<CallId, Where>)
    requires Carries(fr, ws, raises, q) && t in ws && !Loud(q.observed, ws[t])
    ensures Carries(fr', ws', raises, q) && Rest(ws', t) < Rest(ws, t)
  {
    var f, raise := fr[|fr| - 1], raises(|fr| - 1);
    var f';
    f', ws' := Quieter(f, ws, t, raise);
    CarriesMore(fr, ws, raises, q, f', ws', q);
    fr' := fr + [f'];
    SomeLeft(ws[t]);
  }

  lemma SomeLeft(w: Where)
    ensures Left(w) > 0
  {
  }

  // Call t's goroutine goes on to where its next step is one of the protocol's, or to its end.
  lemma {:induction false} Settled(fr: seq<Fine>, ws: map<CallId, Where>, raises: nat -> bool, q: State, t: CallId)
      returns (fr': seq<Fine>, ws': map<CallId, Where>)
    requires Carries(fr, ws, raises, q)
    ensures Carries(fr', ws', raises, q) && (t in ws' ==> Loud(q.observed, ws'[t]))
    decreases Rest(ws, t)
  {
    fr', ws' := fr, ws;
    if t in ws && !Loud(q.observed, ws[t]) {
      fr', ws' := SettleOnce(fr, ws, raises, q, t);
      fr', ws' := Settled(fr', ws', raises, q, t);
    }
  }

  lemma RunGoesTo(f: Fine, ws: map<CallId, Where>, t: CallId, at: Spot, r: Reply, f': Fine, q': State)
    requires Stood(f, ws) && t in ws && ws[t] == RunAt(at) && Goes(f, t, r, f')
    requires Relabel(Data(f, f'), Labels(f.gs, ws)) == q'.(threads := Abs(f, ws).threads)
    requires Matches(Abs(f, ws), t, f.gs[t].job.entry, at, r, q')
    ensures Abs(f', Onward(f, ws, t, r)) == q'
  {
    RunShifts(f, ws, t, at, r, f');
  }

  lemma TellGoesTo(f: Fine, ws: map<CallId, Where>, t: CallId, at: Stop, r: Reply, f': Fine, q': State)
    requires Stood(f, ws) && t in ws && ws[t] == TellAt(at) && Goes(f, t, r, f')
    requires Relabel(Data(f, f'), Labels(f.gs, ws)) == q'.(threads := Abs(f, ws).threads)
    requires StopMatches(Abs(f, ws), t, f.gs[t].job.next, at, r, q')
    ensures Abs(f', Onward(f, ws, t, r)) == q'
  {
    TellShifts(f, ws, t, at, r, f');
  }

  // What the rest of the system has to do for the goroutine to take the protocol's step.
  lemma LoudReply(f: Fine, ws: map<CallId, Where>, t: CallId, a: Action, q': State, raise: bool) returns (r: Reply)
    requires Stood(f, ws) && t in ws && Loud(f.s.observed, ws[t])
    requires Takes(Abs(f, ws), t, a, q') && !a.AddDriver? && a != Other(Cancel)
    ensures r == Instead(WhereHead(f.s.observed, ws[t]), r, raise)
    ensures match ws[t]
      case RunAt(at) => Matches(Abs(f, ws), t, f.gs[t].job.entry, at, r, q')
      case TellAt(at) => StopMatches(Abs(f, ws), t, f.gs[t].job.next, at, r, q')
  {
    AbsThread(f, ws, t);
    var q := Abs(f, ws);
    match ws[t] {
      case RunAt(at) =>
        OnlyRuns(q, t, f.gs[t].job.entry, at, a, q');
        r := RunBack(q, t, f.gs[t].job.entry, at, a.run, q', raise);
      case TellAt(at) => r := TellBack(q, t, f.gs[t].job.next, at, a, q', raise);
    }
  }

  lemma LoudGoes(f: Fine, ws: map<CallId, Where>, t: CallId, a: Action, q': State, raise: bool)
      returns (f': Fine, ws': map<CallId, Where>)
    requires Stood(f, ws) && t in ws && Loud(f.s.observed, ws[t])
    requires Takes(Abs(f, ws), t, a, q') && !a.AddDriver? && a != Other(Cancel)
    ensures FineStep(f, f') && Obeys(f, f', raise) && Stood(f', ws') && Abs(f', ws') == q'
  {
    var q, l, g := Abs(f, ws), Labels(f.gs, ws), f.gs[t];
    var r := LoudReply(f, ws, t, a, q', raise);
    var head, d := WhereHead(f.s.observed, ws[t]), q'.(threads := q.threads);
    TouchUnlabelled(f.s, l, t, head, g.job, r, d);
    var data := d.(threads := f.s.threads);
    StandsSomewhere(f, ws, t);
    CanMarch(f, ws, t, r, data);
    f', ws' := Marched(f, t, r, data), Onward(f, ws, t, r);
    Marches(f, ws, t, r, f');
    assert Data(f, f') == data;
    match ws[t] {
      case RunAt(at) => RunGoesTo(f, ws, t, at, r, f', q');
      case TellAt(at) => TellGoesTo(f, ws, t, at, r, f', q');
    }
    GoesObeys(f, ws, t, r, data, raise);
  }

  // A step for which no goroutine is needed.
  lemma PlainGoes(f: Fine, ws: map<CallId, Where>, t: CallId, a: Action, q': State, raise: bool)
      returns (f': Fine, ws': map<CallId, Where>)
    requires Stood(f, ws) && Takes(Abs(f, ws), t, a, q') && (t !in ws || a.AddDriver? || a == Other(Cancel))
    ensures Plainly(f, t, a, f') && FineStep(f, f') && Obeys(f, f', raise) && Stood(f', ws') && Abs(f', ws') == q'
  {
    var s' := PlainBack(f.s, Labels(f.gs, ws), t, a, q');
    f' := Fine(s', Spawned(f.gs, t, a, s'));
    PlainSteps(f, t, a, f', raise);
    ws' := Begun(f, ws, t, f');
    PlainStood(f, ws, t, a, f');
    PlainAbs(f, ws, t, a, f');
  }

  lemma PlainSteps(f: Fine, t: CallId, a: Action, f': Fine, raise: bool)
    requires Takes(f.s, t, a, f'.s) && (t !in f.gs || a.AddDriver? || a == Other(Cancel))
    requires f'.gs == Spawned(f.gs, t, a, f'.s)
    ensures Plainly(f, t, a, f') && FineStep(f, f') && Obeys(f, f', raise)
  {
    assert Plainly(f, t, a, f');
  }

  lemma PlainAbs(f: Fine, ws: map<CallId, Where>, t: CallId, a: Action, f': Fine)
    requires Stood(f, ws) && Plainly(f, t, a, f')
    ensures Abs(f', Begun(f, ws, t, f')) == Relabel(f'.s, Labels(f.gs, ws))
  {
    if f'.gs != f.gs {
      SpawnStands(f, t, a, f'.s);
      NewLabel(f.gs, ws, t, f'.gs[t], StartsAt(f'.s.threads[t].pc), f'.s);
    }
  }

  // A step of the protocol for which t's goroutine, if it has one, is where it has to be.
  lemma SettledStep(fr: seq<Fine>, ws: map<CallId, Where>, raises: nat -> bool, q: State, t: CallId, a: Action,
                    q': State) returns (fr': seq<Fine>, ws': map<CallId, Where>)
    requires Carries(fr, ws, raises, q) && Takes(q, t, a, q')
    requires a.AddDriver? || a == Other(Cancel) || (t in ws ==> Loud(q.observed, ws[t]))
    ensures Carries(fr', ws', raises, q')
  {
    var f, raise := fr[|fr| - 1], raises(|fr| - 1);
    var f';
    if t in ws && !a.AddDriver? && a != Other(Cancel) {
      f', ws' := LoudGoes(f, ws, t, a, q', raise);
    } else {
      f', ws' := PlainGoes(f, ws, t, a, q', raise);
    }
    CarriesMore(fr, ws, raises, q, f', ws', q');
    fr' := fr + [f'];
  }

  lemma StepCarried(fr: seq<Fine>, ws: map<CallId, Where>, raises: nat -> bool, q: State, q': State)
      returns (fr': seq<Fine>, ws': map<CallId, Where>)
    requires Carries(fr, ws, raises, q) && Step(q, q')
    ensures Carries(fr', ws', raises, q')
  {
    var t, a :| Takes(q, t, a, q');
    var before, was := fr, ws;
    if !a.AddDriver? && a != Other(Cancel) {
      before, was := Settled(fr, ws, raises, q, t);
    }
    fr', ws' := SettledStep(before, was, raises, q, t, a, q');
  }

  lemma CarriedFirst(s: State, raises: nat -> bool)
    requires Init(s)
    ensures Carries([Fine(s, map[])], map[], raises, s)
  {
    assert Abs(Fine(s, map[]), map[]).threads == map[];
  }

  lemma {:induction false} CarriedTo(r: seq<State>, raises: nat -> bool, k: nat)
      returns (fr: seq<Fine>, ws: map<CallId, Where>)
    requires Run(r) && Init(r[0]) && k < |r|
    ensures Carries(fr, ws, raises, r[k])
  {
    if k == 0 {
      fr, ws := [Fine(r[0], map[])], map[];
      CarriedFirst(r[0], raises);
    } else {
      var before, was := CarriedTo(r, raises, k - 1);
      fr, ws := StepCarried(before, was, raises, r[k - 1], r[k]);
    }
  }

  // Every run of the protocol is carried out by goroutines in which callbacks panic by
  // any pattern given beforehand.
  lemma EveryRunCarried(r: seq<State>, raises: nat -> bool) returns (fr: seq<Fine>, ws: map<CallId, Where>)
    requires Run(r) && Init(r[0])
    ensures Carries(fr, ws, raises, r[|r| - 1])
  {
    fr, ws := CarriedTo(r, raises, |r| - 1);
  }

  // And so does every run without an observer, with observers and any panics.
  lemma AnyPanics(p: seq<State>, raises: nat -> bool)
      returns (fr: seq<Fine>, ws: map<CallId, Where>, trace: seq<Callback>)
    requires Run(p) && Init(p[0]) && !p[0].observed
    ensures FineRun(fr) && Pattern(fr, raises) && fr[|fr| - 1].s.observed
    ensures Stood(fr[|fr| - 1], ws) && Abs(fr[|fr| - 1], ws) == Seen(p[|p| - 1], trace)
    ensures Blind(Abs(fr[|fr| - 1], ws)) == p[|p| - 1]
  {
    var r;
    r, trace := RunSighted(p);
    fr, ws := EveryRunCarried(r, raises);
  }
}
