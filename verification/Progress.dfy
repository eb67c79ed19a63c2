// Progress with goroutines: whatever panics, a run in which some call has not returned, or
// some goroutine has not unwound, can go on; and with no new calls it comes to an end.
module Progress {
  import opened Basics
  import opened Protocol
  import opened Safety
  import opened Deadlock
  import opened Termination
  import opened Frames
  import opened Positions
  import opened Deliveries
  import opened Unwinding
  import opened Unwound
  import opened Recovery
  import opened Patterns
  import opened Cleanup
  import opened Execution

  // A step of the calls already made; their contexts may end.
  ghost predicate FineWorks(f: Fine, f': Fine) {
    (exists t, a :: IsClosed(a) && Plainly(f, t, a, f')) || (exists t, r :: Goes(f, t, r, f'))
  }

  // One other than a context ending.
  ghost predicate FineProceeds(f: Fine, f': Fine) {
    (exists t, a :: IsWork(a) && Plainly(f, t, a, f')) || (exists t, r :: Goes(f, t, r, f'))
  }

  lemma ProceedsWorks(f: Fine, f': Fine)
    requires FineProceeds(f, f')
    ensures FineWorks(f, f')
  {
    if t, a :| IsWork(a) && Plainly(f, t, a, f') {
      assert IsClosed(a);
    }
  }

  ghost predicate Finished(f: Fine) {
    f.gs == map[] && forall t :: t in f.s.threads ==> Returns(f.s.threads[t])
  }

  // A Run that awaits a token has no step of its own.
  lemma SelectAwaits(q: State, t: CallId, e: EntryId, a: Action, q': State)
    requires t in q.threads && q.threads[t].pc == Select(e) && !q.threads[t].cancelled
    requires e in q.heap && q.heap[e].tokens == 0 && IsWork(a)
    ensures !Takes(q, t, a, q')
  {
  }

  lemma AwaitingCannotStep(f: Fine, ws: map<CallId, Where>, t: CallId, a: Action, q': State)
    requires Stood(f, ws) && t in ws && AwaitsToken(f, t, ws[t]) && IsWork(a)
    ensures !Takes(Abs(f, ws), t, a, q')
  {
    AbsThread(f, ws, t);
    SelectAwaits(Abs(f, ws), t, f.gs[t].job.entry, a, q');
  }

  // With no goroutine the protocol's state is the state itself.
  lemma AllGone(f: Fine, ws: map<CallId, Where>)
    requires Stood(f, ws) && f.gs == map[]
    ensures Abs(f, ws) == f.s
  {
    assert Abs(f, ws).threads == f.s.threads;
  }

  // No state with something left to do is stuck.
  lemma GoesOn(f: Fine, ws: map<CallId, Where>) returns (f': Fine)
    requires Stood(f, ws) && Reachable(Abs(f, ws)) && !Finished(f)
    ensures FineProceeds(f, f')
  {
    var q := Abs(f, ws);
    var t, r;
    if f.gs != map[] {
      t :| t in f.gs;
      r, f' := StepsOrAwaits(f, ws, t);
      if Goes(f, t, r, f') {
        return;
      }
      AbsThread(f, ws, t);
    } else {
      AllGone(f, ws);
      t :| t in f.s.threads && !Returns(f.s.threads[t]);
    }
    f' := ProtocolGoesOn(f, ws, t);
  }

  lemma ProtocolGoesOn(f: Fine, ws: map<CallId, Where>, t: CallId) returns (f': Fine)
    requires Stood(f, ws) && Reachable(Abs(f, ws)) && t in Abs(f, ws).threads && !Returns(Abs(f, ws).threads[t])
    ensures FineProceeds(f, f')
  {
    var q := Abs(f, ws);
    var u := NoDeadlock(q, t);
    var a, q' :| IsWork(a) && Takes(q, u, a, q');
    if u in f.gs {
      var r;
      r, f' := StepsOrAwaits(f, ws, u);
      if AwaitsToken(f, u, ws[u]) {
        AwaitingCannotStep(f, ws, u, a, q');
      }
      assert Goes(f, u, r, f');
    } else {
      var ws';
      f', ws' := PlainGoes(f, ws, u, a, q', false);
    }
  }

  // While some call has not returned, or some goroutine has not unwound, a step is possible,
  // and not only that some context ends.
  lemma FineNoDeadlock(f: Fine) returns (f': Fine)
    requires Attained(f) && !Finished(f)
    ensures FineProceeds(f, f')
  {
    var ws := Here(f);
    f' := GoesOn(f, ws);
  }

  // Steps a goroutine can take of itself before the protocol takes one.
  function StopFuel(at: Stop): nat {
    match at
    case TellStart(_) => 9
    case TellNext(_) => 8
    case TellIn(_, _, sa) => if Early(sa) then 1 + SafeLeft(sa) else 8 + SafeLeft(sa)
    case UnlockCalled => 7
    case UnlockDone => 5
    case TellLeaving => 4
    case OpeningCalled => 3
    case OpeningDone => 2
    case TellOver => 1
  }

  function Fuel(w: Where): nat {
    match w
    case RunAt(at) => SpotLeft(at)
    case TellAt(stop) => StopFuel(stop)
  }

  const MAX_FUEL: nat := 31

  lemma FuelBounds(w: Where)
    ensures 0 < Fuel(w) <= MAX_FUEL
  {
  }

  ghost function Fuels(ws: map<CallId, Where>): nat {
    if ws == map[] then 0
    else var t: CallId :| t in ws; Fuel(ws[t]) + Fuels(ws - {t})
  }

  lemma {:induction false} FuelsWithout(ws: map<CallId, Where>, t: CallId)
    requires t in ws
    ensures Fuels(ws) == Fuel(ws[t]) + Fuels(ws - {t})
    decreases |ws|
  {
    var u: CallId :| u in ws && Fuels(ws) == Fuel(ws[u]) + Fuels(ws - {u});
    if u != t {
      SmallerMap(ws, u);
      SmallerMap(ws, t);
      FuelsWithout(ws - {u}, t);
      FuelsWithout(ws - {t}, u);
      assert ws - {u} - {t} == ws - {t} - {u};
    }
  }

  lemma FuelsPut(ws: map<CallId, Where>, t: CallId, w: Where)
    ensures Fuels(ws[t := w]) == Fuels(ws - {t}) + Fuel(w)
  {
    FuelsWithout(ws[t := w], t);
    assert ws[t := w] - {t} == ws - {t};
  }

  lemma FuelsMark(ws: map<CallId, Where>, t: CallId, w: Option<Where>)
    requires t in ws
    ensures Fuels(Marks(ws, t, w)) == Fuels(ws) - Fuel(ws[t]) + if w.Some? then Fuel(w.value) else 0
  {
    FuelsWithout(ws, t);
    if w.Some? {
      FuelsPut(ws, t, w.value);
    }
  }

  // The protocol's measure, and what goroutines can do meanwhile.
  ghost function FineMeasure(f: Fine, ws: map<CallId, Where>): nat {
    (MAX_FUEL + 1) * Measure(Abs(f, ws)) + Fuels(ws)
  }

  // What the protocol makes of a step of the finer machine, by the measures' account.
  ghost predicate Spent(f: Fine, ws: map<CallId, Where>, f': Fine, ws': map<CallId, Where>) {
    && Stood(f', ws') && Reachable(Abs(f', ws'))
    && FineMeasure(f', ws') < FineMeasure(f, ws)
  }

  lemma ByWork(f: Fine, ws: map<CallId, Where>, t: CallId, a: Action, f': Fine, ws': map<CallId, Where>)
    requires Reachable(Abs(f, ws)) && Stood(f', ws') && IsClosed(a) && Takes(Abs(f, ws), t, a, Abs(f', ws'))
    requires Fuels(ws') <= Fuels(ws) + MAX_FUEL
    ensures Spent(f, ws, f', ws')
  {
    var q, q' := Abs(f, ws), Abs(f', ws');
    StepSpends(q, t, a, q');
    assert Works(q, q');
    StepReachable(q, q');
  }

  lemma BegunFuels(f: Fine, ws: map<CallId, Where>, t: CallId, f': Fine)
    requires t !in ws || f'.gs == f.gs
    ensures Fuels(Begun(f, ws, t, f')) <= Fuels(ws) + MAX_FUEL
  {
    if t !in ws && t in f'.s.threads {
      FuelsPut(ws, t, StartsAt(f'.s.threads[t].pc));
      assert ws - {t} == ws;
      FuelBounds(StartsAt(f'.s.threads[t].pc));
    }
  }

  lemma PlainAdvances(f: Fine, ws: map<CallId, Where>, t: CallId, a: Action, f': Fine)
    requires Stood(f, ws) && Plainly(f, t, a, f')
    ensures t !in ws || f'.gs == f.gs
    ensures var ws' := Begun(f, ws, t, f'); Stood(f', ws') && Takes(Abs(f, ws), t, a, Abs(f', ws'))
  {
    if f'.gs == f.gs {
      PlainKeeps(f, ws, t, a, f');
    } else {
      PlainSpawns(f, ws, t, a, f');
    }
  }

  lemma PlainSpends(f: Fine, ws: map<CallId, Where>, t: CallId, a: Action, f': Fine)
    requires Stood(f, ws) && Reachable(Abs(f, ws)) && IsClosed(a) && Plainly(f, t, a, f')
    ensures Spent(f, ws, f', Begun(f, ws, t, f'))
  {
    PlainAdvances(f, ws, t, a, f');
    BegunFuels(f, ws, t, f');
    ByWork(f, ws, t, a, f', Begun(f, ws, t, f'));
  }

  lemma StopFuelFalls(todo: Next, at: Stop, r: Reply)
    requires NextStop(todo, at, r).Some?
    ensures StopFuel(NextStop(todo, at, r).value) < StopFuel(at) + if StopAction(at).Some? then MAX_FUEL else 0
  {
  }

  // The goroutine's step uses fuel, or comes with one of the protocol's.
  ghost predicate Burns(ws: map<CallId, Where>, ws': map<CallId, Where>, loud: bool) {
    if loud then Fuels(ws') <= Fuels(ws) + MAX_FUEL else Fuels(ws') < Fuels(ws)
  }

  lemma RunBurns(f: Fine, ws: map<CallId, Where>, t: CallId, at: Spot, r: Reply)
    requires t in f.gs && t in ws && ws[t] == RunAt(at) && f.gs[t].job.InRun? && Possible(f.s.observed, at)
    ensures Fuels(Onward(f, ws, t, r)) < Fuels(ws)
  {
    FuelsMark(ws, t, NextWhere(f.s.observed, f.gs[t].job, ws[t], r));
    FuelBounds(ws[t]);
    if NextSpot(f.s.observed, at, r).Some? {
      SpotFalls(f.s.observed, at, r);
    }
  }

  lemma TellBurns(f: Fine, ws: map<CallId, Where>, t: CallId, at: Stop, r: Reply)
    requires t in f.gs && t in ws && ws[t] == TellAt(at) && f.gs[t].job.InNotify?
    ensures Burns(ws, Onward(f, ws, t, r), StopAction(at).Some?)
  {
    FuelsMark(ws, t, NextWhere(f.s.observed, f.gs[t].job, ws[t], r));
    FuelBounds(ws[t]);
    if NextStop(f.gs[t].job.next, at, r).Some? {
      StopFuelFalls(f.gs[t].job.next, at, r);
    }
  }

  lemma SilentSpends(f: Fine, ws: map<CallId, Where>, f': Fine, ws': map<CallId, Where>)
    requires Reachable(Abs(f, ws)) && Stood(f', ws') && Abs(f', ws') == Abs(f, ws) && Fuels(ws') < Fuels(ws)
    ensures Spent(f, ws, f', ws')
  {
  }

  lemma ByRunning(f: Fine, ws: map<CallId, Where>, t: CallId, at: Spot, r: Reply, f': Fine, ws': map<CallId, Where>)
    requires Reachable(Abs(f, ws)) && Stood(f', ws') && IsRunStep(Abs(f, ws), t, at, r, Abs(f', ws'))
    requires Fuels(ws') < Fuels(ws)
    ensures Spent(f, ws, f', ws')
  {
    var a := RunAction(f.s.observed, at, r);
    if a.Some? {
      ByWork(f, ws, t, Action.Running(a.value), f', ws');
    } else {
      SilentSpends(f, ws, f', ws');
    }
  }

  lemma RunSpends(f: Fine, ws: map<CallId, Where>, t: CallId, at: Spot, r: Reply, f': Fine)
    requires Stood(f, ws) && Reachable(Abs(f, ws)) && Goes(f, t, r, f') && t in ws && ws[t] == RunAt(at)
    ensures Spent(f, ws, f', Onward(f, ws, t, r))
  {
    ShapedHere(Abs(f, ws));
    RunAdvances(f, ws, t, at, r, f');
    RunBurns(f, ws, t, at, r);
    ByRunning(f, ws, t, at, r, f', Onward(f, ws, t, r));
  }

  lemma ByTelling(f: Fine, ws: map<CallId, Where>, t: CallId, at: Stop, f': Fine, ws': map<CallId, Where>)
    requires Reachable(Abs(f, ws)) && Stood(f', ws') && IsStopStep(Abs(f, ws), t, at, Abs(f', ws'))
    requires Burns(ws, ws', StopAction(at).Some?)
    ensures Spent(f, ws, f', ws')
  {
    if StopAction(at).Some? {
      ByWork(f, ws, t, StopAction(at).value, f', ws');
    } else {
      SilentSpends(f, ws, f', ws');
    }
  }

  lemma TellSpends(f: Fine, ws: map<CallId, Where>, t: CallId, at: Stop, r: Reply, f': Fine)
    requires Stood(f, ws) && Reachable(Abs(f, ws)) && Goes(f, t, r, f') && t in ws && ws[t] == TellAt(at)
    ensures Spent(f, ws, f', Onward(f, ws, t, r))
  {
    ShapedHere(Abs(f, ws));
    TellAdvances(f, ws, t, at, r, f');
    TellBurns(f, ws, t, at, r);
    ByTelling(f, ws, t, at, f', Onward(f, ws, t, r));
  }

  // Every step with goroutines, the protocol's or not, uses up some of the measure.
  lemma FineSpends(f: Fine, ws: map<CallId, Where>, f': Fine) returns (ws': map<CallId, Where>)
    requires Stood(f, ws) && Reachable(Abs(f, ws)) && FineWorks(f, f')
    ensures Spent(f, ws, f', ws')
  {
    if t, a :| IsClosed(a) && Plainly(f, t, a, f') {
      PlainSpends(f, ws, t, a, f');
      ws' := Begun(f, ws, t, f');
    } else {
      var t, r :| Goes(f, t, r, f');
      ws' := Onward(f, ws, t, r);
      match ws[t]
      case RunAt(at) => RunSpends(f, ws, t, at, r, f');
      case TellAt(at) => TellSpends(f, ws, t, at, r, f');
    }
  }

  // A schedule of the calls already made, with goroutines.
  ghost predicate FineSchedule(fs: seq<Fine>) {
    && |fs| > 0 && Attained(fs[0])
    && forall i, j :: 0 <= i < j < |fs| && j == i + 1 ==> FineWorks(fs[i], fs[j])
  }

  // Where the goroutines are, with m steps left at most.
  ghost predicate Lies(f: Fine, ws: map<CallId, Where>, m: int) {
    Stood(f, ws) && Reachable(Abs(f, ws)) && FineMeasure(f, ws) <= m
  }

  lemma OneOn(f: Fine, ws: map<CallId, Where>, m: int, f': Fine) returns (ws': map<CallId, Where>)
    requires Lies(f, ws, m) && FineWorks(f, f')
    ensures Lies(f', ws', m - 1)
  {
    ws' := FineSpends(f, ws, f');
  }

  lemma Consecutive(fs: seq<Fine>, k: nat)
    requires FineSchedule(fs) && 0 < k < |fs|
    ensures FineWorks(fs[k - 1], fs[k])
  {
  }

  lemma {:induction false} Along(fs: seq<Fine>, ws: map<CallId, Where>, m: int, k: nat)
      returns (ws': map<CallId, Where>)
    requires FineSchedule(fs) && Lies(fs[0], ws, m) && k < |fs|
    ensures Lies(fs[k], ws', m - k)
  {
    ws' := ws;
    if k > 0 {
      var was := Along(fs, ws, m, k - 1);
      Consecutive(fs, k);
      ws' := OneOn(fs[k - 1], was, m - (k - 1), fs[k]);
    }
  }

  // From each state all schedules, whatever panics in them, have one bound.
  lemma FineBounded(f: Fine) returns (ws: map<CallId, Where>)
    requires Attained(f)
    ensures Stood(f, ws) && Reachable(Abs(f, ws))
    ensures forall fs :: FineSchedule(fs) && fs[0] == f ==> |fs| - 1 <= FineMeasure(f, ws)
  {
    ws := Here(f);
    forall fs | FineSchedule(fs) && fs[0] == f ensures |fs| - 1 <= FineMeasure(f, ws) {
      var _ := Along(fs, ws, FineMeasure(f, ws), |fs| - 1);
    }
  }

  lemma FineScheduleMore(fs: seq<Fine>, f: Fine)
    requires FineSchedule(fs) && FineWorks(fs[|fs| - 1], f)
    ensures FineSchedule(fs + [f])
  {
    var more := fs + [f];
    assert more[0] == fs[0];
    forall i, j | 0 <= i < j < |more| && j == i + 1 ensures FineWorks(more[i], more[j]) {
      if j < |fs| {
        assert FineWorks(fs[i], fs[j]);
      }
    }
  }

  ghost predicate EndsAt(fs: seq<Fine>, ws: map<CallId, Where>, m: int) {
    FineSchedule(fs) && Lies(fs[|fs| - 1], ws, m)
  }

  ghost predicate Completed(fs: seq<Fine>, p: seq<Fine>) {
    FineSchedule(p) && fs <= p && Finished(p[|p| - 1])
  }

  lemma Longer(fs: seq<Fine>, ws: map<CallId, Where>, m: nat) returns (more: seq<Fine>, ws': map<CallId, Where>)
    requires EndsAt(fs, ws, m) && !Completed(fs, fs)
    ensures m > 0 && EndsAt(more, ws', m - 1) && fs <= more
  {
    var f' := GoesOn(fs[|fs| - 1], ws);
    ProceedsWorks(fs[|fs| - 1], f');
    FineScheduleMore(fs, f');
    ws' := OneOn(fs[|fs| - 1], ws, m, f');
    more := fs + [f'];
  }

  lemma CompletedFrom(fs: seq<Fine>, more: seq<Fine>, p: seq<Fine>)
    requires fs <= more && Completed(more, p)
    ensures Completed(fs, p)
  {
  }

  lemma {:induction false} CompletesFrom(fs: seq<Fine>, ws: map<CallId, Where>, m: nat) returns (p: seq<Fine>)
    requires EndsAt(fs, ws, m)
    ensures Completed(fs, p)
    decreases m
  {
    if Completed(fs, fs) {
      p := fs;
    } else {
      var more, ws' := Longer(fs, ws, m);
      p := CompletesFrom(more, ws', m - 1);
      CompletedFrom(fs, more, p);
    }
  }

  // And each can be completed: all calls returned, all goroutines unwound.
  lemma FineCompletes(fs: seq<Fine>) returns (p: seq<Fine>)
    requires FineSchedule(fs)
    ensures FineSchedule(p) && fs <= p && Finished(p[|p| - 1])
  {
    var ws := Here(fs[0]);
    var ws' := Along(fs, ws, FineMeasure(fs[0], ws), |fs| - 1);
    p := CompletesFrom(fs, ws', FineMeasure(fs[|fs| - 1], ws'));
  }
}
