// Termination: with no new calls every step uses up a finite measure, so every
// schedule of the calls already made ends, and ends with all of them returned.
module Termination {
  import opened Basics
  import opened Registry
  import opened Protocol
  import opened Counting
  import opened Lifecycle
  import opened Safety
  import opened Deadlock
  import Alternation

  // A step of the calls already made; their contexts may end.
  predicate IsClosed(a: Action) { IsWork(a) || (a.Other? && a.other.Cancel?) }

  const BEGIN: nat := 12     // more than any operation needs, RemoveAll's batch aside
  const PER_ENTRY: nat := 4  // what RemoveAll spends on one entry
  const PER_OP: nat := 13    // one operation of Configure and going on after it

  function Tail(next: Next): nat {
    match next
    case ToFinish => 1
    case ToWait(_) => 4
    case ToDrain(batch) => 3 * |batch| + 2
  }

  function PcRank(pc: Pc): nat {
    match pc
    case Begin => BEGIN
    case Opening => 10
    case Opened(_) => 9
    case Discard(_) => 2
    case Finish => 1
    case Handover(events, next) => |events| + 2 + Tail(next)
    case Notify(events, next) => |events| + 1 + Tail(next)
    case Drain(rest) => 3 * |rest| + 2
    case Wait(_, rest) => 3 * |rest| + 4
    case Close(_, rest) => 3 * |rest| + 3
    case WaitOpenings => 1
    case Check(_) => 8
    case Select(_) => 7
    case Refused(_) => 2
    case Granted(_) => 6
    case InFn(_) => 5
    case Returned(_, _) => 4
    case TokenBack(_, _) => 3
    case Release(_, _) => 1
    case Done(_) => 0
  }

  function CallerRank(c: Caller): nat {
    match c
    case Direct => 0
    case Configure(_, todo, published, phase) =>
      match phase
      case Publishing => PER_OP * (2 * |todo| + |published| + 1) + 1
      case RollingBack(rest) => if rest == [] then 0 else PER_OP * (|rest| - 1) + 1
      case Finished(_) => 0
  }

  function Rank(th: Thread): nat {
    PcRank(th.pc) + CallerRank(th.caller) + One(!th.cancelled)
  }

  ghost function Sum(ths: Threads): nat {
    if ths == map[] then 0
    else var t: CallId :| t in ths; Rank(ths[t]) + Sum(ths - {t})
  }

  ghost function Measure(s: State): nat {
    Sum(s.threads) + PER_ENTRY * |s.dir.entries|
  }

  lemma {:induction false} SumWithout(ths: Threads, t: CallId)
    requires t in ths
    ensures Sum(ths) == Rank(ths[t]) + Sum(ths - {t})
    decreases |ths|
  {
    var u: CallId :| u in ths && Sum(ths) == Rank(ths[u]) + Sum(ths - {u});
    if u != t {
      SmallerMap(ths, u);
      SmallerMap(ths, t);
      SumWithout(ths - {u}, t);
      SumWithout(ths - {t}, u);
      assert ths - {u} - {t} == ths - {t} - {u};
    }
  }

  lemma SmallerMap<K, V>(m: map<K, V>, k: K)
    requires k in m
    ensures |m - {k}| == |m| - 1
  {
    assert (m - {k}).Keys == m.Keys - {k};
    assert |(m - {k}).Keys| == |m - {k}| && |m.Keys| == |m|;
  }

  lemma SumPut(ths: Threads, t: CallId, th: Thread)
    requires t in ths
    ensures Sum(ths[t := th]) == Sum(ths) - Rank(ths[t]) + Rank(th)
  {
    SumWithout(ths, t);
    SumWithout(ths[t := th], t);
    assert ths[t := th] - {t} == ths - {t};
  }

  // What a step leaves of the mover's rank and of the map.
  ghost predicate Spends(s: State, th: Thread, th': Thread, s': State) {
    Rank(th') + PER_ENTRY * |s'.dir.entries| < Rank(th) + PER_ENTRY * |s.dir.entries|
  }

  lemma GrownMap(m: map<Name, EntryId>, n: Name, e: EntryId)
    ensures |m[n := e]| <= |m| + 1
  {
    assert m[n := e].Keys == m.Keys + {n};
    assert |m[n := e].Keys| == |m[n := e]| && |m.Keys| == |m|;
  }

  lemma RegisterSpends(s: State, t: CallId, th: Thread, a: RegisterStep, th': Thread, s': State)
    requires StepRegister(s, t, th, a, th', s')
    ensures Spends(s, th, th', s')
  {
    if a.RegisterSecond? {
      GrownMap(s.dir.entries, th.op.name, a.entry);
    }
  }

  lemma NotifySpends(s: State, t: CallId, th: Thread, a: NotifyStep, th': Thread, s': State)
    requires StepNotify(s, t, th, a, th', s')
    ensures Spends(s, th, th', s')
  {
  }

  lemma BatchSize(m: map<Name, EntryId>, order: seq<Name>)
    requires Enumerates(order, m.Keys)
    ensures |order| == |m| && |m.Values| <= |m|
  {
    Alternation.EnumerationSize(order, m.Keys);
    assert |m.Keys| == |m|;
    ValuesSize(m);
  }

  lemma {:induction false} ValuesSize(m: map<Name, EntryId>)
    ensures |m.Values| <= |m|
  {
    if m != map[] {
      var n :| n in m;
      var rest := m - {n};
      Alternation.RemoveSize(m, n);
      ValuesSize(rest);
      forall v | v in m.Values ensures v in rest.Values + {m[n]} {
        var k :| k in m && m[k] == v;
        assert k != n ==> k in rest && rest[k] == v;
      }
      assert m.Values == rest.Values + {m[n]};
    } else {
      assert m.Values == {};
    }
  }

  // A step that leaves the map alone and lowers the mover's program counter.
  ghost predicate Lowers(s: State, th: Thread, th': Thread, s': State) {
    && PcRank(th'.pc) < PcRank(th.pc) && th'.caller == th.caller && th'.cancelled == th.cancelled
    && s'.dir.entries == s.dir.entries
  }

  lemma TakeSpends(s: State, t: CallId, th: Thread, a: RemoveStep, th': Thread, s': State)
    requires StepRemove(s, t, th, a, th', s')
    requires a.Swap? || (a.RemoveFirst? && Matches(s.dir, th.op.name, th.op.expected))
    ensures Spends(s, th, th', s')
  {
    match a
    case RemoveFirst => Alternation.RemoveSize(s.dir.entries, th.op.name);
    case Swap(order) => BatchSize(s.dir.entries, order);
  }

  lemma RemoveLowers(s: State, t: CallId, th: Thread, a: RemoveStep, th': Thread, s': State)
    requires StepRemove(s, t, th, a, th', s') && !a.Swap?
    requires a.RemoveFirst? ==> !Matches(s.dir, th.op.name, th.op.expected)
    ensures Lowers(s, th, th', s')
  {
  }

  lemma RemoveSpends(s: State, t: CallId, th: Thread, a: RemoveStep, th': Thread, s': State)
    requires StepRemove(s, t, th, a, th', s')
    ensures Spends(s, th, th', s')
  {
    if a.Swap? || (a.RemoveFirst? && Matches(s.dir, th.op.name, th.op.expected)) {
      TakeSpends(s, t, th, a, th', s');
    } else {
      RemoveLowers(s, t, th, a, th', s');
    }
  }

  lemma RunSpends(s: State, t: CallId, th: Thread, a: RunStep, th': Thread, s': State)
    requires StepRun(s, t, th, a, th', s')
    ensures Lowers(s, th, th', s')
  {
    RunKeepsCaller(s, t, th, a, th', s');
    RunRanks(s, t, th, a, th', s');
  }

  lemma RunKeepsCaller(s: State, t: CallId, th: Thread, a: RunStep, th': Thread, s': State)
    requires StepRun(s, t, th, a, th', s')
    ensures th'.caller == th.caller && th'.cancelled == th.cancelled && s'.dir.entries == s.dir.entries
  {
  }

  lemma RunRanks(s: State, t: CallId, th: Thread, a: RunStep, th': Thread, s': State)
    requires StepRun(s, t, th, a, th', s')
    ensures PcRank(th'.pc) < PcRank(th.pc)
  {
  }

  lemma PublishSpends(th: Thread, pick: Name, th': Thread)
    requires Resumes(th, pick, th') && th.caller.phase.Publishing?
    ensures Rank(th') < Rank(th)
  {
    if th.res.value.Registered? && th.caller.todo != map[] {
      SmallerMap(th.caller.todo, pick);
    }
  }

  lemma ResumeSpends(th: Thread, pick: Name, th': Thread)
    requires Resumes(th, pick, th')
    ensures Rank(th') < Rank(th)
  {
    if th.caller.phase.Publishing? {
      PublishSpends(th, pick, th');
    }
  }

  lemma OtherSpends(s: State, t: CallId, a: OtherStep, th': Thread, s': State)
    requires t in s.threads && StepOther(s, t, a, th', s') && (a.Cancel? || a.Read? || a.Continue?)
    ensures Spends(s, s.threads[t], th', s')
  {
    if a.Continue? {
      ResumeSpends(s.threads[t], a.pick, th');
    }
  }

  // Every step of the calls already made uses up some of the measure.
  lemma StepSpends(s: State, t: CallId, a: Action, s': State)
    requires Takes(s, t, a, s') && IsClosed(a)
    ensures Measure(s') < Measure(s)
  {
    var th, th' := s.threads[t], s'.threads[t];
    match a {
      case Registering(r) => RegisterSpends(s, t, th, r, th', s');
      case Notifying(n) => NotifySpends(s, t, th, n, th', s');
      case Removing(r) => RemoveSpends(s, t, th, r, th', s');
      case Running(r) => RunSpends(s, t, th, r, th', s');
      case Other(o) => OtherSpends(s, t, o, th', s');
    }
    assert s'.threads == s.threads[t := th'];
    SumPut(s.threads, t, th');
  }

  // A schedule of the calls already made.
  ghost predicate Schedule(r: seq<State>) {
    && |r| > 0 && Reachable(r[0])
    && forall i, j :: 0 <= i < j < |r| && j == i + 1 ==> Works(r[i], r[j])
  }

  ghost predicate Works(s: State, s': State) {
    exists t, a :: IsClosed(a) && Takes(s, t, a, s')
  }

  // No schedule is longer than the measure of its first state.
  lemma Bounded(r: seq<State>)
    requires Schedule(r)
    ensures |r| - 1 + Measure(r[|r| - 1]) <= Measure(r[0])
  {
    ScheduleFalls(r);
    FallsBounded(r, |r| - 1);
  }

  ghost predicate Falls(r: seq<State>) {
    forall i, j :: 0 <= i < j < |r| && j == i + 1 ==> Measure(r[j]) < Measure(r[i])
  }

  lemma ScheduleFalls(r: seq<State>)
    requires Schedule(r)
    ensures Falls(r)
  {
    forall i, j | 0 <= i < j < |r| && j == i + 1 ensures Measure(r[j]) < Measure(r[i]) {
      WorkSpends(r[i], r[j]);
    }
  }

  lemma {:induction false} FallsBounded(r: seq<State>, k: nat)
    requires Falls(r) && k < |r|
    ensures k + Measure(r[k]) <= Measure(r[0])
  {
    if k > 0 {
      FallsBounded(r, k - 1);
    }
  }

  lemma WorkSpends(s: State, s': State)
    requires Works(s, s')
    ensures Measure(s') < Measure(s)
  {
    var t, a :| IsClosed(a) && Takes(s, t, a, s');
    StepSpends(s, t, a, s');
  }

  lemma ScheduleReachable(r: seq<State>)
    requires Schedule(r)
    ensures Reachable(r[|r| - 1])
  {
    ScheduleReaches(r);
    ReachesOn(r, |r| - 1);
  }

  ghost predicate Reaches(r: seq<State>) {
    forall i, j :: 0 <= i < j < |r| && j == i + 1 && Reachable(r[i]) ==> Reachable(r[j])
  }

  lemma ScheduleReaches(r: seq<State>)
    requires Schedule(r)
    ensures Reaches(r)
  {
    forall i, j | 0 <= i < j < |r| && j == i + 1 && Reachable(r[i]) ensures Reachable(r[j]) {
      StepReachable(r[i], r[j]);
    }
  }

  lemma {:induction false} ReachesOn(r: seq<State>, k: nat)
    requires Reaches(r) && k < |r| && Reachable(r[0])
    ensures Reachable(r[k])
  {
    if k > 0 {
      ReachesOn(r, k - 1);
    }
  }

  lemma StepReachable(s: State, s': State)
    requires Reachable(s) && Works(s, s')
    ensures Reachable(s')
  {
    var t, a :| IsClosed(a) && Takes(s, t, a, s');
    assert Step(s, s');
    var r :| Run(r) && Init(r[0]) && r[|r| - 1] == s;
    var p := r + [s'];
    assert Run(p) && Init(p[0]) && p[|p| - 1] == s';
  }

  ghost predicate AllReturned(s: State) {
    forall t :: t in s.threads ==> Returns(s.threads[t])
  }

  // A schedule has returned every call, or can go on; and by Bounded it cannot
  // go on for ever. So every schedule that is not cut short completes.
  lemma CompletesOrGoesOn(r: seq<State>)
    requires Schedule(r)
    ensures AllReturned(r[|r| - 1]) || exists s' :: Schedule(r + [s'])
  {
    var s := r[|r| - 1];
    ScheduleReachable(r);
    if t :| t in s.threads && !Returns(s.threads[t]) {
      var s' := SomeWork(s, t);
      OneMoreStep(r, s');
    }
  }

  lemma SomeWork(s: State, t: CallId) returns (s': State)
    requires Reachable(s) && t in s.threads && !Returns(s.threads[t])
    ensures Works(s, s')
  {
    var u := NoDeadlock(s, t);
    var a, next :| IsWork(a) && Takes(s, u, a, next);
    s' := next;
  }

  lemma OneMoreStep(r: seq<State>, s': State)
    requires Schedule(r) && Works(r[|r| - 1], s')
    ensures Schedule(r + [s'])
  {
  }

  lemma GoesOn(r: seq<State>, t: CallId) returns (q: seq<State>)
    requires Schedule(r) && t in r[|r| - 1].threads && !Returns(r[|r| - 1].threads[t])
    ensures Schedule(q) && r <= q && Measure(q[|q| - 1]) < Measure(r[|r| - 1])
  {
    var s := r[|r| - 1];
    ScheduleReachable(r);
    var s' := SomeWork(s, t);
    OneMoreStep(r, s');
    WorkSpends(s, s');
    q := r + [s'];
  }

  // Every schedule can be completed, and by Bounded in as many steps as the measure at most.
  lemma {:induction false} Completes(r: seq<State>) returns (p: seq<State>)
    requires Schedule(r)
    ensures Schedule(p) && r <= p && AllReturned(p[|p| - 1])
    decreases Measure(r[|r| - 1])
  {
    p := r;
    var s := r[|r| - 1];
    if t :| t in s.threads && !Returns(s.threads[t]) {
      var q := GoesOn(r, t);
      p := Completes(q);
    }
  }
}
