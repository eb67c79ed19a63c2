// The other half of linearizability: whatever the atomic registry may do, one operation
// after another, the protocol can do; and it refuses its callers nothing.
module Completeness {
  import opened Basics
  import opened Registry
  import opened Protocol
  import opened Shape
  import opened Linearity
  import opened Safety
  import opened Runs
  import opened Deadlock
  import opened Termination
  import opened Guards

  // Some run leads from here to there.
  ghost predicate Leads(s0: State, s: State) {
    exists r :: Run(r) && r[0] == s0 && r[|r| - 1] == s
  }

  lemma LeadsOn(s0: State, s: State, s': State)
    requires Leads(s0, s) && Step(s, s')
    ensures Leads(s0, s')
  {
    var r :| Run(r) && r[0] == s0 && r[|r| - 1] == s;
    var p := r + [s'];
    assert Run(p) && p[0] == s0 && p[|p| - 1] == s';
  }

  lemma LeadsBy(s0: State, s: State, t: CallId, a: Action, s': State)
    requires Init(s0) && Leads(s0, s) && Takes(s, t, a, s')
    ensures Leads(s0, s') && Reachable(s')
  {
    LeadsOn(s0, s, s');
    var r :| Run(r) && r[0] == s0 && r[|r| - 1] == s';
    assert Run(r) && Init(r[0]);
  }

  lemma LeadsReachable(s0: State, s: State)
    requires Init(s0) && Leads(s0, s)
    ensures Reachable(s)
  {
    var r :| Run(r) && r[0] == s0 && r[|r| - 1] == s;
    assert Run(r) && Init(r[0]);
  }

  // Every call has its answer, and begins nothing more.
  predicate Over(th: Thread) { th.caller.Direct? && th.res.Some? }

  ghost predicate AllOver(s: State) { forall t :: t in s.threads ==> Over(s.threads[t]) }

  // One call is at its beginning; no other is under way.
  ghost predicate Alone(s: State, t: CallId) {
    && t in s.threads && s.threads[t] == Thread(s.threads[t].op, Begin, Direct, false, 1, None)
    && s.locks == Locks(None, None)
    && forall u :: u in s.threads && u != t ==> Over(s.threads[u])
  }

  lemma WorkAfterwards(s: State, s': State)
    requires Reachable(s) && AllOver(s) && Works(s, s')
    ensures AllOver(s') && s'.log.hist == s.log.hist
  {
    var t, a :| IsClosed(a) && Takes(s, t, a, s');
    ShapedHere(s);
    OthersStay(s, t, a, s');
    TakesRefines(s, t, a, s');
    OverStays(s, t, a, s');
  }

  lemma OverStays(s: State, t: CallId, a: Action, s': State)
    requires Shaped(s) && IsClosed(a) && Takes(s, t, a, s') && t in s.threads && Over(s.threads[t])
    ensures t in s'.threads && Over(s'.threads[t])
  {
    SameCaller(s, t, a, s');
    AnswerStays(s, t, a, s');
    NoNextOperation(s, t, a, s');
  }

  lemma SameCaller(s: State, t: CallId, a: Action, s': State)
    requires IsClosed(a) && Takes(s, t, a, s') && s.threads[t].caller.Direct?
    ensures t in s'.threads && s'.threads[t].caller.Direct?
  {
  }

  lemma NoNextOperation(s: State, t: CallId, a: Action, s': State)
    requires IsClosed(a) && Takes(s, t, a, s') && s.threads[t].caller.Direct?
    ensures s'.threads[t].ops == s.threads[t].ops
  {
  }

  lemma {:induction false} ScheduleLeads(s0: State, p: seq<State>, k: nat)
    requires Init(s0) && Schedule(p) && k < |p| && Leads(s0, p[0]) && AllOver(p[0])
    ensures Leads(s0, p[k]) && AllOver(p[k]) && p[k].log.hist == p[0].log.hist
  {
    if k > 0 {
      ScheduleLeads(s0, p, k - 1);
      LeadsReachable(s0, p[k - 1]);
      WorkAfterwards(p[k - 1], p[k]);
      WorkIsStep(p[k - 1], p[k]);
      LeadsOn(s0, p[k - 1], p[k]);
    }
  }

  lemma WorkIsStep(s: State, s': State)
    requires Works(s, s')
    ensures Step(s, s')
  {
    var t, a :| IsClosed(a) && Takes(s, t, a, s');
  }

  // Once a call has its answer all that is under way can come to its end.
  lemma Quiets(s0: State, s: State) returns (q: State)
    requires Init(s0) && Leads(s0, s) && AllOver(s)
    ensures Leads(s0, q) && AllOver(q) && AllReturned(q) && q.log.hist == s.log.hist
  {
    LeadsReachable(s0, s);
    assert Schedule([s]);
    var p := Completes([s]);
    assert p[0] == s;
    ScheduleLeads(s0, p, |p| - 1);
    q := p[|p| - 1];
  }

  // A new call, with nothing under way.
  lemma Arrives(s0: State, s: State, t: CallId, op: Op) returns (s': State)
    requires Init(s0) && Leads(s0, s) && AllOver(s) && AllReturned(s) && t !in s.threads
    ensures Leads(s0, s') && Alone(s', t) && s'.threads[t].op == op && RegOf(s') == RegOf(s)
    ensures s'.log == s.log && s'.drivers == s.drivers
  {
    LeadsReachable(s0, s);
    NoLocks(s);
    s' := s.(threads := s.threads[t := Thread(op, Begin, Direct, false, 1, None)]);
    LeadsBy(s0, s, t, Other(Start(op)), s');
  }

  lemma NoLocks(s: State)
    requires Reachable(s) && AllReturned(s)
    ensures s.locks == Locks(None, None)
  {
    ShapedHere(s);
  }

  // The steps by which a call that is alone gets its answer.
  ghost predicate Answers(s0: State, s: State, t: CallId, res: Result, s': State) {
    && Leads(s0, s') && AllOver(s') && t in s.threads
    && s'.log.hist == s.log.hist + [Event(t, s.threads[t].op, res)]
  }

  lemma AnswersBy(s0: State, s: State, t: CallId, a: Action, pc: Pc, res: Result, s': State)
    requires Init(s0) && Leads(s0, s) && Alone(s, t) && Takes(s, t, a, s')
    requires s'.threads == s.threads[t := s.threads[t].(pc := pc, res := Some(res))]
    requires s'.log.hist == s.log.hist + [Event(t, s.threads[t].op, res)]
    ensures Answers(s0, s, t, res, s')
  {
    LeadsBy(s0, s, t, a, s');
  }

  lemma RefusalAnswers(s0: State, s: State, t: CallId, res: Result) returns (s': State)
    requires Init(s0) && Leads(s0, s) && Alone(s, t) && s.threads[t].op.Register?
    requires Legal(RegOf(s), s.threads[t].op, res) && !res.Registered? && !res.OpenFailed?
    ensures Answers(s0, s, t, res, s')
  {
    var th := s.threads[t];
    s' := s.(threads := s.threads[t := Answered(th, Done(Nothing), res)], log := Record(s.log, t, th, res));
    AnswersBy(s0, s, t, Registering(RegisterFirst), Done(Nothing), res, s');
  }

  // As far as its driver's Open.
  lemma ComesToOpen(s0: State, s: State, t: CallId) returns (s': State)
    requires Init(s0) && Leads(s0, s) && Alone(s, t) && s.threads[t].op.Register?
    requires var n := s.threads[t].op.name; n != "" && !s.dir.closed && n !in s.dir.entries
    ensures Leads(s0, s') && s'.threads == s.threads[t := s.threads[t].(pc := Opening)]
    ensures s'.locks == s.locks && s'.heap == s.heap && s'.log == s.log && s'.custody == s.custody
    ensures s'.dir.entries == s.dir.entries && s'.dir.closed == s.dir.closed
    ensures s'.drivers.builders == s.drivers.builders
  {
    s' := s.(threads := s.threads[t := s.threads[t].(pc := Opening)],
             dir := s.dir.(openings := s.dir.openings + 1), drivers := s.drivers.(frozen := true));
    LeadsBy(s0, s, t, Registering(RegisterFirst), s');
  }

  lemma FailureAnswers(s0: State, s: State, t: CallId) returns (s': State)
    requires Init(s0) && Leads(s0, s) && Alone(s, t) && s.threads[t].op.Register?
    requires var n := s.threads[t].op.name; n != "" && !s.dir.closed && n !in s.dir.entries
    ensures Answers(s0, s, t, OpenFailed, s')
  {
    var q := ComesToOpen(s0, s, t);
    var th := q.threads[t];
    s' := q.(threads := q.threads[t := Answered(th, Finish, OpenFailed)],
             log := Record(q.log, t, th, OpenFailed));
    LeadsBy(s0, q, t, Registering(OpenFails), s');
  }

  lemma ComesToOpened(s0: State, s: State, t: CallId, c: ClientId) returns (s': State)
    requires Init(s0) && Leads(s0, s) && t in s.threads && s.threads[t].pc.Opening? && s.threads[t].op.Register?
    requires s.threads[t].op.cfg.driver in s.drivers.builders && c !in s.custody.clients
    ensures Leads(s0, s') && s'.threads == s.threads[t := s.threads[t].(pc := Opened(c))]
    ensures s'.locks == s.locks && s'.heap == s.heap && s'.log == s.log && s'.dir == s.dir
  {
    s' := s.(threads := s.threads[t := s.threads[t].(pc := Opened(c))],
             custody := s.custody.(clients := s.custody.clients[c := HeldBy(t)]));
    LeadsBy(s0, s, t, Registering(OpenSucceeds(c)), s');
  }

  lemma Publishes(s0: State, s: State, t: CallId, e: EntryId) returns (s': State)
    requires Init(s0) && Leads(s0, s) && t in s.threads && s.threads[t].pc.Opened? && s.threads[t].op.Register?
    requires s.locks.mu.None? && e !in s.heap && !s.dir.closed && s.threads[t].op.name !in s.dir.entries
    ensures var th := s.threads[t];
      Leads(s0, s') && s'.log.hist == s.log.hist + [Event(t, th.op, Registered(e))]
      && s'.threads ==
         s.threads[t := th.(pc := Handover([SourceRegistered(th.op.name)], ToFinish), res := Some(Registered(e)))]
  {
    var th, c := s.threads[t], s.threads[t].pc.client;
    var n := th.op.name;
    s' := s.(threads := s.threads[t := Answered(th, Handover([SourceRegistered(n)], ToFinish), Registered(e))],
             locks := s.locks.(mu := Some(t)), dir := s.dir.(entries := s.dir.entries[n := e]),
             heap := s.heap[e := Entry(n, c, th.op.cfg.limit, Capacity(th.op.cfg.limit), 0, Live, t)],
             custody := s.custody.(clients := s.custody.clients[c := InEntry(e)]),
             log := Record(s.log, t, th, Registered(e)));
    LeadsBy(s0, s, t, Registering(RegisterSecond(e)), s');
  }

  lemma SuccessAnswers(s0: State, s: State, t: CallId, e: EntryId) returns (s': State)
    requires Init(s0) && Leads(s0, s) && Alone(s, t) && s.threads[t].op.Register?
    requires Legal(RegOf(s), s.threads[t].op, Registered(e)) && s.threads[t].op.cfg.driver in s.drivers.builders
    ensures Answers(s0, s, t, Registered(e), s')
  {
    var opening := ComesToOpen(s0, s, t);
    var c := Above(opening.custody.clients.Keys);
    var held := ComesToOpened(s0, opening, t, c);
    s' := Publishes(s0, held, t, e);
  }

  lemma RemovalAnswers(s0: State, s: State, t: CallId, res: Result) returns (s': State)
    requires Init(s0) && Leads(s0, s) && Alone(s, t) && s.threads[t].op.Remove?
    requires Legal(RegOf(s), s.threads[t].op, res)
    ensures Answers(s0, s, t, res, s')
  {
    var th := s.threads[t];
    var n := th.op.name;
    if Matches(s.dir, n, th.op.expected) {
      var e := s.dir.entries[n];
      var pc := Handover([SourceRemoved(n)], ToWait(e));
      s' := s.(threads := s.threads[t := Answered(th, pc, res)], locks := s.locks.(mu := Some(t)),
               dir := s.dir.(entries := s.dir.entries - {n}), heap := Take(s.heap, {e}, t),
               log := Record(s.log, t, th, res));
      AnswersBy(s0, s, t, Removing(RemoveFirst), pc, res, s');
    } else {
      s' := s.(threads := s.threads[t := Answered(th, Done(Nothing), res)], log := Record(s.log, t, th, res));
      AnswersBy(s0, s, t, Removing(RemoveFirst), Done(Nothing), res, s');
    }
  }

  lemma SwapAnswers(s0: State, s: State, t: CallId, res: Result) returns (s': State)
    requires Init(s0) && Leads(s0, s) && Alone(s, t) && s.threads[t].op.RemoveAll?
    requires Legal(RegOf(s), s.threads[t].op, res)
    ensures Answers(s0, s, t, res, s')
  {
    var th, batch := s.threads[t], s.dir.entries.Values;
    var pc := Handover(Removals(res.order), ToDrain(batch));
    s' := s.(threads := s.threads[t := Answered(th, pc, res)], locks := s.locks.(mu := Some(t)),
             dir := s.dir.(entries := map[], closed := true), heap := Take(s.heap, batch, t),
             log := Record(s.log, t, th, res));
    AnswersBy(s0, s, t, Removing(Swap(res.order)), pc, res, s');
  }

  lemma AdmissionAnswers(s0: State, s: State, t: CallId, res: Result) returns (s': State)
    requires Init(s0) && Leads(s0, s) && Alone(s, t) && IsRun(s.threads[t].op)
    requires Legal(RegOf(s), s.threads[t].op, res)
    ensures Answers(s0, s, t, res, s')
  {
    if Admissible(s.dir, s.threads[t].op) {
      s' := AdmittedAnswers(s0, s, t, res);
    } else {
      var th := s.threads[t];
      s' := s.(threads := s.threads[t := Answered(th, Done(Nothing), res)], log := Record(s.log, t, th, res));
      AnswersBy(s0, s, t, Running(Admit), Done(Nothing), res, s');
    }
  }

  lemma EntryBehind(s: State, n: Name)
    requires Reachable(s) && n in s.dir.entries
    ensures s.dir.entries[n] in s.heap
  {
    LivesHere(s);
  }

  lemma AdmittedAnswers(s0: State, s: State, t: CallId, res: Result) returns (s': State)
    requires Init(s0) && Leads(s0, s) && Alone(s, t) && IsRun(s.threads[t].op) && Admissible(s.dir, s.threads[t].op)
    requires Legal(RegOf(s), s.threads[t].op, res)
    ensures Answers(s0, s, t, res, s')
  {
    var th := s.threads[t];
    var e := s.dir.entries[th.op.name];
    LeadsReachable(s0, s);
    EntryBehind(s, th.op.name);
    s' := s.(threads := s.threads[t := Answered(th, Check(e), res)],
             heap := s.heap[e := s.heap[e].(wg := s.heap[e].wg + 1)], log := Record(s.log, t, th, res));
    AnswersBy(s0, s, t, Running(Admit), Check(e), res, s');
  }

  lemma ReadAnswers(s0: State, s: State, t: CallId, res: Result) returns (s': State)
    requires Init(s0) && Leads(s0, s) && Alone(s, t)
    requires s.threads[t].op.Snapshot? || s.threads[t].op.List?
    requires Legal(RegOf(s), s.threads[t].op, res)
    ensures Answers(s0, s, t, res, s')
  {
    var th := s.threads[t];
    s' := s.(threads := s.threads[t := Answered(th, Done(Nothing), res)], log := Record(s.log, t, th, res));
    AnswersBy(s0, s, t, Other(Read), Done(Nothing), res, s');
  }

  // What one operation after another can be answered: a legal answer; a success only from
  // a driver there is, and a failed opening only where one was begun.
  ghost predicate Feasible(r: Reg, op: Op, res: Result, builders: map<string, nat>) {
    && Legal(r, op, res)
    && (op.Register? && res.Registered? ==> op.cfg.driver in builders)
    && (op.Register? && res.OpenFailed? ==> !r.closed && op.name !in r.entries)
  }

  lemma OneAnswer(s0: State, s: State, t: CallId, res: Result) returns (s': State)
    requires Init(s0) && Leads(s0, s) && Alone(s, t)
    requires Feasible(RegOf(s), s.threads[t].op, res, s.drivers.builders)
    ensures Answers(s0, s, t, res, s')
  {
    match s.threads[t].op {
      case Register(_, _) =>
        if res.Registered? {
          s' := SuccessAnswers(s0, s, t, res.entry);
        } else if res.OpenFailed? {
          s' := FailureAnswers(s0, s, t);
        } else {
          s' := RefusalAnswers(s0, s, t, res);
        }
      case Remove(_, _) => s' := RemovalAnswers(s0, s, t, res);
      case RemoveAll => s' := SwapAnswers(s0, s, t, res);
      case Acquire(_) => s' := AdmissionAnswers(s0, s, t, res);
      case AcquireSource(_, _) => s' := AdmissionAnswers(s0, s, t, res);
      case Snapshot(_) => s' := ReadAnswers(s0, s, t, res);
      case List => s' := ReadAnswers(s0, s, t, res);
    }
  }

  // A history of calls of one operation each, that come one after another.
  ghost predicate OneByOne(h: History, builders: map<string, nat>) {
    && (forall i, j :: 0 <= i < j < |h| ==> h[i].call != h[j].call)
    && forall k :: 0 <= k < |h| ==> Feasible(Replay(h[..k]), h[k].op, h[k].res, builders)
  }

  lemma OneByOneLess(h: History, builders: map<string, nat>)
    requires OneByOne(h, builders) && h != []
    ensures OneByOne(h[..|h| - 1], builders)
  {
    var init := h[..|h| - 1];
    forall k | 0 <= k < |init| ensures Feasible(Replay(init[..k]), init[k].op, init[k].res, builders) {
      assert init[..k] == h[..k];
    }
  }

  lemma NotYetThere(s: State, t: CallId)
    requires Reachable(s) && AllOver(s) && (forall k :: 0 <= k < |s.log.hist| ==> s.log.hist[k].call != t)
    ensures t !in s.threads
  {
    LinearHere(s);
    ShapedHere(s);
    if t in s.threads {
      assert Told(s.log.hist, t, s.threads[t]);
      var k := LastAt(s.log.hist, t);
    }
  }

  // The registry reached so far, and no event of the call that comes next.
  ghost predicate ReadyFor(q: State, ev: Event) {
    Replay(q.log.hist) == RegOf(q) && forall k :: 0 <= k < |q.log.hist| ==> q.log.hist[k].call != ev.call
  }

  lemma NextEvent(s0: State, s: State, ev: Event) returns (q: State)
    requires Init(s0) && Leads(s0, s) && AllOver(s) && AllReturned(s)
    requires ReadyFor(s, ev) && Feasible(RegOf(s), ev.op, ev.res, s0.drivers.builders)
    ensures Leads(s0, q) && AllOver(q) && AllReturned(q) && q.log.hist == s.log.hist + [ev]
  {
    LeadsReachable(s0, s);
    NotYetThere(s, ev.call);
    var begun := Arrives(s0, s, ev.call, ev.op);
    if ev.op.Register? && ev.res.Registered? {
      var r :| Run(r) && r[0] == s0 && r[|r| - 1] == s;
      DriversStay(r, 0, |r| - 1, ev.op.cfg.driver);
    }
    var answered := OneAnswer(s0, begun, ev.call, ev.res);
    q := Quiets(s0, answered);
  }

  ghost predicate Ends(s0: State, s: State, h: History) {
    Leads(s0, s) && AllOver(s) && AllReturned(s) && s.log.hist == h
  }

  lemma NothingDone(s0: State)
    requires Init(s0)
    ensures Ends(s0, s0, [])
  {
    assert Run([s0]);
  }

  lemma LastNew(q: State, h: History, builders: map<string, nat>)
    requires OneByOne(h, builders) && h != [] && q.log.hist == h[..|h| - 1] && Replay(q.log.hist) == RegOf(q)
    ensures ReadyFor(q, h[|h| - 1])
    ensures Feasible(RegOf(q), h[|h| - 1].op, h[|h| - 1].res, builders)
  {
  }

  lemma LeadsLinear(s0: State, q: State)
    requires Init(s0) && Leads(s0, q)
    ensures Replay(q.log.hist) == RegOf(q)
  {
    LeadsReachable(s0, q);
    LinearHere(q);
  }

  lemma OneMore(s0: State, q: State, h: History) returns (s: State)
    requires Init(s0) && h != [] && Ends(s0, q, h[..|h| - 1])
    requires ReadyFor(q, h[|h| - 1])
    requires Feasible(RegOf(q), h[|h| - 1].op, h[|h| - 1].res, s0.drivers.builders)
    ensures Ends(s0, s, h)
  {
    s := NextEvent(s0, q, h[|h| - 1]);
    assert h[..|h| - 1] + [h[|h| - 1]] == h;
  }

  // Every such history of the atomic registry is the history of a run, at the end of which
  // all calls have returned.
  lemma {:induction false} EveryHistoryRuns(s0: State, h: History) returns (s: State)
    requires Init(s0) && OneByOne(h, s0.drivers.builders)
    ensures Ends(s0, s, h)
  {
    if h == [] {
      s := s0;
      NothingDone(s0);
    } else {
      OneByOneLess(h, s0.drivers.builders);
      var q := EveryHistoryRuns(s0, h[..|h| - 1]);
      LeadsLinear(s0, q);
      LastNew(q, h, s0.drivers.builders);
      s := OneMore(s0, q, h);
    }
  }

  // The step is open to the call.
  ghost predicate May(s: State, t: CallId, a: Action) { exists s' :: Takes(s, t, a, s') }

  lemma MayBy(s: State, t: CallId, a: Action, s': State)
    requires Takes(s, t, a, s')
    ensures May(s, t, a)
  {
  }

  // Any call may be made, any context may end, and any driver may be added until the
  // builders are frozen.
  lemma CallersMay(s: State, t: CallId, op: Op, d: string, b: nat)
    ensures t !in s.threads ==> May(s, t, Other(Start(op)))
    ensures t in s.threads && !s.threads[t].cancelled ==> May(s, t, Other(Cancel))
    ensures !s.drivers.frozen && d !in s.drivers.builders ==> May(s, t, AddDriver(d, b))
  {
    if t in s.threads {
      if !s.threads[t].cancelled {
        MayBy(s, t, Other(Cancel), s.(threads := s.threads[t := s.threads[t].(cancelled := true)]));
      }
    } else {
      MayBy(s, t, Other(Start(op)), s.(threads := s.threads[t := Thread(op, Begin, Direct, false, 1, None)]));
    }
    if !s.drivers.frozen && d !in s.drivers.builders {
      MayBy(s, t, AddDriver(d, b), s.(drivers := s.drivers.(builders := s.drivers.builders[d := b])));
    }
  }

  lemma AnyConfiguration(s: State, t: CallId, cfg: map<Name, Config>, first: Name)
    requires t !in s.threads && (cfg != map[] && "" !in cfg ==> first in cfg)
    ensures May(s, t, Other(StartConfigure(cfg, first)))
  {
    var idle := Thread(List, Done(Nothing), Configure(cfg, cfg, [], Publishing), false, 0, None);
    var th := if "" in cfg then idle.(caller := idle.caller.(phase := Finished(false)))
              else if cfg == map[] then idle.(caller := idle.caller.(phase := Finished(true)))
              else BeginPublish(idle, first);
    MayBy(s, t, Other(StartConfigure(cfg, first)), s.(threads := s.threads[t := th]));
  }

  // A driver may fail, or, if there is one, return any client that is new.
  lemma DriversMay(s: State, t: CallId, c: ClientId)
    requires Reachable(s) && t in s.threads && s.threads[t].pc.Opening?
    ensures May(s, t, Registering(OpenFails))
    ensures s.threads[t].op.cfg.driver in s.drivers.builders && c !in s.custody.clients ==>
      May(s, t, Registering(OpenSucceeds(c)))
  {
    ShapedHere(s);
    var th := s.threads[t];
    assert Fits(th);
    MayBy(s, t, Registering(OpenFails),
          s.(threads := s.threads[t := Answered(th, Finish, OpenFailed)], log := Record(s.log, t, th, OpenFailed)));
    if th.op.cfg.driver in s.drivers.builders && c !in s.custody.clients {
      MayBy(s, t, Registering(OpenSucceeds(c)),
            s.(threads := s.threads[t := th.(pc := Opened(c))],
               custody := s.custody.(clients := s.custody.clients[c := HeldBy(t)])));
    }
  }

  // fn may end in any way; and where a token is there and the context has ended, the
  // select may go either way.
  lemma RunsMay(s: State, t: CallId, out: Outcome)
    requires Reachable(s) && t in s.threads
    ensures s.threads[t].pc.InFn? && out in {Value, Failed, Canceled, Panicked} ==>
      May(s, t, Running(FnReturns(out)))
    ensures s.threads[t].pc.Select? && s.threads[t].cancelled ==> May(s, t, Running(GiveUp))
    ensures s.threads[t].pc.Select? ==>
      s.threads[t].pc.entry in s.heap
      && (s.heap[s.threads[t].pc.entry].tokens > 0 ==> May(s, t, Running(Grant)))
  {
    ShapedHere(s);
    var th := s.threads[t];
    assert Fits(th);
    if th.pc.InFn? && out in {Value, Failed, Canceled, Panicked} {
      MayBy(s, t, Running(FnReturns(out)), s.(threads := s.threads[t := th.(pc := Returned(th.pc.entry, out))]));
    }
    if th.pc.Select? {
      NoUseAfterClose(s, t, th.pc.entry);
      SelectMay(s, t, th.pc.entry);
    }
  }

  lemma SelectMay(s: State, t: CallId, e: EntryId)
    requires t in s.threads && IsRun(s.threads[t].op) && s.threads[t].pc == Select(e) && e in s.heap
    ensures s.threads[t].cancelled ==> May(s, t, Running(GiveUp))
    ensures s.heap[e].tokens > 0 ==> May(s, t, Running(Grant))
  {
    var th := s.threads[t];
    if th.cancelled {
      MayBy(s, t, Running(GiveUp), s.(threads := s.threads[t := th.(pc := Refused(e))]));
    }
    if s.heap[e].tokens > 0 {
      MayBy(s, t, Running(Grant), s.(threads := s.threads[t := th.(pc := Granted(e))],
                                     heap := s.heap[e := s.heap[e].(tokens := s.heap[e].tokens - 1)]));
    }
  }
}
