// The Prometheus observer: a fold over delivered callbacks, whose gauges agree
// with the protocol.
module Metrics {
  import opened Basics
  import opened Protocol
  import opened Counting
  import opened Callbacks

  datatype Status = Ok | CanceledStatus | ErrorStatus

  // A panic reaches ObserveComplete as a plain error naming the panic value.
  function StatusOf(out: Outcome): Status {
    match out
    case Canceled => CanceledStatus
    case GaveUp => CanceledStatus
    case Failed => ErrorStatus
    case Panicked => ErrorStatus
    case _ => Ok
  }

  datatype Label = Label(source: Name, status: Status)

  datatype Gauges = Gauges(wait: map<Label, nat>, run: map<Label, nat>, inflight: map<Name, int>,
                           active: int, registered: nat, removed: nat)

  const ZERO := Gauges(map[], map[], map[], 0, 0, 0)

  function Get(m: map<Label, nat>, l: Label): nat { if l in m then m[l] else 0 }

  function Flying(g: Gauges, n: Name): int { if n in g.inflight then g.inflight[n] else 0 }

  function Observe(g: Gauges, cb: Callback): Gauges {
    match cb
    case SourceRegistered(_) => g.(active := g.active + 1, registered := g.registered + 1)
    case SourceRemoved(_) => g.(active := g.active - 1, removed := g.removed + 1)
    case AcquireDone(n, granted, _) =>
      var l := Label(n, if granted then Ok else CanceledStatus);
      var g' := g.(wait := g.wait[l := Get(g.wait, l) + 1]);
      if granted then g'.(inflight := g.inflight[n := Flying(g, n) + 1]) else g'
    case RunDone(n, out, _) =>
      var l := Label(n, StatusOf(out));
      g.(inflight := g.inflight[n := Flying(g, n) - 1], run := g.run[l := Get(g.run, l) + 1])
  }

  function Fold(trace: seq<Callback>): Gauges {
    if trace == [] then ZERO
    else Observe(Fold(trace[..|trace| - 1]), trace[|trace| - 1])
  }

  lemma ExtendFold(trace: seq<Callback>, cb: Callback)
    ensures Fold(trace + [cb]) == Observe(Fold(trace), cb)
  {
    assert (trace + [cb])[..|trace|] == trace;
  }

  // adapters/prometheus: the Observer and its metrics, updated in place.
  class Observer {
    var wait: map<Label, nat>
    var run: map<Label, nat>
    var inflight: map<Name, int>
    var sourcesTotal: int
    var registered: nat
    var removed: nat

    ghost function View(): Gauges
      reads this
    {
      Gauges(wait, run, inflight, sourcesTotal, registered, removed)
    }

    constructor ()
      ensures View() == ZERO
    {
      wait, run, inflight := map[], map[], map[];
      sourcesTotal, registered, removed := 0, 0, 0;
    }

    method ObserveSourceRegistered(source: Name)
      modifies this
      ensures View() == Observe(old(View()), SourceRegistered(source))
    {
      sourcesTotal := sourcesTotal + 1;
      registered := registered + 1;
    }

    method ObserveSourceRemoved(source: Name)
      modifies this
      ensures View() == Observe(old(View()), SourceRemoved(source))
    {
      sourcesTotal := sourcesTotal - 1;
      removed := removed + 1;
    }

    method ObserveAcquire(source: Name, granted: bool, ghost call: CallId)
      modifies this
      ensures View() == Observe(old(View()), AcquireDone(source, granted, call))
    {
      var l := Label(source, if granted then Ok else CanceledStatus);
      wait := wait[l := Get(wait, l) + 1];
      if granted {
        inflight := inflight[source := (if source in inflight then inflight[source] else 0) + 1];
      }
    }

    method ObserveComplete(source: Name, out: Outcome, ghost call: CallId)
      modifies this
      ensures View() == Observe(old(View()), RunDone(source, out, call))
    {
      inflight := inflight[source := (if source in inflight then inflight[source] else 0) - 1];
      var l := Label(source, StatusOf(out));
      run := run[l := Get(run, l) + 1];
    }
  }

  function RunsOf(g: Gauges, n: Name): nat {
    Get(g.run, Label(n, Ok)) + Get(g.run, Label(n, CanceledStatus)) + Get(g.run, Label(n, ErrorStatus))
  }

  ghost predicate Conserved(g: Gauges, n: Name) {
    && Get(g.wait, Label(n, Ok)) == RunsOf(g, n) + Flying(g, n)
    && g.active == g.registered - g.removed
  }

  lemma AcquireConserves(g: Gauges, source: Name, granted: bool, call: CallId, n: Name)
    requires Conserved(g, n)
    ensures Conserved(Observe(g, AcquireDone(source, granted, call)), n)
  {
  }

  lemma RunConserves(g: Gauges, source: Name, out: Outcome, call: CallId, n: Name)
    requires Conserved(g, n)
    ensures Conserved(Observe(g, RunDone(source, out, call)), n)
  {
  }

  lemma ObserveConserves(g: Gauges, cb: Callback, n: Name)
    requires Conserved(g, n)
    ensures Conserved(Observe(g, cb), n)
  {
    match cb
    case AcquireDone(source, granted, call) => AcquireConserves(g, source, granted, call, n);
    case RunDone(source, out, call) => RunConserves(g, source, out, call, n);
    case _ =>
  }

  // Over any sequence of callbacks: granted waits are completed Runs plus Runs
  // in flight, and active sources are registrations minus removals.
  lemma {:induction false} Conservation(trace: seq<Callback>, n: Name)
    ensures Conserved(Fold(trace), n)
  {
    if trace != [] {
      Conservation(trace[..|trace| - 1], n);
      ObserveConserves(Fold(trace[..|trace| - 1]), trace[|trace| - 1], n);
    }
  }

  // The delivered callbacks one counter counts.
  predicate Waited(cb: Callback, l: Label) {
    cb.AcquireDone? && cb.name == l.source && l.status == if cb.granted then Ok else CanceledStatus
  }

  predicate Ran(cb: Callback, l: Label) {
    cb.RunDone? && cb.name == l.source && l.status == StatusOf(cb.out)
  }

  ghost function Waits(trace: seq<Callback>, l: Label): set<nat> {
    set i: nat | i < |trace| && Waited(trace[i], l)
  }

  ghost function Rans(trace: seq<Callback>, l: Label): set<nat> {
    set i: nat | i < |trace| && Ran(trace[i], l)
  }

  lemma OneMore(was: set<nat>, now: set<nat>, n: nat, more: bool)
    requires n !in was && forall i: nat :: i in now <==> i in was || (i == n && more)
    ensures |now| == |was| + One(more)
  {
    assert now == was + if more then {n} else {};
  }

  lemma ExtendWaits(trace: seq<Callback>, cb: Callback, l: Label)
    ensures |Waits(trace + [cb], l)| == |Waits(trace, l)| + One(Waited(cb, l))
  {
    OneMore(Waits(trace, l), Waits(trace + [cb], l), |trace|, Waited(cb, l));
  }

  lemma ExtendRans(trace: seq<Callback>, cb: Callback, l: Label)
    ensures |Rans(trace + [cb], l)| == |Rans(trace, l)| + One(Ran(cb, l))
  {
    OneMore(Rans(trace, l), Rans(trace + [cb], l), |trace|, Ran(cb, l));
  }

  // Each histogram counts exactly the callbacks with its labels.
  lemma {:induction false} CountersCount(trace: seq<Callback>, l: Label)
    ensures Get(Fold(trace).wait, l) == |Waits(trace, l)|
    ensures Get(Fold(trace).run, l) == |Rans(trace, l)|
  {
    if trace == [] {
      assert Waits(trace, l) == {} && Rans(trace, l) == {};
    } else {
      var init, last := trace[..|trace| - 1], trace[|trace| - 1];
      CountersCount(init, l);
      ExtendWaits(init, last, l);
      ExtendRans(init, last, l);
      assert trace == init + [last];
    }
  }

  // The places in a sequence of callbacks at which a Run of this source ended in one of these ways.
  ghost function EndedIn(trace: seq<Callback>, n: Name, ways: set<Outcome>): set<nat> {
    set i: nat | i < |trace| && trace[i].RunDone? && trace[i].name == n && trace[i].out in ways
  }

  // Under "error" a source has the Runs that failed or panicked, under "canceled" those
  // whose context had ended, and under "ok" the others.
  lemma RunsByStatus(trace: seq<Callback>, n: Name)
    ensures Get(Fold(trace).run, Label(n, ErrorStatus)) == |EndedIn(trace, n, {Failed, Panicked})|
    ensures Get(Fold(trace).run, Label(n, CanceledStatus)) == |EndedIn(trace, n, {Canceled, GaveUp})|
    ensures Get(Fold(trace).run, Label(n, Ok)) == |EndedIn(trace, n, {Value, Nothing})|
  {
    CountersCount(trace, Label(n, ErrorStatus));
    CountersCount(trace, Label(n, CanceledStatus));
    CountersCount(trace, Label(n, Ok));
    assert Rans(trace, Label(n, ErrorStatus)) == EndedIn(trace, n, {Failed, Panicked});
    assert Rans(trace, Label(n, CanceledStatus)) == EndedIn(trace, n, {Canceled, GaveUp});
    assert Rans(trace, Label(n, Ok)) == EndedIn(trace, n, {Value, Nothing});
  }

  // The places at which a Run of this source was let through, or was not.
  ghost function Asked(trace: seq<Callback>, n: Name, granted: bool): set<nat> {
    set i: nat | i < |trace| && trace[i].AcquireDone? && trace[i].name == n && trace[i].granted == granted
  }

  // A wait is counted under "ok" or under "canceled", and never under "error".
  lemma WaitsByStatus(trace: seq<Callback>, n: Name)
    ensures Get(Fold(trace).wait, Label(n, Ok)) == |Asked(trace, n, true)|
    ensures Get(Fold(trace).wait, Label(n, CanceledStatus)) == |Asked(trace, n, false)|
    ensures Get(Fold(trace).wait, Label(n, ErrorStatus)) == 0
  {
    CountersCount(trace, Label(n, Ok));
    CountersCount(trace, Label(n, CanceledStatus));
    CountersCount(trace, Label(n, ErrorStatus));
    assert Waits(trace, Label(n, Ok)) == Asked(trace, n, true);
    assert Waits(trace, Label(n, CanceledStatus)) == Asked(trace, n, false);
    assert Waits(trace, Label(n, ErrorStatus)) == {};
  }

  // The places of registrations, or of removals.
  ghost function Places(trace: seq<Callback>, removed: bool): set<nat> {
    set i: nat | i < |trace| && if removed then trace[i].SourceRemoved? else trace[i].SourceRegistered?
  }

  // The two lifecycle counters count just their own callbacks.
  lemma {:induction false} EventsCount(trace: seq<Callback>)
    ensures Fold(trace).registered == |Places(trace, false)| && Fold(trace).removed == |Places(trace, true)|
  {
    if trace == [] {
      assert Places(trace, false) == {} && Places(trace, true) == {};
    } else {
      var init, last := trace[..|trace| - 1], trace[|trace| - 1];
      EventsCount(init);
      assert trace == init + [last];
      OneMore(Places(init, false), Places(trace, false), |init|, last.SourceRegistered?);
      OneMore(Places(init, true), Places(trace, true), |init|, last.SourceRemoved?);
    }
  }

  // The inflight gauge of a name is the number of Runs between their two callbacks.
  ghost predicate Metered(s: State) {
    s.observed ==> forall n: Name :: Flying(Fold(s.log.trace), n) == Count(s.threads, InFlight(n))
  }

  predicate Grounded(cb: Callback) { IsLifecycle(cb) || (cb.AcquireDone? && !cb.granted) }

  // How the delivered callbacks follow the mover into and out of flight.
  ghost predicate FlightFollows(s: State, f: Option<Name>, f': Option<Name>, cb: Callback, s': State) {
    s'.observed == s.observed &&
    (s.observed ==>
      || (f' == f && s'.log.trace == s.log.trace)
      || (s'.log.trace == s.log.trace + [cb] &&
          ((f' == f && Grounded(cb))
           || (f.None? && f'.Some? && cb.AcquireDone? && cb.name == f'.value && cb.granted)
           || (f.Some? && f'.None? && cb.RunDone? && cb.name == f.value))))
  }

  lemma KeepMetered(s: State, t: CallId, cb: Callback, s': State)
    requires Metered(s) && t in s'.threads && s'.threads == s.threads[t := s'.threads[t]]
    requires FlightFollows(s, FlightOf(ThreadOf(s, t)), FlightOf(s'.threads[t]), cb, s')
    ensures Metered(s')
  {
    if s.observed {
      ExtendFold(s.log.trace, cb);
      forall n: Name ensures Flying(Fold(s'.log.trace), n) == Count(s'.threads, InFlight(n)) {
        CountPut(s, t, s'.threads[t], InFlight(n));
      }
    }
  }

  lemma RegisterFlight(s: State, t: CallId, th: Thread, a: RegisterStep, th': Thread, cb: Callback, s': State)
    requires StepRegister(s, t, th, a, th', s')
    ensures FlightFollows(s, FlightOf(th), FlightOf(th'), cb, s')
  {
  }

  lemma NotifyFlight(s: State, t: CallId, th: Thread, a: NotifyStep, th': Thread, cb: Callback, s': State)
    requires StepNotify(s, t, th, a, th', s')
    requires a.Deliver? ==> cb == th.pc.events[0] && IsLifecycle(cb)
    ensures FlightFollows(s, FlightOf(th), FlightOf(th'), cb, s')
  {
  }

  lemma RemoveFlight(s: State, t: CallId, th: Thread, a: RemoveStep, th': Thread, cb: Callback, s': State)
    requires StepRemove(s, t, th, a, th', s')
    ensures FlightFollows(s, FlightOf(th), FlightOf(th'), cb, s')
  {
  }

  lemma RunFlight(s: State, t: CallId, th: Thread, a: RunStep, th': Thread, s': State)
    requires StepRun(s, t, th, a, th', s')
    ensures FlightFollows(s, FlightOf(th), FlightOf(th'), CallbackOf(t, th), s')
  {
  }

  lemma OtherFlight(s: State, t: CallId, a: OtherStep, th': Thread, cb: Callback, s': State)
    requires StepOther(s, t, a, th', s')
    ensures FlightFollows(s, FlightOf(ThreadOf(s, t)), FlightOf(th'), cb, s')
  {
  }
}
