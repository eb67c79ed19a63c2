// What the guards of single steps are for: the mutex, the first check of register, the
// registration of drivers, and the ends of Configure.
module Guards {
  import opened Basics
  import opened Registry
  import opened Protocol
  import opened Shape
  import opened Lifecycle
  import opened Rollback
  import opened Linearity
  import opened Safety
  import opened Runs
  import opened Answers

  // The map, the closed flag and all answers are what the operations so far make them.
  lemma HistoryTells(s: State)
    requires Reachable(s)
    ensures Tells(s.log.hist, |s.log.hist|, RegOf(s))
    ensures forall k :: 0 <= k < |s.log.hist| ==> Follows(s.log.hist, k)
  {
    LinearHere(s);
    LegalIsFollowing(s.log.hist);
    TellsAt(s.log.hist, |s.log.hist|);
    assert s.log.hist[..|s.log.hist|] == s.log.hist;
  }

  // What goes on while some call holds mu: openings may fail, and that is all that is answered.
  ghost predicate Outside(s: State, s': State) {
    && s'.dir.entries == s.dir.entries && s'.dir.closed == s.dir.closed && s'.heap.Keys == s.heap.Keys
    && (forall e :: e in s.heap ==> s'.heap[e].wg <= s.heap[e].wg)
    && s.log.hist <= s'.log.hist
    && (forall k :: |s.log.hist| <= k < |s'.log.hist| ==>
          s'.log.hist[k].res.OpenFailed? || s'.log.hist[k].res.NameRequired?)
  }

  lemma RegisterOutside(s: State, t: CallId, th: Thread, a: RegisterStep, th': Thread, s': State)
    requires StepRegister(s, t, th, a, th', s') && s.locks.mu.Some?
    ensures Outside(s, s')
  {
  }

  lemma RemoveOutside(s: State, t: CallId, th: Thread, a: RemoveStep, th': Thread, s': State)
    requires StepRemove(s, t, th, a, th', s') && s.locks.mu.Some?
    ensures Outside(s, s')
  {
  }

  lemma RunOutside(s: State, t: CallId, th: Thread, a: RunStep, th': Thread, s': State)
    requires StepRun(s, t, th, a, th', s') && s.locks.mu.Some?
    ensures Outside(s, s')
  {
  }

  lemma OtherOutside(s: State, t: CallId, a: OtherStep, th': Thread, s': State)
    requires StepOther(s, t, a, th', s') && s.locks.mu.Some?
    ensures Outside(s, s')
  {
  }

  lemma NotifyOutside(s: State, t: CallId, th: Thread, a: NotifyStep, th': Thread, s': State)
    requires StepNotify(s, t, th, a, th', s')
    ensures Outside(s, s')
  {
  }

  // Mutual exclusion: between a mutation and its hand-over to observerMu nothing is
  // registered, removed, admitted or listed.
  lemma MuExcludes(s: State, s': State)
    requires Step(s, s') && s.locks.mu.Some?
    ensures Outside(s, s')
  {
    var t, a :| Takes(s, t, a, s');
    match a
    case Registering(r) => RegisterOutside(s, t, s.threads[t], r, s'.threads[t], s');
    case Notifying(n) => NotifyOutside(s, t, s.threads[t], n, s'.threads[t], s');
    case Removing(r) => RemoveOutside(s, t, s.threads[t], r, s'.threads[t], s');
    case Running(r) => RunOutside(s, t, s.threads[t], r, s'.threads[t], s');
    case Other(o) => OtherOutside(s, t, o, s'.threads[t], s');
    case AddDriver(_, _) =>
  }

  // A call that begins to open, if it did not before.
  ghost predicate BeginsOpening(s: State, t: CallId, s': State) {
    t in s'.threads && s'.threads[t].pc.Opening? && !(t in s.threads && s.threads[t].pc.Opening?)
  }

  lemma RegisterBegins(s: State, t: CallId, th: Thread, a: RegisterStep, th': Thread, s': State)
    requires StepRegister(s, t, th, a, th', s') && th'.pc.Opening?
    ensures th.pc.Begin? && th'.op == th.op && th.op.Register? && th.op.name != ""
    ensures !s.dir.closed && th.op.name !in s.dir.entries && s'.dir.openings == s.dir.openings + 1
  {
  }

  lemma NotOpening(s: State, t: CallId, a: Action, s': State)
    requires Takes(s, t, a, s') && !a.Registering? && t in s'.threads && s'.threads[t].pc.Opening?
    ensures t in s.threads && s.threads[t].pc.Opening?
  {
  }

  // A register that is bound to be refused opens nothing: it goes to its driver only from
  // an open Directory that has no such name, and is counted among the openings from then on.
  lemma OpensOnlyAbsent(s: State, t: CallId, s': State)
    requires Step(s, s') && BeginsOpening(s, t, s')
    ensures var op := s'.threads[t].op;
      op.Register? && op.name != "" && !s.dir.closed && op.name !in s.dir.entries
    ensures s'.dir.openings == s.dir.openings + 1
  {
    var u, a :| Takes(s, u, a, s');
    OthersStay(s, u, a, s');
    if a.Registering? {
      RegisterBegins(s, u, s.threads[u], a.reg, s'.threads[u], s');
    } else if u == t {
      NotOpening(s, u, a, s');
    }
  }

  lemma DriverAdded(s: State, s': State)
    requires Step(s, s')
    ensures forall d :: d in s.drivers.builders ==>
      d in s'.drivers.builders && s'.drivers.builders[d] == s.drivers.builders[d]
  {
    var t, a :| Takes(s, t, a, s');
    if !a.AddDriver? {
      SameBuilders(s, t, a, s');
    }
  }

  lemma SameBuilders(s: State, t: CallId, a: Action, s': State)
    requires Takes(s, t, a, s') && !a.AddDriver?
    ensures s'.drivers.builders == s.drivers.builders
  {
  }

  ghost predicate DriversKept(r: seq<State>) {
    forall i, j :: 0 <= i < j < |r| && j == i + 1 ==>
      forall d :: d in r[i].drivers.builders ==>
        d in r[j].drivers.builders && r[j].drivers.builders[d] == r[i].drivers.builders[d]
  }

  lemma RunKeepsDrivers(r: seq<State>)
    requires Run(r)
    ensures DriversKept(r)
  {
    forall i, j | 0 <= i < j < |r| && j == i + 1
      ensures forall d :: d in r[i].drivers.builders ==>
        d in r[j].drivers.builders && r[j].drivers.builders[d] == r[i].drivers.builders[d]
    {
      DriverAdded(r[i], r[j]);
    }
  }

  lemma {:induction false} DriverStays(r: seq<State>, i: nat, j: nat, d: string)
    requires DriversKept(r) && i <= j < |r| && d in r[i].drivers.builders
    ensures d in r[j].drivers.builders && r[j].drivers.builders[d] == r[i].drivers.builders[d]
    decreases j
  {
    if i < j {
      DriverStays(r, i, j - 1, d);
    }
  }

  // A driver, once registered, stays the one registered under its name.
  lemma DriversStay(r: seq<State>, i: nat, j: nat, d: string)
    requires Run(r) && i <= j < |r| && d in r[i].drivers.builders
    ensures d in r[j].drivers.builders && r[j].drivers.builders[d] == r[i].drivers.builders[d]
  {
    RunKeepsDrivers(r);
    DriverStays(r, i, j, d);
  }

  // A rollback removes what was published in the order in which it was published: what
  // comes before the entry it is at is out of the map.
  ghost predicate InTurn(d: Dir, heap: Heap, th: Thread, ps: seq<Published>, k: int) {
    && 0 <= k < |ps| && th.op == Remove(ps[k].name, Some(ps[k].entry))
    && forall i :: 0 <= i < k ==> ps[i].entry in heap && ps[i].entry !in d.entries.Values
  }

  lemma ConfiguringInTurn(d: Dir, heap: Heap, t: CallId, th: Thread)
    requires Configuring(heap, t, th) && FitsCaller(th) && Mapped(d, heap)
    requires th.caller.Configure? && th.caller.phase.RollingBack?
    ensures InTurn(d, heap, th, th.caller.published, |th.caller.published| - |th.caller.phase.rest|)
  {
    var ps, rest := th.caller.published, th.caller.phase.rest;
    var k := |ps| - |rest|;
    assert ps[k] == rest[0];
    forall i | 0 <= i < k ensures ps[i].entry in heap && ps[i].entry !in d.entries.Values {
      assert ps[..k][i] == ps[i];
      assert IsDead(heap, ps[i].entry);
    }
  }

  lemma RollsBackInOrder(s: State, t: CallId)
    requires Reachable(s) && t in s.threads && s.threads[t].caller.Configure?
    requires s.threads[t].caller.phase.RollingBack?
    ensures var c := s.threads[t].caller;
      InTurn(s.dir, s.heap, s.threads[t], c.published, |c.published| - |c.phase.rest|)
  {
    ConfiguredHere(s);
    ShapedHere(s);
    LivesHere(s);
    ConfiguringInTurn(s.dir, s.heap, t, s.threads[t]);
  }

  // A configuration with an empty name is refused before anything is begun.
  predicate RefusedWhole(th: Thread) {
    th.caller.Configure? && "" in th.caller.cfg ==>
      th.ops == 0 && th.pc.Done? && th.caller.phase == Finished(false) && th.caller.published == []
  }

  // A call whose operation has returned does nothing in it any more.
  lemma DoneIsDone(s: State, t: CallId, a: Action, s': State)
    requires Takes(s, t, a, s') && !a.Other? && !a.AddDriver?
    ensures !s.threads[t].pc.Done?
  {
  }

  lemma WorkRefused(s: State, t: CallId, a: Action, s': State)
    requires Takes(s, t, a, s') && !a.Other? && t in s.threads && RefusedWhole(s.threads[t])
    ensures t in s'.threads && RefusedWhole(s'.threads[t])
  {
    SameConfiguration(s, t, a, s');
    if !a.AddDriver? {
      DoneIsDone(s, t, a, s');
    }
  }

  lemma OtherRefused(s: State, t: CallId, a: OtherStep, th': Thread, s': State)
    requires StepOther(s, t, a, th', s') && (t in s.threads ==> RefusedWhole(s.threads[t]))
    ensures RefusedWhole(th')
  {
  }

  ghost predicate AllRefused(s: State) { forall t :: t in s.threads ==> RefusedWhole(s.threads[t]) }

  lemma StepRefused(s: State, s': State)
    requires AllRefused(s) && Step(s, s')
    ensures AllRefused(s')
  {
    var t, a :| Takes(s, t, a, s');
    OthersStay(s, t, a, s');
    if a.Other? {
      OtherRefused(s, t, a.other, s'.threads[t], s');
    } else if t in s.threads {
      WorkRefused(s, t, a, s');
    }
  }

  ghost predicate KeepsRefused(r: seq<State>) {
    |r| > 0 && AllRefused(r[0]) &&
    forall i, j :: 0 <= i < j < |r| && j == i + 1 && AllRefused(r[i]) ==> AllRefused(r[j])
  }

  lemma RunKeepsRefused(r: seq<State>)
    requires Run(r) && Init(r[0])
    ensures KeepsRefused(r)
  {
    forall i, j | 0 <= i < j < |r| && j == i + 1 && AllRefused(r[i]) ensures AllRefused(r[j]) {
      StepRefused(r[i], r[j]);
    }
  }

  lemma {:induction false} RefusedAt(r: seq<State>, i: nat)
    requires KeepsRefused(r) && i < |r|
    ensures AllRefused(r[i])
  {
    if i > 0 {
      RefusedAt(r, i - 1);
    }
  }

  lemma EmptyNameRefused(s: State, t: CallId)
    requires Reachable(s) && t in s.threads && s.threads[t].caller.Configure? && "" in s.threads[t].caller.cfg
    ensures Returns(s.threads[t]) && s.threads[t].caller.phase == Finished(false)
    ensures s.threads[t].ops == 0 && forall k :: 0 <= k < |s.log.hist| ==> s.log.hist[k].call != t
  {
    var r :| Run(r) && Init(r[0]) && r[|r| - 1] == s;
    RunKeepsRefused(r);
    RefusedAt(r, |r| - 1);
    LinearHere(s);
    NeverHeardOf(s.log.hist, t);
  }
}
