// Lifecycle callbacks are delivered in the order of the mutations they report.
module Callbacks {
  import opened Basics
  import opened Registry
  import opened Protocol
  import opened Counting
  import opened Shape

  predicate IsLifecycle(cb: Callback) { cb.SourceRegistered? || cb.SourceRemoved? }

  function OfLifecycle(trace: seq<Callback>): seq<Callback> {
    if trace == [] then []
    else OfLifecycle(trace[..|trace| - 1]) +
         if IsLifecycle(trace[|trace| - 1]) then [trace[|trace| - 1]] else []
  }

  // What an operation changes in the set of names, one callback a name.
  function Changes(op: Op, res: Result): seq<Callback> {
    match (op, res)
    case (Register(n, _), Registered(_)) => [SourceRegistered(n)]
    case (Remove(n, _), Removed(_)) => [SourceRemoved(n)]
    case (RemoveAll, RemovedAll(_, order)) => Removals(order)
    case _ => []
  }

  function Mutations(h: History): seq<Callback> {
    if h == [] then []
    else Mutations(h[..|h| - 1]) + Changes(h[|h| - 1].op, h[|h| - 1].res)
  }

  function Events(pc: Pc): seq<Callback> {
    match pc
    case Handover(events, _) => events
    case Notify(events, _) => events
    case _ => []
  }

  // The callbacks the holder of a lock still has to deliver.
  function Pending(lock: Option<CallId>, ths: map<CallId, Thread>): seq<Callback> {
    if lock.Some? && lock.value in ths then Events(ths[lock.value].pc) else []
  }

  ghost predicate AllLifecycle(cbs: seq<Callback>) {
    forall i :: 0 <= i < |cbs| ==> IsLifecycle(cbs[i])
  }

  // Delivered, then pending at observerMu, then pending at mu: all mutations so far, in order.
  ghost predicate InOrder(s: State) {
    && AllLifecycle(Pending(s.locks.om, s.threads))
    && AllLifecycle(Pending(s.locks.mu, s.threads))
    && (s.observed ==>
          OfLifecycle(s.log.trace) + Pending(s.locks.om, s.threads) + Pending(s.locks.mu, s.threads) ==
          Mutations(s.log.hist))
    && (!s.observed ==> s.log.trace == [] && Pending(s.locks.om, s.threads) == [])
  }

  lemma ExtendTrace(trace: seq<Callback>, cb: Callback)
    ensures OfLifecycle(trace + [cb]) == OfLifecycle(trace) + if IsLifecycle(cb) then [cb] else []
  {
    assert (trace + [cb])[..|trace|] == trace;
  }

  lemma ExtendMutations(h: History, ev: Event)
    ensures Mutations(h + [ev]) == Mutations(h) + Changes(ev.op, ev.res)
  {
    assert (h + [ev])[..|h|] == h;
  }

  // At most one operation takes effect, and it changes no name.
  ghost predicate NoChange(h: History, t: CallId, now: Thread, h': History) {
    h' == h || (now.res.Some? && h' == h + [Event(t, now.op, now.res.value)] && Changes(now.op, now.res.value) == [])
  }

  // At most one callback is delivered, and it belongs to a Run.
  ghost predicate RunCallback(s: State, cb: Callback, s': State) {
    s'.log.trace == s.log.trace || (s.observed && s'.log.trace == s.log.trace + [cb] && !IsLifecycle(cb))
  }

  ghost predicate Aside(s: State, t: CallId, was: Pc, now: Thread, cb: Callback, s': State) {
    && s'.locks == s.locks && s'.observed == s.observed
    && Events(now.pc) == Events(was)
    && NoChange(s.log.hist, t, now, s'.log.hist)
    && RunCallback(s, cb, s')
  }

  lemma SamePending(lock: Option<CallId>, ths: map<CallId, Thread>, t: CallId, th: Thread)
    requires Events(th.pc) == if t in ths then Events(ths[t].pc) else []
    ensures Pending(lock, ths[t := th]) == Pending(lock, ths)
  {
  }

  lemma SameTrace(s: State, cb: Callback, s': State)
    requires RunCallback(s, cb, s')
    ensures OfLifecycle(s'.log.trace) == OfLifecycle(s.log.trace)
  {
    ExtendTrace(s.log.trace, cb);
  }

  lemma KeepAside(s: State, t: CallId, cb: Callback, s': State)
    requires InOrder(s) && t in s'.threads && s'.threads == s.threads[t := s'.threads[t]]
    requires Aside(s, t, ThreadOf(s, t).pc, s'.threads[t], cb, s')
    ensures InOrder(s')
  {
    var now := s'.threads[t];
    SamePending(s.locks.om, s.threads, t, now);
    SamePending(s.locks.mu, s.threads, t, now);
    SameMutations(s.log.hist, t, now, s'.log.hist);
    SameTrace(s, cb, s');
  }

  lemma SameMutations(h: History, t: CallId, now: Thread, h': History)
    requires NoChange(h, t, now, h')
    ensures Mutations(h') == Mutations(h)
  {
    if h' != h {
      ExtendMutations(h, Event(t, now.op, now.res.value));
    }
  }

  // The step mutates the names and takes mu.
  ghost predicate Mutates(s: State, t: CallId, now: Thread, s': State) {
    && s.locks.mu.None? && s'.locks == s.locks.(mu := Some(t)) && s'.observed == s.observed
    && s'.log.trace == s.log.trace && now.res.Some?
    && s'.log.hist == s.log.hist + [Event(t, now.op, now.res.value)]
    && now.pc.Handover? && now.pc.events == Changes(now.op, now.res.value)
  }

  lemma ChangesLifecycle(op: Op, res: Result)
    ensures AllLifecycle(Changes(op, res))
  {
  }

  // What is pending at mu comes last.
  lemma PendLast(delivered: seq<Callback>, om: seq<Callback>, more: seq<Callback>, all: seq<Callback>)
    requires delivered + om + [] == all
    ensures delivered + om + more == all + more
  {
  }

  lemma KeepMutates(s: State, t: CallId, s': State)
    requires InOrder(s) && Locked(s) && t in s.threads && t in s'.threads && s'.threads == s.threads[t := s'.threads[t]]
    requires !s.threads[t].pc.Notify? && Mutates(s, t, s'.threads[t], s')
    ensures InOrder(s')
  {
    var now := s'.threads[t];
    ExtendMutations(s.log.hist, Event(t, now.op, now.res.value));
    ChangesLifecycle(now.op, now.res.value);
    assert Pending(s'.locks.om, s'.threads) == Pending(s.locks.om, s.threads);
    if s.observed {
      PendLast(OfLifecycle(s.log.trace), Pending(s.locks.om, s.threads), now.pc.events, Mutations(s.log.hist));
    }
  }

  lemma KeepHandover(s: State, t: CallId, s': State)
    requires InOrder(s) && Locked(s) && t in s.threads && t in s'.threads
    requires StepNotify(s, t, s.threads[t], TakeObserverLock, s'.threads[t], s')
    ensures InOrder(s')
  {
    assert Pending(s.locks.mu, s.threads) == s.threads[t].pc.events;
    assert Pending(s.locks.om, s.threads) == [];
  }

  lemma DeliverFirst(trace: seq<Callback>, evs: seq<Callback>, rest: seq<Callback>)
    requires evs != [] && IsLifecycle(evs[0])
    ensures OfLifecycle(trace + [evs[0]]) + evs[1..] + rest == OfLifecycle(trace) + evs + rest
  {
    ExtendTrace(trace, evs[0]);
    assert evs == [evs[0]] + evs[1..];
  }

  lemma KeepDeliver(s: State, t: CallId, s': State)
    requires InOrder(s) && Locked(s) && t in s.threads && t in s'.threads
    requires StepNotify(s, t, s.threads[t], Deliver, s'.threads[t], s')
    ensures InOrder(s')
  {
    var evs := s.threads[t].pc.events;
    assert s.locks.om == Some(t) && IsLifecycle(Pending(s.locks.om, s.threads)[0]);
    DeliverFirst(s.log.trace, evs, Pending(s.locks.mu, s.threads));
  }

  lemma KeepUnlock(s: State, t: CallId, s': State)
    requires InOrder(s) && Locked(s) && t in s.threads && t in s'.threads
    requires StepNotify(s, t, s.threads[t], Unlock, s'.threads[t], s')
    ensures InOrder(s')
  {
    assert s.locks.om == Some(t);
    assert Pending(s.locks.om, s.threads) == [];
    assert Pending(s'.locks.mu, s'.threads) == Pending(s.locks.mu, s.threads);
  }

  lemma RegisterOrder(s: State, t: CallId, th: Thread, a: RegisterStep, th': Thread, cb: Callback, s': State)
    requires StepRegister(s, t, th, a, th', s')
    ensures Aside(s, t, th.pc, th', cb, s') || Mutates(s, t, th', s')
  {
  }

  lemma RemoveOrder(s: State, t: CallId, th: Thread, a: RemoveStep, th': Thread, cb: Callback, s': State)
    requires StepRemove(s, t, th, a, th', s')
    ensures Aside(s, t, th.pc, th', cb, s') || Mutates(s, t, th', s')
  {
  }

  // The callback a step of a Run makes, if it makes one.
  function CallbackOf(t: CallId, th: Thread): Callback
    requires IsRun(th.op)
  {
    match th.pc
    case Granted(_) => AcquireDone(th.op.name, true, t)
    case Returned(_, out) => RunDone(th.op.name, out, t)
    case _ => AcquireDone(th.op.name, false, t)
  }

  lemma RunOrder(s: State, t: CallId, th: Thread, a: RunStep, th': Thread, s': State)
    requires StepRun(s, t, th, a, th', s')
    ensures Aside(s, t, th.pc, th', CallbackOf(t, th), s')
  {
  }

  lemma OtherOrder(s: State, t: CallId, a: OtherStep, th': Thread, cb: Callback, s': State)
    requires StepOther(s, t, a, th', s') && (t in s.threads ==> Fits(s.threads[t]))
    ensures Aside(s, t, ThreadOf(s, t).pc, th', cb, s')
  {
  }
}
