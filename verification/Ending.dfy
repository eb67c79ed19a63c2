// What a removal has finished with when it returns, and what closing ends for good.
module Ending {
  import opened Basics
  import opened Registry
  import opened Protocol
  import opened Counting
  import opened Shape
  import opened Counters
  import opened Lifecycle

  // The entries a removal took out of the map.
  function BatchOf(res: Option<Result>): set<EntryId> {
    match res
    case Some(Removed(e)) => {e}
    case Some(RemovedAll(batch, _)) => batch
    case _ => {}
  }

  // Each entry the removal took is still its own, or closed.
  ghost predicate Working(heap: Heap, th: Thread) {
    forall e :: e in BatchOf(th.res) ==> e in heap && (e in Owned(th.pc) || heap[e].stage.Shut?)
  }

  ghost predicate Closing(d: Dir, th: Thread) {
    th.op.RemoveAll? && th.res.Some? ==> d.closed && (th.pc.Done? ==> d.openings == 0)
  }

  ghost predicate Settled(s: State) {
    && (forall t :: t in s.threads ==> Working(s.heap, s.threads[t]))
    && (forall t :: t in s.threads ==> Closing(s.dir, s.threads[t]))
    && (forall t :: t in s.threads && s.threads[t].pc.Opening? ==> s.drivers.frozen)
  }

  // Closed, frozen and shut are for ever; once closed, openings never rise.
  ghost predicate Settles(s: State, s': State) {
    && (s.dir.closed ==> s'.dir.closed && s'.dir.openings <= s.dir.openings)
    && (s.drivers.frozen ==> s'.drivers.frozen && s'.drivers.builders == s.drivers.builders)
    && s.heap.Keys <= s'.heap.Keys
    && (forall e :: e in s.heap && s.heap[e].stage.Shut? ==> s'.heap[e].stage.Shut?)
  }

  ghost predicate Ends(s': State, now: Thread) {
    && Working(s'.heap, now)
    && Closing(s'.dir, now)
    && (now.pc.Opening? ==> s'.drivers.frozen)
  }

  lemma KeepEnding(s: State, t: CallId, s': State)
    requires Settled(s) && Counted(s') && t in s'.threads && s'.threads == s.threads[t := s'.threads[t]]
    requires Settles(s, s') && Ends(s', s'.threads[t])
    ensures Settled(s')
  {
  }

  lemma RegisterSettles(s: State, t: CallId, th: Thread, a: RegisterStep, th': Thread, s': State)
    requires StepRegister(s, t, th, a, th', s') && Fits(th)
    ensures Settles(s, s') && Ends(s', th')
  {
  }

  lemma NotifySettles(s: State, t: CallId, th: Thread, a: NotifyStep, th': Thread, s': State)
    requires StepNotify(s, t, th, a, th', s') && Fits(th) && Working(s.heap, th) && Closing(s.dir, th)
    ensures Settles(s, s') && Ends(s', th')
  {
  }

  lemma RemoveSettles(s: State, t: CallId, th: Thread, a: RemoveStep, th': Thread, s': State)
    requires StepRemove(s, t, th, a, th', s') && Mapped(s.dir, s.heap)
    ensures Settles(s, s')
  {
  }

  lemma RemoveEnds(s: State, t: CallId, th: Thread, a: RemoveStep, th': Thread, s': State)
    requires StepRemove(s, t, th, a, th', s') && Fits(th) && Working(s.heap, th) && Closing(s.dir, th)
    requires Mapped(s.dir, s.heap)
    ensures Ends(s', th')
  {
    RemoveWorks(s, t, th, a, th', s');
  }

  lemma RemoveWorks(s: State, t: CallId, th: Thread, a: RemoveStep, th': Thread, s': State)
    requires StepRemove(s, t, th, a, th', s') && Fits(th) && Working(s.heap, th) && Mapped(s.dir, s.heap)
    ensures Working(s'.heap, th')
  {
    match a
    case RemoveFirst => TakeWorks(s, t, th, a, th', s');
    case Swap(_) => TakeWorks(s, t, th, a, th', s');
    case CloseClient => CloseWorks(s, t, th, th', s');
    case _ => WaitWorks(s, t, th, a, th', s');
  }

  lemma TakeWorks(s: State, t: CallId, th: Thread, a: RemoveStep, th': Thread, s': State)
    requires StepRemove(s, t, th, a, th', s') && (a.RemoveFirst? || a.Swap?) && Mapped(s.dir, s.heap)
    ensures Working(s'.heap, th')
  {
  }

  lemma CloseWorks(s: State, t: CallId, th: Thread, th': Thread, s': State)
    requires StepRemove(s, t, th, CloseClient, th', s') && Fits(th) && Working(s.heap, th)
    ensures Working(s'.heap, th')
  {
  }

  lemma WaitWorks(s: State, t: CallId, th: Thread, a: RemoveStep, th': Thread, s': State)
    requires StepRemove(s, t, th, a, th', s') && !a.RemoveFirst? && !a.Swap? && !a.CloseClient?
    requires Fits(th) && Working(s.heap, th)
    ensures Working(s'.heap, th')
  {
  }

  lemma RunSettles(s: State, t: CallId, th: Thread, a: RunStep, th': Thread, s': State)
    requires StepRun(s, t, th, a, th', s') && Fits(th)
    ensures Settles(s, s') && Ends(s', th')
  {
    RunStages(s, t, th, a, th', s');
    RunEnds(s, t, th, a, th', s');
  }

  lemma RunEnds(s: State, t: CallId, th: Thread, a: RunStep, th': Thread, s': State)
    requires StepRun(s, t, th, a, th', s') && Fits(th)
    ensures BatchOf(th'.res) == {} && !th'.op.RemoveAll? && !th'.pc.Opening?
  {
  }

  lemma OtherSettles(s: State, t: CallId, a: OtherStep, th': Thread, s': State)
    requires StepOther(s, t, a, th', s')
    requires t in s.threads ==> Fits(s.threads[t]) && Ends(s, s.threads[t])
    ensures Settles(s, s') && Ends(s', th')
  {
  }
}
