// What every step keeps about each call on its own, and about the two locks.
module Shape {
  import opened Basics
  import opened Registry
  import opened Protocol
  import opened Counting

  ghost predicate FitsDrain(op: Op, res: Option<Result>, rest: set<EntryId>) {
    op.RemoveAll? && res.Some? && res.value.RemovedAll? && rest <= res.value.batch
  }

  ghost predicate FitsNext(op: Op, res: Option<Result>, next: Next) {
    match next
    case ToFinish => op.Register? && res.Some? && res.value.Registered?
    case ToWait(e) => op.Remove? && res == Some(Removed(e))
    case ToDrain(batch) => FitsDrain(op, res, batch)
  }

  ghost predicate FitsWait(op: Op, res: Option<Result>, e: EntryId, rest: set<EntryId>) {
    e !in rest && (FitsDrain(op, res, rest + {e}) || (op.Remove? && res == Some(Removed(e)) && rest == {}))
  }

  // The answers of a register that got as far as opening.
  predicate OpeningAnswer(res: Result) { res.Registered? || res.OpenFailed? || res.Closed? || res.AlreadyRegistered? }

  // Only fn's own outcomes leave fn; a Run that gave up never held a token.
  predicate FitsOut(pc: Pc) {
    match pc
    case Returned(_, out) => !out.Nothing? && !out.GaveUp?
    case TokenBack(_, out) => !out.Nothing? && !out.GaveUp?
    case Release(_, out) => !out.Nothing?
    case _ => true
  }

  // The program counter agrees with the operation, and with the answer it has taken effect with.
  ghost predicate FitsPc(op: Op, res: Option<Result>, pc: Pc) {
    match pc
    case Begin => res.None?
    case Opening => op.Register? && op.name != "" && res.None?
    case Opened(_) => op.Register? && op.name != "" && res.None?
    case Discard(_) => op.Register? && (res == Some(Closed) || res == Some(AlreadyRegistered))
    case Finish => op.Register? && res.Some? && OpeningAnswer(res.value)
    case Handover(_, next) => FitsNext(op, res, next)
    case Notify(_, next) => FitsNext(op, res, next)
    case Drain(rest) => FitsDrain(op, res, rest)
    case Wait(e, rest) => FitsWait(op, res, e, rest)
    case Close(e, rest) => FitsWait(op, res, e, rest)
    case WaitOpenings => FitsDrain(op, res, {})
    case Done(out) => res.Some? && (out.Nothing? <==> !(IsRun(op) && res.value.Admitted?))
    case _ => IsRun(op) && res == Some(Admitted(pc.entry)) && FitsOut(pc)
  }

  ghost predicate Unused(th: Thread) {
    && th.ops == 0 && th.op.List? && th.pc == Done(Nothing) && th.res.None?
    && th.caller.Configure? && th.caller.phase.Finished?
  }

  ghost predicate FitsCaller(th: Thread) {
    match th.caller
    case Direct => true
    case Configure(_, _, _, phase) =>
      match phase
      case Publishing => th.op.Register?
      case RollingBack(rest) => rest != [] && th.op == Remove(rest[0].name, Some(rest[0].entry))
      case Finished(_) => th.pc.Done?
  }

  ghost predicate Fits(th: Thread) {
    ((th.ops > 0 && FitsPc(th.op, th.res, th.pc)) || Unused(th)) && FitsCaller(th)
  }

  ghost predicate Shaped(s: State) {
    forall t :: t in s.threads ==> Fits(s.threads[t])
  }

  // Each lock is held by exactly the call whose program counter says so.
  ghost predicate Locked(s: State) {
    && (forall t :: t in s.threads ==> (s.threads[t].pc.Handover? <==> s.locks.mu == Some(t)))
    && (forall t :: t in s.threads ==> (s.threads[t].pc.Notify? <==> s.locks.om == Some(t)))
    && (s.locks.mu.Some? ==> s.locks.mu.value in s.threads)
    && (s.locks.om.Some? ==> s.locks.om.value in s.threads)
  }

  ghost predicate LocksFollow(l: Locks, t: CallId, was: Pc, now: Pc, l': Locks) {
    && l'.mu == (if now.Handover? then Some(t) else if was.Handover? then None else l.mu)
    && l'.om == (if now.Notify? then Some(t) else if was.Notify? then None else l.om)
    && (now.Handover? && !was.Handover? ==> l.mu.None?)
    && (now.Notify? && !was.Notify? ==> l.om.None?)
  }

  ghost predicate Holds(l: Locks, t: CallId, pc: Pc) {
    && (pc.Handover? <==> l.mu == Some(t))
    && (pc.Notify? <==> l.om == Some(t))
  }

  lemma KeepShaped(s: State, t: CallId, s': State)
    requires Shaped(s) && Locked(s)
    requires t in s'.threads && s'.threads == s.threads[t := s'.threads[t]] && Fits(s'.threads[t])
    requires LocksFollow(s.locks, t, ThreadOf(s, t).pc, s'.threads[t].pc, s'.locks)
    ensures Shaped(s') && Locked(s')
  {
  }

  lemma RegisterFits(s: State, t: CallId, th: Thread, a: RegisterStep, th': Thread, s': State)
    requires StepRegister(s, t, th, a, th', s') && Fits(th)
    ensures Fits(th') && LocksFollow(s.locks, t, th.pc, th'.pc, s'.locks)
  {
  }

  lemma NotifyFits(s: State, t: CallId, th: Thread, a: NotifyStep, th': Thread, s': State)
    requires StepNotify(s, t, th, a, th', s') && Fits(th) && Holds(s.locks, t, th.pc)
    ensures Fits(th') && LocksFollow(s.locks, t, th.pc, th'.pc, s'.locks)
  {
  }

  lemma RemoveFits(s: State, t: CallId, th: Thread, a: RemoveStep, th': Thread, s': State)
    requires StepRemove(s, t, th, a, th', s') && Fits(th)
    ensures Fits(th') && LocksFollow(s.locks, t, th.pc, th'.pc, s'.locks)
  {
  }

  lemma RunFits(s: State, t: CallId, th: Thread, a: RunStep, th': Thread, s': State)
    requires StepRun(s, t, th, a, th', s') && Fits(th)
    ensures Fits(th') && LocksFollow(s.locks, t, th.pc, th'.pc, s'.locks)
  {
    RunFitsPc(s, t, th, a, th', s');
    assert s'.locks == s.locks && !th.pc.Handover? && !th'.pc.Handover? && !th.pc.Notify? && !th'.pc.Notify?;
  }

  lemma RunFitsPc(s: State, t: CallId, th: Thread, a: RunStep, th': Thread, s': State)
    requires StepRun(s, t, th, a, th', s') && FitsPc(th.op, th.res, th.pc)
    ensures FitsPc(th'.op, th'.res, th'.pc)
    ensures th'.caller == th.caller && th'.ops == th.ops && !th.pc.Done?
  {
  }

  lemma OtherFits(s: State, t: CallId, a: OtherStep, th': Thread, s': State)
    requires StepOther(s, t, a, th', s')
    requires t in s.threads ==> Fits(s.threads[t]) && Holds(s.locks, t, s.threads[t].pc)
    ensures Fits(th') && LocksFollow(s.locks, t, ThreadOf(s, t).pc, th'.pc, s'.locks)
  {
  }
}
