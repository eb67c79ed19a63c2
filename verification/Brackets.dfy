// Each admitted Run makes one acquire callback, and one complete callback
// exactly when the throttle let it through, with the outcome the Run returns.
module Brackets {
  import opened Basics
  import opened Protocol
  import opened Counting
  import opened Shape
  import opened Callbacks

  predicate IsOf(cb: Callback, t: CallId) { (cb.AcquireDone? || cb.RunDone?) && cb.call == t }

  // The callbacks one call has made.
  function OfCall(trace: seq<Callback>, t: CallId): seq<Callback> {
    if trace == [] then []
    else OfCall(trace[..|trace| - 1], t) + if IsOf(trace[|trace| - 1], t) then [trace[|trace| - 1]] else []
  }

  // The callbacks a call has to have made when it returns, or waits to return, with `out`.
  function Made(t: CallId, n: Name, out: Outcome): seq<Callback> {
    match out
    case Nothing => []
    case GaveUp => [AcquireDone(n, false, t)]
    case _ => [AcquireDone(n, true, t), RunDone(n, out, t)]
  }

  // The callbacks a call has to have made by now.
  function Due(t: CallId, th: Thread): seq<Callback> {
    if !IsRun(th.op) then [] else
    match th.pc
    case InFn(_) => [AcquireDone(th.op.name, true, t)]
    case Returned(_, _) => [AcquireDone(th.op.name, true, t)]
    case TokenBack(_, out) => Made(t, th.op.name, out)
    case Release(_, out) => Made(t, th.op.name, out)
    case Done(out) => Made(t, th.op.name, out)
    case _ => []
  }

  ghost predicate Bracketed(s: State) {
    s.observed ==> forall t: CallId :: OfCall(s.log.trace, t) == Due(t, ThreadOf(s, t))
  }

  lemma ExtendOfCall(trace: seq<Callback>, cb: Callback, t: CallId)
    ensures OfCall(trace + [cb], t) == OfCall(trace, t) + if IsOf(cb, t) then [cb] else []
  {
    assert (trace + [cb])[..|trace|] == trace;
  }

  // At most one callback is delivered; it is the mover's next one, or no Run's.
  ghost predicate BracketFollows(s: State, t: CallId, was: Thread, now: Thread, cb: Callback, s': State) {
    s'.observed == s.observed &&
    (s.observed ==>
      || (s'.log.trace == s.log.trace && Due(t, now) == Due(t, was))
      || (s'.log.trace == s.log.trace + [cb] && !cb.AcquireDone? && !cb.RunDone? && Due(t, now) == Due(t, was))
      || (s'.log.trace == s.log.trace + [cb] && IsOf(cb, t) && Due(t, now) == Due(t, was) + [cb]))
  }

  lemma KeepBrackets(s: State, t: CallId, cb: Callback, s': State)
    requires Bracketed(s) && t in s'.threads && s'.threads == s.threads[t := s'.threads[t]]
    requires BracketFollows(s, t, ThreadOf(s, t), s'.threads[t], cb, s')
    ensures Bracketed(s')
  {
    if s.observed {
      forall u: CallId ensures OfCall(s'.log.trace, u) == Due(u, ThreadOf(s', u)) {
        assert OfCall(s.log.trace, u) == Due(u, ThreadOf(s, u));
        ExtendOfCall(s.log.trace, cb, u);
      }
    }
  }

  lemma RegisterBrackets(s: State, t: CallId, th: Thread, a: RegisterStep, th': Thread, cb: Callback, s': State)
    requires StepRegister(s, t, th, a, th', s')
    ensures BracketFollows(s, t, th, th', cb, s')
  {
  }

  lemma NotifyBrackets(s: State, t: CallId, th: Thread, a: NotifyStep, th': Thread, cb: Callback, s': State)
    requires StepNotify(s, t, th, a, th', s')
    requires a.Deliver? ==> cb == th.pc.events[0] && IsLifecycle(cb)
    ensures BracketFollows(s, t, th, th', cb, s')
  {
  }

  lemma RemoveBrackets(s: State, t: CallId, th: Thread, a: RemoveStep, th': Thread, cb: Callback, s': State)
    requires StepRemove(s, t, th, a, th', s')
    ensures BracketFollows(s, t, th, th', cb, s')
  {
  }

  lemma RunBrackets(s: State, t: CallId, th: Thread, a: RunStep, th': Thread, s': State)
    requires StepRun(s, t, th, a, th', s') && (th.pc.Returned? ==> !th.pc.out.Nothing? && !th.pc.out.GaveUp?)
    ensures BracketFollows(s, t, th, th', CallbackOf(t, th), s')
  {
  }

  lemma OtherBrackets(s: State, t: CallId, a: OtherStep, th': Thread, cb: Callback, s': State)
    requires StepOther(s, t, a, th', s') && (t in s.threads ==> FitsCaller(s.threads[t]))
    ensures BracketFollows(s, t, ThreadOf(s, t), th', cb, s')
  {
  }
}
