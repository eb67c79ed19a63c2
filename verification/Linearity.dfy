// Every Directory operation takes effect at one step between its call and its
// return, and does there exactly what the atomic registry does.
module Linearity {
  import opened Basics
  import opened Registry
  import opened Protocol
  import opened Counting
  import opened Shape

  // The registry a state of the protocol stands for.
  ghost function RegOf(s: State): Reg {
    Reg(s.dir.entries, s.dir.closed, s.heap.Keys)
  }

  // A call's operations have taken effect once each, the current one only if it has an answer.
  ghost predicate Told(h: History, t: CallId, th: Thread) {
    && Effects(h, t) == th.ops - One(th.res.None? && th.ops > 0)
    && (th.res.Some? ==> LastOf(h, t) == Some(Event(t, th.op, th.res.value)))
  }

  ghost predicate Linear(s: State) {
    && LegalHistory(s.log.hist)
    && Replay(s.log.hist) == RegOf(s)
    && (forall t :: t in s.threads ==> Told(s.log.hist, t, s.threads[t]))
    && (forall t: CallId :: t !in s.threads ==> Effects(s.log.hist, t) == 0)
  }

  // The step takes no effect: at most it begins the next operation of the call.
  ghost predicate Silent(s: State, was: Thread, now: Thread, s': State) {
    && s'.log.hist == s.log.hist && RegOf(s') == RegOf(s)
    && ((now.ops == was.ops && now.op == was.op && now.res == was.res)
        || (now.ops == was.ops + 1 && now.res.None? && (was.res.Some? || was.ops == 0)))
  }

  // The step is the one at which the current operation takes effect.
  ghost predicate TakesEffect(s: State, t: CallId, was: Thread, now: Thread, s': State) {
    && was.res.None? && was.ops > 0 && now.res.Some? && now.ops == was.ops && now.op == was.op
    && s'.log.hist == s.log.hist + [Event(t, now.op, now.res.value)]
    && Legal(RegOf(s), now.op, now.res.value)
    && RegOf(s') == After(RegOf(s), now.op, now.res.value)
  }

  lemma KeepSilent(s: State, t: CallId, s': State)
    requires Linear(s) && t in s'.threads && s'.threads == s.threads[t := s'.threads[t]]
    requires Silent(s, ThreadOf(s, t), s'.threads[t], s')
    requires t !in s.threads ==> s'.threads[t].ops <= 1 && (s'.threads[t].ops == 1 || s'.threads[t].res.None?)
    ensures Linear(s')
  {
  }

  lemma KeepEffect(s: State, t: CallId, s': State)
    requires Linear(s) && t in s.threads && t in s'.threads && s'.threads == s.threads[t := s'.threads[t]]
    requires TakesEffect(s, t, s.threads[t], s'.threads[t], s')
    ensures Linear(s')
  {
    var ev := Event(t, s'.threads[t].op, s'.threads[t].res.value);
    Extend(s.log.hist, ev);
    forall u: CallId
      ensures u in s'.threads ==> Told(s'.log.hist, u, s'.threads[u])
      ensures u !in s'.threads ==> Effects(s'.log.hist, u) == 0
    {
      ExtendEffects(s.log.hist, ev, u);
    }
  }

  lemma RegisterLinear(s: State, t: CallId, th: Thread, a: RegisterStep, th': Thread, s': State)
    requires StepRegister(s, t, th, a, th', s') && Fits(th)
    ensures Silent(s, th, th', s') || TakesEffect(s, t, th, th', s')
  {
  }

  lemma NotifyLinear(s: State, t: CallId, th: Thread, a: NotifyStep, th': Thread, s': State)
    requires StepNotify(s, t, th, a, th', s')
    ensures Silent(s, th, th', s')
  {
  }

  lemma RemoveLinear(s: State, t: CallId, th: Thread, a: RemoveStep, th': Thread, s': State)
    requires StepRemove(s, t, th, a, th', s') && Fits(th)
    ensures Silent(s, th, th', s') || TakesEffect(s, t, th, th', s')
  {
  }

  lemma RunLinear(s: State, t: CallId, th: Thread, a: RunStep, th': Thread, s': State)
    requires StepRun(s, t, th, a, th', s') && Fits(th)
    ensures Silent(s, th, th', s') || TakesEffect(s, t, th, th', s')
  {
  }

  lemma OtherLinear(s: State, t: CallId, a: OtherStep, th': Thread, s': State)
    requires StepOther(s, t, a, th', s') && (t in s.threads ==> Fits(s.threads[t]))
    ensures Silent(s, ThreadOf(s, t), th', s') || (t in s.threads && TakesEffect(s, t, s.threads[t], th', s'))
  {
  }
}
