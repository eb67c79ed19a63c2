// What a Run's context decides: once it has ended before the throttle was asked, fn is
// never called; and only a Run whose context has ended gives up.
module Contexts {
  import opened Basics
  import opened Protocol
  import opened Shape
  import opened Safety
  import opened Runs

  // The Run has given up, or is about to.
  predicate GivesUp(pc: Pc) {
    pc.Refused? || (pc.Release? && pc.out.GaveUp?) || (pc.Done? && pc.out.GaveUp?)
  }

  ghost predicate Patient(s: State) {
    forall t :: t in s.threads && GivesUp(s.threads[t].pc) ==> s.threads[t].cancelled
  }

  // The context has ended, and the throttle has not been asked or has refused.
  predicate Doomed(th: Thread) {
    && th.cancelled && IsRun(th.op) && th.caller.Direct?
    && match th.pc
       case Begin => true
       case Check(_) => true
       case Refused(_) => true
       case Release(_, out) => out.GaveUp?
       case Done(out) => out.GaveUp? || out.Nothing?
       case _ => false
  }

  lemma RunWaits(s: State, t: CallId, th: Thread, a: RunStep, th': Thread, s': State)
    requires StepRun(s, t, th, a, th', s') && FitsOut(th.pc) && (GivesUp(th.pc) ==> th.cancelled)
    ensures GivesUp(th'.pc) ==> th'.cancelled
  {
  }

  lemma RunDoomed(s: State, t: CallId, th: Thread, a: RunStep, th': Thread, s': State)
    requires StepRun(s, t, th, a, th', s') && Doomed(th)
    ensures Doomed(th')
  {
  }

  // No other step of a call gives up, or takes one out of its doom.
  ghost predicate Keeps(th: Thread, th': Thread) {
    && (GivesUp(th'.pc) ==> GivesUp(th.pc) && th.cancelled && th'.cancelled)
    && (Doomed(th) ==> Doomed(th'))
  }

  lemma RegisterKeeps(s: State, t: CallId, th: Thread, a: RegisterStep, th': Thread, s': State)
    requires StepRegister(s, t, th, a, th', s')
    ensures Keeps(th, th')
  {
  }

  lemma NotifyKeeps(s: State, t: CallId, th: Thread, a: NotifyStep, th': Thread, s': State)
    requires StepNotify(s, t, th, a, th', s')
    ensures Keeps(th, th')
  {
  }

  lemma RemoveKeeps(s: State, t: CallId, th: Thread, a: RemoveStep, th': Thread, s': State)
    requires StepRemove(s, t, th, a, th', s')
    ensures Keeps(th, th')
  {
  }

  lemma OtherKeeps(s: State, t: CallId, a: OtherStep, th': Thread, s': State)
    requires StepOther(s, t, a, th', s')
    requires t in s.threads ==> (GivesUp(s.threads[t].pc) ==> s.threads[t].cancelled)
    ensures GivesUp(th'.pc) ==> th'.cancelled
    ensures t in s.threads && Doomed(s.threads[t]) ==> Doomed(th')
  {
  }

  lemma MoverKeeps(s: State, t: CallId, a: Action, s': State)
    requires Shaped(s) && Takes(s, t, a, s') && t in s'.threads
    requires t in s.threads ==> (GivesUp(s.threads[t].pc) ==> s.threads[t].cancelled)
    ensures GivesUp(s'.threads[t].pc) ==> s'.threads[t].cancelled
    ensures t in s.threads && Doomed(s.threads[t]) ==> Doomed(s'.threads[t])
  {
    match a {
      case Registering(r) => RegisterKeeps(s, t, s.threads[t], r, s'.threads[t], s');
      case Notifying(n) => NotifyKeeps(s, t, s.threads[t], n, s'.threads[t], s');
      case Removing(r) => RemoveKeeps(s, t, s.threads[t], r, s'.threads[t], s');
      case Running(r) =>
        assert Fits(s.threads[t]);
        RunWaits(s, t, s.threads[t], r, s'.threads[t], s');
        if Doomed(s.threads[t]) { RunDoomed(s, t, s.threads[t], r, s'.threads[t], s'); }
      case Other(o) => OtherKeeps(s, t, o, s'.threads[t], s');
      case AddDriver(_, _) =>
    }
  }

  lemma StepPatient(s: State, s': State)
    requires Shaped(s) && Patient(s) && Step(s, s')
    ensures Patient(s')
    ensures forall u :: u in s.threads && Doomed(s.threads[u]) ==> u in s'.threads && Doomed(s'.threads[u])
  {
    var t, a :| Takes(s, t, a, s');
    OthersStay(s, t, a, s');
    if t in s'.threads {
      MoverKeeps(s, t, a, s');
    }
  }

  lemma {:induction false} PatientAt(r: seq<State>, i: nat)
    requires Run(r) && Init(r[0]) && i < |r|
    ensures Patient(r[i])
  {
    if i > 0 {
      PatientAt(r, i - 1);
      RunReachable(r, i - 1);
      ShapedHere(r[i - 1]);
      StepPatient(r[i - 1], r[i]);
    }
  }

  // Only a Run whose context has ended gives up, whatever the throttle is like.
  lemma OnlyEndedGivesUp(s: State, t: CallId)
    requires Reachable(s) && t in s.threads && GivesUp(s.threads[t].pc)
    ensures s.threads[t].cancelled
  {
    var r :| Run(r) && Init(r[0]) && r[|r| - 1] == s;
    PatientAt(r, |r| - 1);
  }

  predicate IsDoomed(s: State, t: CallId) { t in s.threads && Doomed(s.threads[t]) }

  ghost predicate KeepsDoom(r: seq<State>, t: CallId) {
    forall m, n :: 0 <= m < n < |r| && n == m + 1 && IsDoomed(r[m], t) ==> IsDoomed(r[n], t)
  }

  lemma RunKeepsDoom(r: seq<State>, t: CallId)
    requires Run(r) && Init(r[0])
    ensures KeepsDoom(r, t)
  {
    forall m, n | 0 <= m < n < |r| && n == m + 1 && IsDoomed(r[m], t) ensures IsDoomed(r[n], t) {
      DoomNext(r, m, t);
    }
  }

  lemma DoomNext(r: seq<State>, m: nat, t: CallId)
    requires Run(r) && Init(r[0]) && m + 1 < |r| && IsDoomed(r[m], t)
    ensures IsDoomed(r[m + 1], t)
  {
    PatientAt(r, m);
    RunReachable(r, m);
    ShapedHere(r[m]);
    StepPatient(r[m], r[m + 1]);
  }

  lemma {:induction false} DoomedOn(r: seq<State>, i: nat, j: nat, t: CallId)
    requires KeepsDoom(r, t) && i <= j < |r| && IsDoomed(r[i], t)
    ensures IsDoomed(r[j], t)
    decreases j
  {
    if i < j {
      DoomedOn(r, i, j - 1, t);
    }
  }

  // A Run whose context ends before its Acquire looks at it is never let through, even
  // where there is no limit, and never calls fn: it is not admitted, or gives up.
  lemma EndedNeverRuns(r: seq<State>, i: nat, j: nat, t: CallId)
    requires Run(r) && Init(r[0]) && i <= j < |r| && t in r[i].threads && t in r[j].threads
    requires var th := r[i].threads[t];
      th.cancelled && IsRun(th.op) && th.caller.Direct? && (th.pc.Begin? || th.pc.Check?)
    ensures var pc := r[j].threads[t].pc;
      && !pc.Granted? && !pc.InFn? && !pc.Returned? && !pc.TokenBack?
      && (pc.Done? ==> pc.out.Nothing? || pc.out.GaveUp?)
  {
    RunKeepsDoom(r, t);
    DoomedOn(r, i, j, t);
  }
}
