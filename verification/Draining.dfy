// A remover closes a client only when no admitted Run is left on its entry, and
// none is ever admitted again.
module Draining {
  import opened Basics
  import opened Protocol
  import opened Counting
  import opened Counters
  import opened Lifecycle

  predicate Idle(heap: Heap, e: EntryId) { e in heap && heap[e].wg == 0 }

  // An entry that is closed, or about to be, has no admitted Run.
  ghost predicate Rested(ths: Threads, heap: Heap) {
    && (forall e :: IsShut(heap, e) ==> Idle(heap, e))
    && (forall t :: t in ths && ths[t].pc.Close? ==> Idle(heap, ths[t].pc.entry))
  }

  // wg grows only on a live entry; an entry is shut only from Close.
  ghost predicate Rests(heap: Heap, was: Pc, now: Pc, heap': Heap) {
    && (forall e :: e in heap && !heap[e].stage.Live? ==> e in heap' && heap'[e].wg <= heap[e].wg)
    && (forall e :: IsShut(heap', e) ==> IsShut(heap, e) || (was.Close? && was.entry == e))
    && (now.Close? && !was.Close? ==> Idle(heap', now.entry))
    && (now.Close? && was.Close? ==> now == was)
  }

  lemma KeepRested(s: State, t: CallId, s': State)
    requires Lives(s) && Rested(s.threads, s.heap) && Counted(s')
    requires t in s'.threads && s'.threads == s.threads[t := s'.threads[t]]
    requires Rests(s.heap, ThreadOf(s, t).pc, s'.threads[t].pc, s'.heap)
    ensures Rested(s'.threads, s'.heap)
  {
    forall u | u in s.threads && s.threads[u].pc.Close? ensures Idle(s'.heap, s.threads[u].pc.entry) {
      StaysIdle(s, u, s');
    }
    assert forall e :: IsShut(s.heap, e) && Idle(s.heap, e) ==> Idle(s'.heap, e);
  }

  lemma StaysIdle(s: State, u: CallId, s': State)
    requires Removers(s.threads, s.heap) && Rested(s.threads, s.heap) && Counted(s')
    requires u in s.threads && s.threads[u].pc.Close?
    requires forall e :: e in s.heap && !s.heap[e].stage.Live? ==> e in s'.heap && s'.heap[e].wg <= s.heap[e].wg
    ensures Idle(s'.heap, s.threads[u].pc.entry)
  {
    var e := s.threads[u].pc.entry;
    CallOwns(s, u);
    assert IsTaken(s.heap, e, u);
    assert Idle(s.heap, e);
    assert Balanced(s'.heap[e], Count(s'.threads, User(e)), Count(s'.threads, TokenHolder(e)));
  }

  lemma RegisterRests(s: State, t: CallId, th: Thread, a: RegisterStep, th': Thread, s': State)
    requires StepRegister(s, t, th, a, th', s')
    ensures Rests(s.heap, th.pc, th'.pc, s'.heap)
  {
  }

  lemma NotifyRests(s: State, t: CallId, th: Thread, a: NotifyStep, th': Thread, s': State)
    requires StepNotify(s, t, th, a, th', s')
    ensures Rests(s.heap, th.pc, th'.pc, s'.heap)
  {
  }

  lemma RemoveRests(s: State, t: CallId, th: Thread, a: RemoveStep, th': Thread, s': State)
    requires StepRemove(s, t, th, a, th', s')
    ensures Rests(s.heap, th.pc, th'.pc, s'.heap)
  {
  }

  lemma RunRests(s: State, t: CallId, th: Thread, a: RunStep, th': Thread, s': State)
    requires StepRun(s, t, th, a, th', s') && Mapped(s.dir, s.heap)
    ensures Rests(s.heap, th.pc, th'.pc, s'.heap)
  {
    if a.Admit? || a.WgDone? {
      WgRests(s, t, th, a, th', s');
    } else {
      InsideRests(s, t, th, a, th', s');
    }
  }

  lemma WgRests(s: State, t: CallId, th: Thread, a: RunStep, th': Thread, s': State)
    requires StepRun(s, t, th, a, th', s') && Mapped(s.dir, s.heap) && (a.Admit? || a.WgDone?)
    ensures Rests(s.heap, th.pc, th'.pc, s'.heap)
  {
  }

  lemma InsideRests(s: State, t: CallId, th: Thread, a: RunStep, th': Thread, s': State)
    requires StepRun(s, t, th, a, th', s') && !a.Admit? && !a.WgDone?
    ensures Rests(s.heap, th.pc, th'.pc, s'.heap)
  {
  }

  lemma OtherRests(s: State, t: CallId, a: OtherStep, th': Thread, s': State)
    requires StepOther(s, t, a, th', s')
    ensures Rests(s.heap, ThreadOf(s, t).pc, th'.pc, s'.heap)
  {
  }
}
