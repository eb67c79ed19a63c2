// The three counters of the source agree with the calls they count: openings,
// each entry's wg, and the tokens of each entry's throttle.
module Counters {
  import opened Basics
  import opened Protocol
  import opened Counting

  // wg counts the admitted Runs; tokens in the channel and Runs holding one make up the limit.
  ghost predicate Balanced(en: Entry, users: nat, holders: nat) {
    && en.wg == users
    && (if en.limit > 0 then 0 <= en.tokens && en.tokens + holders == en.limit else en.tokens == 0)
  }

  ghost predicate Counted(s: State) {
    && s.dir.openings == Count(s.threads, Opener)
    && (forall t :: t in s.threads && Used(s.threads[t].pc).Some? ==> Used(s.threads[t].pc).value in s.heap)
    && (forall e :: e in s.heap ==> Balanced(s.heap[e], Count(s.threads, User(e)), Count(s.threads, TokenHolder(e))))
    && (forall t :: t in s.threads ==> Limited(s.heap, s.threads[t].pc))
  }

  // Only a positive limit makes a Run wait for a token.
  predicate Limited(heap: map<EntryId, Entry>, pc: Pc) {
    pc.Select? ==> pc.entry in heap && heap[pc.entry].limit > 0
  }

  // How one entry's counters move when the mover's use goes from u to u' and its token from k to k'.
  ghost predicate EntryFollows(en: Entry, e: EntryId, u: Option<EntryId>, u': Option<EntryId>,
                               k: Option<EntryId>, k': Option<EntryId>, en': Entry) {
    && en'.limit == en.limit
    && en'.wg == en.wg - One(u == Some(e)) + One(u' == Some(e))
    && (en.limit > 0 ==> en'.tokens == en.tokens + One(k == Some(e)) - One(k' == Some(e)))
    && (en.limit <= 0 ==> en'.tokens == en.tokens)
    && (en.tokens >= 0 ==> en'.tokens >= 0)
  }

  ghost predicate HeapFollows(heap: map<EntryId, Entry>, u: Option<EntryId>, u': Option<EntryId>,
                              k: Option<EntryId>, k': Option<EntryId>, heap': map<EntryId, Entry>) {
    && heap.Keys <= heap'.Keys
    && (u'.Some? ==> u'.value in heap)
    && (forall e :: e in heap ==> EntryFollows(heap[e], e, u, u', k, k', heap'[e]))
    && (forall e :: e in heap' && e !in heap ==> Balanced(heap'[e], 0, 0))
  }

  ghost predicate CountersFollow(s: State, was: Thread, now: Thread, s': State) {
    && s'.dir.openings == s.dir.openings - One(Plays(was, Opener)) + One(Plays(now, Opener))
    && Limited(s'.heap, now.pc)
    && HeapFollows(s.heap, Used(was.pc), Used(now.pc), Tokened(was.pc), Tokened(now.pc), s'.heap)
  }

  lemma KeepCounted(s: State, t: CallId, s': State)
    requires Counted(s)
    requires t in s'.threads && s'.threads == s.threads[t := s'.threads[t]]
    requires CountersFollow(s, ThreadOf(s, t), s'.threads[t], s')
    ensures Counted(s')
  {
    var now := s'.threads[t];
    CountPut(s, t, now, Opener);
    forall e | e in s'.heap
      ensures Balanced(s'.heap[e], Count(s'.threads, User(e)), Count(s'.threads, TokenHolder(e)))
    {
      if e in s.heap {
        KeepBalanced(s, t, s', e);
      } else {
        NoneYet(s, t, s', e);
      }
    }
  }

  lemma KeepBalanced(s: State, t: CallId, s': State, e: EntryId)
    requires e in s.heap && e in s'.heap
    requires Balanced(s.heap[e], Count(s.threads, User(e)), Count(s.threads, TokenHolder(e)))
    requires t in s'.threads && s'.threads == s.threads[t := s'.threads[t]]
    requires EntryFollows(s.heap[e], e, Used(ThreadOf(s, t).pc), Used(s'.threads[t].pc),
                          Tokened(ThreadOf(s, t).pc), Tokened(s'.threads[t].pc), s'.heap[e])
    ensures Balanced(s'.heap[e], Count(s'.threads, User(e)), Count(s'.threads, TokenHolder(e)))
  {
    CountPut(s, t, s'.threads[t], User(e));
    CountPut(s, t, s'.threads[t], TokenHolder(e));
  }

  lemma NoneYet(s: State, t: CallId, s': State, e: EntryId)
    requires Counted(s) && e in s'.heap && e !in s.heap
    requires t in s'.threads && s'.threads == s.threads[t := s'.threads[t]]
    requires CountersFollow(s, ThreadOf(s, t), s'.threads[t], s')
    ensures Balanced(s'.heap[e], Count(s'.threads, User(e)), Count(s'.threads, TokenHolder(e)))
  {
    CountZero(s'.threads, User(e));
    CountZero(s'.threads, TokenHolder(e));
  }

  lemma RegisterHeap(s: State, t: CallId, th: Thread, a: RegisterStep, th': Thread, s': State)
    requires StepRegister(s, t, th, a, th', s')
    ensures HeapFollows(s.heap, Used(th.pc), Used(th'.pc), Tokened(th.pc), Tokened(th'.pc), s'.heap)
  {
  }

  lemma RegisterCounts(s: State, t: CallId, th: Thread, a: RegisterStep, th': Thread, s': State)
    requires StepRegister(s, t, th, a, th', s')
    ensures CountersFollow(s, th, th', s')
  {
    RegisterHeap(s, t, th, a, th', s');
  }

  lemma NotifyCounts(s: State, t: CallId, th: Thread, a: NotifyStep, th': Thread, s': State)
    requires StepNotify(s, t, th, a, th', s')
    ensures CountersFollow(s, th, th', s')
  {
  }

  lemma RemoveHeap(s: State, t: CallId, th: Thread, a: RemoveStep, th': Thread, s': State)
    requires StepRemove(s, t, th, a, th', s')
    ensures HeapFollows(s.heap, Used(th.pc), Used(th'.pc), Tokened(th.pc), Tokened(th'.pc), s'.heap)
  {
  }

  lemma RemoveCounts(s: State, t: CallId, th: Thread, a: RemoveStep, th': Thread, s': State)
    requires StepRemove(s, t, th, a, th', s')
    ensures CountersFollow(s, th, th', s')
  {
    RemoveHeap(s, t, th, a, th', s');
  }

  ghost predicate RunFollows(s: State, th: Thread, th': Thread, s': State) {
    HeapFollows(s.heap, Used(th.pc), Used(th'.pc), Tokened(th.pc), Tokened(th'.pc), s'.heap)
  }

  lemma AdmitHeap(s: State, t: CallId, th: Thread, th': Thread, s': State)
    requires StepRun(s, t, th, Admit, th', s')
    ensures RunFollows(s, th, th', s')
  {
  }

  lemma WgDoneHeap(s: State, t: CallId, th: Thread, th': Thread, s': State)
    requires StepRun(s, t, th, WgDone, th', s')
    ensures RunFollows(s, th, th', s')
  {
  }

  lemma GrantHeap(s: State, t: CallId, th: Thread, th': Thread, s': State)
    requires StepRun(s, t, th, Grant, th', s') && Limited(s.heap, th.pc)
    ensures RunFollows(s, th, th', s')
  {
  }

  lemma ReturnHeap(s: State, t: CallId, th: Thread, th': Thread, s': State)
    requires StepRun(s, t, th, ReturnToken, th', s')
    ensures RunFollows(s, th, th', s')
  {
  }

  lemma CheckHeap(s: State, t: CallId, th: Thread, th': Thread, s': State)
    requires StepRun(s, t, th, CheckContext, th', s')
    ensures RunFollows(s, th, th', s')
  {
  }

  predicate Counts(a: RunStep) { a.Admit? || a.CheckContext? || a.Grant? || a.ReturnToken? || a.WgDone? }

  lemma OtherRunHeap(s: State, t: CallId, th: Thread, a: RunStep, th': Thread, s': State)
    requires StepRun(s, t, th, a, th', s') && !Counts(a)
    requires Used(th.pc).Some? ==> Used(th.pc).value in s.heap
    ensures RunFollows(s, th, th', s')
  {
  }

  lemma RunHeap(s: State, t: CallId, th: Thread, a: RunStep, th': Thread, s': State)
    requires StepRun(s, t, th, a, th', s') && Limited(s.heap, th.pc)
    requires Used(th.pc).Some? ==> Used(th.pc).value in s.heap
    ensures RunFollows(s, th, th', s')
  {
    match a
    case Admit => AdmitHeap(s, t, th, th', s');
    case WgDone => WgDoneHeap(s, t, th, th', s');
    case Grant => GrantHeap(s, t, th, th', s');
    case ReturnToken => ReturnHeap(s, t, th, th', s');
    case CheckContext => CheckHeap(s, t, th, th', s');
    case _ => OtherRunHeap(s, t, th, a, th', s');
  }

  lemma RunCounts(s: State, t: CallId, th: Thread, a: RunStep, th': Thread, s': State)
    requires StepRun(s, t, th, a, th', s') && Limited(s.heap, th.pc)
    requires Used(th.pc).Some? ==> Used(th.pc).value in s.heap
    ensures CountersFollow(s, th, th', s')
  {
    RunHeap(s, t, th, a, th', s');
    RunOpens(s, t, th, a, th', s');
  }

  lemma RunOpens(s: State, t: CallId, th: Thread, a: RunStep, th': Thread, s': State)
    requires StepRun(s, t, th, a, th', s') && (Used(th.pc).Some? ==> Used(th.pc).value in s.heap)
    ensures s'.dir.openings == s.dir.openings && !Plays(th, Opener) && !Plays(th', Opener)
    ensures Limited(s'.heap, th'.pc)
  {
  }

  lemma OtherCounts(s: State, t: CallId, a: OtherStep, th': Thread, s': State)
    requires StepOther(s, t, a, th', s')
    requires Used(ThreadOf(s, t).pc).Some? ==> Used(ThreadOf(s, t).pc).value in s.heap
    requires Limited(s.heap, ThreadOf(s, t).pc)
    ensures CountersFollow(s, ThreadOf(s, t), th', s')
  {
    OtherIdle(s, t, a, th', s');
  }

  lemma OtherIdle(s: State, t: CallId, a: OtherStep, th': Thread, s': State)
    requires StepOther(s, t, a, th', s')
    ensures s'.dir == s.dir && s'.heap == s.heap
    ensures a.Cancel? ==> th'.pc == ThreadOf(s, t).pc
    ensures !a.Cancel? ==> (th'.pc.Begin? || th'.pc.Done?) && (ThreadOf(s, t).pc.Begin? || ThreadOf(s, t).pc.Done?)
  {
  }
}
