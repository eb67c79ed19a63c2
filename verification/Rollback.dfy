// What a Configure call published, and what its rollback has taken back.
module Rollback {
  import opened Basics
  import opened Registry
  import opened Protocol
  import opened Counting
  import opened Shape
  import opened Lifecycle

  predicate IsDead(heap: Heap, e: EntryId) { e in heap && !heap[e].stage.Live? }

  predicate IsOwn(heap: Heap, t: CallId, e: EntryId) { e in heap && heap[e].publisher == t }

  ghost predicate AllOwn(heap: Heap, t: CallId, ps: seq<Published>) {
    forall i :: 0 <= i < |ps| ==> IsOwn(heap, t, ps[i].entry) && heap[ps[i].entry].name == ps[i].name
  }

  ghost predicate AllDead(heap: Heap, ps: seq<Published>) {
    forall i :: 0 <= i < |ps| ==> IsDead(heap, ps[i].entry)
  }

  predicate Lists(ps: seq<Published>, e: EntryId) { exists i :: 0 <= i < |ps| && ps[i].entry == e }

  // Publishing: every entry the call published is listed, except one it publishes right now.
  ghost predicate ListsAll(heap: Heap, t: CallId, ps: seq<Published>, res: Option<Result>) {
    forall e :: IsOwn(heap, t, e) ==> Lists(ps, e) || res == Some(Registered(e))
  }

  ghost predicate PublishesOwn(heap: Heap, t: CallId, op: Op, res: Option<Result>) {
    op.Register? && (res.Some? && res.value.Registered? ==>
      IsOwn(heap, t, res.value.entry) && heap[res.value.entry].name == op.name)
  }

  ghost predicate Suffix(ps: seq<Published>, rest: seq<Published>) {
    |rest| <= |ps| && ps[|ps| - |rest|..] == rest
  }

  // Rolling back: what precedes `rest` is out of the map; so is rest[0] once its removal took effect.
  ghost predicate Undone(heap: Heap, ps: seq<Published>, rest: seq<Published>, res: Option<Result>) {
    && Suffix(ps, rest) && rest != []
    && AllDead(heap, ps[..|ps| - |rest|])
    && (res.Some? ==> IsDead(heap, rest[0].entry))
  }

  // The names of cfg are split among published, current and todo.
  ghost predicate Accounts(c: Caller, op: Op)
    requires c.Configure?
  {
    && op.Register? && op.name !in c.todo.Keys
    && (forall n :: n in c.todo ==> n in c.cfg && c.cfg[n] == c.todo[n])
    && op.name in c.cfg && c.cfg[op.name] == op.cfg
    && (forall n :: n in c.cfg ==> n in c.todo || n == op.name || Names(c.published, n))
    && (forall n :: Names(c.published, n) ==> n in c.cfg)
  }

  ghost predicate Complete(c: Caller)
    requires c.Configure?
  {
    && (forall n :: n in c.cfg ==> Names(c.published, n))
    && (forall n :: Names(c.published, n) ==> n in c.cfg)
  }

  ghost predicate Configuring(heap: Heap, t: CallId, th: Thread) {
    match th.caller
    case Direct => true
    case Configure(_, _, ps, phase) =>
      && AllOwn(heap, t, ps)
      && match phase
         case Publishing =>
           ListsAll(heap, t, ps, th.res) && PublishesOwn(heap, t, th.op, th.res) && Accounts(th.caller, th.op)
         case RollingBack(rest) => ListsAll(heap, t, ps, None) && Undone(heap, ps, rest, th.res)
         case Finished(ok) =>
           && ListsAll(heap, t, ps, None)
           && (if ok then Complete(th.caller) else AllDead(heap, ps))
  }

  ghost predicate Configured(s: State) {
    && (forall t :: t in s.threads ==> Configuring(s.heap, t, s.threads[t]))
    && (forall e :: e in s.heap ==> s.heap[e].publisher in s.threads)
  }

  // Dead entries stay dead, and only the mover publishes.
  ghost predicate Ages(heap: Heap, t: CallId, heap': Heap) {
    && Kept(heap, heap')
    && (forall e :: IsDead(heap, e) ==> IsDead(heap', e))
    && (forall e :: e in heap' && e !in heap ==> heap'[e].publisher == t)
  }

  lemma OthersAge(heap: Heap, t: CallId, heap': Heap, u: CallId, th: Thread)
    requires Configuring(heap, u, th) && Ages(heap, t, heap') && u != t
    ensures Configuring(heap', u, th)
  {
  }

  lemma KeepConfigured(s: State, t: CallId, s': State)
    requires Configured(s) && t in s'.threads && s'.threads == s.threads[t := s'.threads[t]]
    requires Ages(s.heap, t, s'.heap) && Configuring(s'.heap, t, s'.threads[t])
    ensures Configured(s')
  {
    forall u | u in s'.threads ensures Configuring(s'.heap, u, s'.threads[u]) {
      if u != t {
        OthersAge(s.heap, t, s'.heap, u, s'.threads[u]);
      }
    }
  }

  lemma RegisterAges(s: State, t: CallId, th: Thread, a: RegisterStep, th': Thread, s': State)
    requires StepRegister(s, t, th, a, th', s')
    ensures Ages(s.heap, t, s'.heap)
  {
  }

  lemma RemoveAges(s: State, t: CallId, th: Thread, a: RemoveStep, th': Thread, s': State)
    requires StepRemove(s, t, th, a, th', s')
    ensures Ages(s.heap, t, s'.heap)
  {
  }

  lemma RunAges(s: State, t: CallId, th: Thread, a: RunStep, th': Thread, s': State)
    requires StepRun(s, t, th, a, th', s')
    ensures Ages(s.heap, t, s'.heap)
  {
    RunStages(s, t, th, a, th', s');
  }

  // The mover's own step, while it stays in one operation and publishes nothing.
  ghost predicate SameOperation(heap: Heap, th: Thread, th': Thread, heap': Heap) {
    && th'.caller == th.caller && th'.op == th.op && heap'.Keys == heap.Keys
    && (th'.res == th.res ||
        (th.res.None? && th'.res.Some? && !th'.res.value.Registered?
         && (th.caller.Configure? && th.caller.phase.RollingBack? && th.caller.phase.rest != [] ==>
               IsDead(heap', th.caller.phase.rest[0].entry))))
  }

  lemma KeepOwn(heap: Heap, t: CallId, th: Thread, th': Thread, heap': Heap)
    requires Configuring(heap, t, th) && Ages(heap, t, heap') && SameOperation(heap, th, th', heap')
    ensures Configuring(heap', t, th')
  {
  }

  lemma PublishOwn(heap: Heap, t: CallId, th: Thread, e: EntryId, th': Thread, heap': Heap)
    requires Configuring(heap, t, th) && Ages(heap, t, heap') && FitsCaller(th) && !th.pc.Done? && th.op.Register?
    requires th'.caller == th.caller && th'.op == th.op && th.res.None? && th'.res == Some(Registered(e))
    requires heap'.Keys == heap.Keys + {e} && heap'[e].publisher == t && heap'[e].name == th.op.name
    ensures Configuring(heap', t, th')
  {
  }

  lemma RegisterConfigures(s: State, t: CallId, th: Thread, a: RegisterStep, th': Thread, s': State)
    requires StepRegister(s, t, th, a, th', s') && Fits(th) && Configuring(s.heap, t, th)
    ensures Configuring(s'.heap, t, th')
  {
    RegisterAges(s, t, th, a, th', s');
    if a.RegisterSecond? && !s.dir.closed && th.op.name !in s.dir.entries {
      PublishOwn(s.heap, t, th, a.entry, th', s'.heap);
    } else {
      KeepOwn(s.heap, t, th, th', s'.heap);
    }
  }

  lemma NotifyConfigures(s: State, t: CallId, th: Thread, a: NotifyStep, th': Thread, s': State)
    requires StepNotify(s, t, th, a, th', s') && Configuring(s.heap, t, th)
    ensures Ages(s.heap, t, s'.heap) && Configuring(s'.heap, t, th')
  {
    KeepOwn(s.heap, t, th, th', s'.heap);
  }

  // A rollback removal that finds its entry gone or replaced finds it dead.
  lemma RemovalLeavesDead(s: State, t: CallId, th: Thread, th': Thread, s': State)
    requires StepRemove(s, t, th, RemoveFirst, th', s') && Mapped(s.dir, s.heap)
    requires th.op.expected.Some? && th.op.expected.value in s.heap
    requires s.heap[th.op.expected.value].name == th.op.name
    ensures IsDead(s'.heap, th.op.expected.value)
  {
  }

  lemma RemoveConfigures(s: State, t: CallId, th: Thread, a: RemoveStep, th': Thread, s': State)
    requires StepRemove(s, t, th, a, th', s') && Fits(th) && Configuring(s.heap, t, th) && Mapped(s.dir, s.heap)
    ensures Configuring(s'.heap, t, th')
  {
    RemoveAges(s, t, th, a, th', s');
    if a.RemoveFirst? && th.caller.Configure? && th.caller.phase.RollingBack? {
      FirstOfRest(s.heap, t, th);
      RemovalLeavesDead(s, t, th, th', s');
    }
    KeepOwn(s.heap, t, th, th', s'.heap);
  }

  lemma FirstOfRest(heap: Heap, t: CallId, th: Thread)
    requires Configuring(heap, t, th) && FitsCaller(th) && th.caller.Configure? && th.caller.phase.RollingBack?
    ensures th.op.Remove? && th.op.expected.Some? && IsOwn(heap, t, th.op.expected.value)
    ensures heap[th.op.expected.value].name == th.op.name
    ensures th.op.expected.value == th.caller.phase.rest[0].entry
  {
    var ps, rest := th.caller.published, th.caller.phase.rest;
    assert ps[|ps| - |rest|] == rest[0];
  }

  lemma RunConfigures(s: State, t: CallId, th: Thread, a: RunStep, th': Thread, s': State)
    requires StepRun(s, t, th, a, th', s') && Fits(th) && Configuring(s.heap, t, th)
    ensures Configuring(s'.heap, t, th')
  {
    RunAges(s, t, th, a, th', s');
    RunStages(s, t, th, a, th', s');
    KeepOwn(s.heap, t, th, th', s'.heap);
  }

  // Configure goes on after one of its operations has returned.
  lemma ResumeConfigures(heap: Heap, t: CallId, th: Thread, pick: Name, th': Thread)
    requires Configuring(heap, t, th) && Resumes(th, pick, th')
    ensures Configuring(heap, t, th')
  {
    var c := th.caller;
    match c.phase
    case Publishing =>
      if th.res.value.Registered? {
        PublishedOne(heap, t, th, pick, th');
      } else {
        RollbackBegins(heap, t, th, th');
      }
    case RollingBack(rest) => RollbackGoesOn(heap, t, th, th');
    case Finished(_) =>
  }

  lemma PublishedOne(heap: Heap, t: CallId, th: Thread, pick: Name, th': Thread)
    requires Configuring(heap, t, th) && Resumes(th, pick, th')
    requires th.caller.phase.Publishing? && th.res.value.Registered?
    ensures Configuring(heap, t, th')
  {
    var ps := th.caller.published;
    var p := Published(th.op.name, th.res.value.entry);
    AppendLists(heap, t, ps, p);
    AppendNames(ps, p);
    if th.caller.todo != map[] {
      assert th'.caller.todo == th.caller.todo - {pick};
    }
  }

  lemma AppendLists(heap: Heap, t: CallId, ps: seq<Published>, p: Published)
    requires ListsAll(heap, t, ps, Some(Registered(p.entry)))
    ensures ListsAll(heap, t, ps + [p], None)
  {
    var ps' := ps + [p];
    assert ps'[|ps|] == p;
    forall e | Lists(ps, e) ensures Lists(ps', e) {
      var i :| 0 <= i < |ps| && ps[i].entry == e;
      assert ps'[i].entry == e;
    }
  }

  predicate Names(ps: seq<Published>, n: Name) { exists i :: 0 <= i < |ps| && ps[i].name == n }

  lemma AppendNames(ps: seq<Published>, p: Published)
    ensures forall n :: Names(ps + [p], n) <==> Names(ps, n) || n == p.name
  {
    var ps' := ps + [p];
    assert ps'[|ps|] == p;
    forall n | Names(ps, n) ensures Names(ps', n) {
      var i :| 0 <= i < |ps| && ps[i].name == n;
      assert ps'[i].name == n;
    }
  }

  lemma RollbackBegins(heap: Heap, t: CallId, th: Thread, th': Thread)
    requires Configuring(heap, t, th) && th.caller.Configure? && th.caller.phase.Publishing? && th.res.Some?
    requires !th.res.value.Registered? && th' == BeginRollback(th, th.caller.published)
    ensures Configuring(heap, t, th')
  {
  }

  lemma RollbackGoesOn(heap: Heap, t: CallId, th: Thread, th': Thread)
    requires Configuring(heap, t, th) && th.caller.Configure? && th.caller.phase.RollingBack? && th.res.Some?
    requires th.caller.phase.rest != [] && th' == BeginRollback(th, th.caller.phase.rest[1..])
    ensures Configuring(heap, t, th')
  {
    var ps, rest := th.caller.published, th.caller.phase.rest;
    var k := |ps| - |rest|;
    assert ps[k] == rest[0];
    assert ps[k + 1..] == rest[1..];
    assert ps[..k + 1] == ps[..k] + [rest[0]];
  }

  lemma OtherConfigures(s: State, t: CallId, a: OtherStep, th': Thread, s': State)
    requires StepOther(s, t, a, th', s')
    requires t in s.threads ==> Fits(s.threads[t]) && Configuring(s.heap, t, s.threads[t])
    requires t !in s.threads ==> forall e :: e in s.heap ==> s.heap[e].publisher != t
    ensures Ages(s.heap, t, s'.heap) && Configuring(s'.heap, t, th')
  {
    if a.Continue? {
      ResumeConfigures(s.heap, t, s.threads[t], a.pick, th');
    } else if t in s.threads {
      KeepOwn(s.heap, t, s.threads[t], th', s'.heap);
    }
  }
}
