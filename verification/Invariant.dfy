// The invariant of the protocol: it holds at the start and every step keeps it.
module Invariant {
  import opened Basics
  import opened Registry
  import opened Protocol
  import opened Counting
  import opened Shape
  import opened Counters
  import opened Lifecycle
  import opened Draining
  import opened Linearity
  import opened Callbacks
  import opened Metrics
  import opened Brackets
  import opened Rollback
  import opened Ending

  // Locks, counters and the places of entries and clients.
  ghost predicate Core(s: State) {
    && Shaped(s) && Locked(s)
    && Counted(s)
    && Lives(s)
    && Rested(s.threads, s.heap)
  }

  // What has taken effect, what was delivered, and what it adds up to.
  ghost predicate Story(s: State) {
    && Linear(s)
    && InOrder(s)
    && Metered(s)
    && Bracketed(s)
  }

  ghost predicate Plans(s: State) {
    && Configured(s)
    && Settled(s)
  }

  ghost predicate Inv(s: State) {
    Core(s) && Story(s) && Plans(s)
  }

  lemma InitInv(s: State)
    requires Init(s)
    ensures Inv(s)
  {
    InitCore(s);
    InitStory(s);
    InitPlans(s);
  }

  lemma InitCore(s: State)
    requires Init(s)
    ensures Core(s)
  {
    CountZero(s.threads, Opener);
  }

  lemma InitStory(s: State)
    requires Init(s)
    ensures Story(s)
  {
    forall n: Name ensures Count(s.threads, InFlight(n)) == 0 {
      CountZero(s.threads, InFlight(n));
    }
  }

  lemma InitPlans(s: State)
    requires Init(s)
    ensures Plans(s)
  {
  }

  // A step moves only its own call.
  ghost predicate Moves(s: State, t: CallId, s': State) {
    t in s'.threads && s'.threads == s.threads[t := s'.threads[t]]
  }

  // register

  lemma RegisterLives(s: State, t: CallId, th: Thread, a: RegisterStep, th': Thread, s': State)
    requires Lives(s) && t in s.threads && th == s.threads[t] && StepRegister(s, t, th, a, th', s') && Moves(s, t, s')
    requires th' == s'.threads[t]
    ensures Lives(s')
  {
    match a
    case OpenSucceeds(c) => OpenMoves(s, t, th, c, th', s');
    case DiscardClient => DiscardMoves(s, t, th, th', s');
    case RegisterSecond(e) =>
      if s.dir.closed || th.op.name in s.dir.entries {
        RegisterStill(s, t, th, a, th', s');
        KeepStill(s, t, s');
      } else {
        PublishMoves(s, t, th, e, th', s');
      }
    case _ =>
      RegisterStill(s, t, th, a, th', s');
      KeepStill(s, t, s');
  }

  lemma RegisterCore(s: State, t: CallId, a: RegisterStep, s': State)
    requires Core(s) && t in s.threads && t in s'.threads && StepRegister(s, t, s.threads[t], a, s'.threads[t], s')
    ensures Core(s')
  {
    var th, th' := s.threads[t], s'.threads[t];
    RegisterFits(s, t, th, a, th', s');
    KeepShaped(s, t, s');
    RegisterCounts(s, t, th, a, th', s');
    KeepCounted(s, t, s');
    RegisterLives(s, t, th, a, th', s');
    RegisterRests(s, t, th, a, th', s');
    KeepRested(s, t, s');
  }

  lemma RegisterStory(s: State, t: CallId, a: RegisterStep, s': State)
    requires Shaped(s) && Locked(s) && Story(s)
    requires t in s.threads && t in s'.threads && StepRegister(s, t, s.threads[t], a, s'.threads[t], s')
    ensures Story(s')
  {
    RegisterTale(s, t, a, s');
    RegisterHeard(s, t, a, s');
  }

  lemma RegisterTale(s: State, t: CallId, a: RegisterStep, s': State)
    requires Shaped(s) && Locked(s) && Linear(s) && InOrder(s)
    requires t in s.threads && t in s'.threads && StepRegister(s, t, s.threads[t], a, s'.threads[t], s')
    ensures Linear(s') && InOrder(s')
  {
    var th, th' := s.threads[t], s'.threads[t];
    var cb := SourceRegistered("");
    RegisterLinear(s, t, th, a, th', s');
    if Silent(s, th, th', s') { KeepSilent(s, t, s'); } else { KeepEffect(s, t, s'); }
    RegisterOrder(s, t, th, a, th', cb, s');
    if Mutates(s, t, th', s') { KeepMutates(s, t, s'); } else { KeepAside(s, t, cb, s'); }
  }

  lemma RegisterHeard(s: State, t: CallId, a: RegisterStep, s': State)
    requires Shaped(s) && Metered(s) && Bracketed(s)
    requires t in s.threads && t in s'.threads && StepRegister(s, t, s.threads[t], a, s'.threads[t], s')
    ensures Metered(s') && Bracketed(s')
  {
    var th, th' := s.threads[t], s'.threads[t];
    var cb := SourceRegistered("");
    RegisterFlight(s, t, th, a, th', cb, s');
    RegisterBrackets(s, t, th, a, th', cb, s');
    KeepMetered(s, t, cb, s');
    KeepBrackets(s, t, cb, s');
  }

  lemma RegisterPlans(s: State, t: CallId, a: RegisterStep, s': State)
    requires Shaped(s) && Plans(s) && Counted(s')
    requires t in s.threads && t in s'.threads && StepRegister(s, t, s.threads[t], a, s'.threads[t], s')
    ensures Plans(s')
  {
    var th, th' := s.threads[t], s'.threads[t];
    RegisterAges(s, t, th, a, th', s');
    RegisterConfigures(s, t, th, a, th', s');
    KeepConfigured(s, t, s');
    RegisterSettles(s, t, th, a, th', s');
    KeepEnding(s, t, s');
  }

  // The callback slot

  lemma NotifyCore(s: State, t: CallId, a: NotifyStep, s': State)
    requires Core(s) && t in s.threads && t in s'.threads && StepNotify(s, t, s.threads[t], a, s'.threads[t], s')
    ensures Core(s')
  {
    var th, th' := s.threads[t], s'.threads[t];
    NotifyFits(s, t, th, a, th', s');
    KeepShaped(s, t, s');
    NotifyCounts(s, t, th, a, th', s');
    KeepCounted(s, t, s');
    NotifyStill(s, t, th, a, th', s');
    KeepStill(s, t, s');
    NotifyRests(s, t, th, a, th', s');
    KeepRested(s, t, s');
  }

  lemma NotifyStory(s: State, t: CallId, a: NotifyStep, s': State)
    requires Shaped(s) && Locked(s) && Story(s)
    requires t in s.threads && t in s'.threads && StepNotify(s, t, s.threads[t], a, s'.threads[t], s')
    ensures Story(s')
  {
    var th, th' := s.threads[t], s'.threads[t];
    NotifyLinear(s, t, th, a, th', s');
    KeepSilent(s, t, s');
    var cb := if a.Deliver? then th.pc.events[0] else SourceRegistered("");
    if a.Deliver? {
      assert IsLifecycle(Pending(s.locks.om, s.threads)[0]);
    }
    match a {
      case TakeObserverLock => KeepHandover(s, t, s');
      case Deliver => KeepDeliver(s, t, s');
      case Unlock => KeepUnlock(s, t, s');
    }
    NotifyFlight(s, t, th, a, th', cb, s');
    NotifyBrackets(s, t, th, a, th', cb, s');
    KeepMetered(s, t, cb, s');
    KeepBrackets(s, t, cb, s');
  }

  lemma NotifyPlans(s: State, t: CallId, a: NotifyStep, s': State)
    requires Shaped(s) && Plans(s) && Counted(s')
    requires t in s.threads && t in s'.threads && StepNotify(s, t, s.threads[t], a, s'.threads[t], s')
    ensures Plans(s')
  {
    var th, th' := s.threads[t], s'.threads[t];
    NotifyConfigures(s, t, th, a, th', s');
    KeepConfigured(s, t, s');
    NotifySettles(s, t, th, a, th', s');
    KeepEnding(s, t, s');
  }

  // Removal

  lemma RemoveLives(s: State, t: CallId, th: Thread, a: RemoveStep, th': Thread, s': State)
    requires Lives(s) && t in s.threads && th == s.threads[t] && StepRemove(s, t, th, a, th', s') && Moves(s, t, s')
    requires th' == s'.threads[t] && Fits(th)
    ensures Lives(s')
  {
    match a
    case RemoveFirst =>
      if Matches(s.dir, th.op.name, th.op.expected) {
        RemoveMoves(s, t, th, th', s');
      } else {
        RemoveStill(s, t, th, a, th', s');
        KeepStill(s, t, s');
      }
    case Swap(order) => SwapMoves(s, t, th, order, th', s');
    case CloseClient => CloseMoves(s, t, th, th', s');
    case _ =>
      RemoveStill(s, t, th, a, th', s');
      KeepStill(s, t, s');
  }

  lemma RemoveCore(s: State, t: CallId, a: RemoveStep, s': State)
    requires Core(s) && t in s.threads && t in s'.threads && StepRemove(s, t, s.threads[t], a, s'.threads[t], s')
    ensures Core(s')
  {
    var th, th' := s.threads[t], s'.threads[t];
    RemoveFits(s, t, th, a, th', s');
    KeepShaped(s, t, s');
    RemoveCounts(s, t, th, a, th', s');
    KeepCounted(s, t, s');
    RemoveLives(s, t, th, a, th', s');
    RemoveRests(s, t, th, a, th', s');
    KeepRested(s, t, s');
  }

  lemma RemoveStory(s: State, t: CallId, a: RemoveStep, s': State)
    requires Shaped(s) && Locked(s) && Story(s)
    requires t in s.threads && t in s'.threads && StepRemove(s, t, s.threads[t], a, s'.threads[t], s')
    ensures Story(s')
  {
    var th, th' := s.threads[t], s'.threads[t];
    var cb := SourceRegistered("");
    RemoveLinear(s, t, th, a, th', s');
    if Silent(s, th, th', s') { KeepSilent(s, t, s'); } else { KeepEffect(s, t, s'); }
    RemoveOrder(s, t, th, a, th', cb, s');
    if Mutates(s, t, th', s') { KeepMutates(s, t, s'); } else { KeepAside(s, t, cb, s'); }
    RemoveFlight(s, t, th, a, th', cb, s');
    RemoveBrackets(s, t, th, a, th', cb, s');
    KeepMetered(s, t, cb, s');
    KeepBrackets(s, t, cb, s');
  }

  lemma RemovePlans(s: State, t: CallId, a: RemoveStep, s': State)
    requires Shaped(s) && Plans(s) && Counted(s') && Mapped(s.dir, s.heap)
    requires t in s.threads && t in s'.threads && StepRemove(s, t, s.threads[t], a, s'.threads[t], s')
    ensures Plans(s')
  {
    var th, th' := s.threads[t], s'.threads[t];
    RemoveAges(s, t, th, a, th', s');
    RemoveConfigures(s, t, th, a, th', s');
    KeepConfigured(s, t, s');
    RemoveSettles(s, t, th, a, th', s');
    RemoveEnds(s, t, th, a, th', s');
    KeepEnding(s, t, s');
  }

  // Run

  lemma RunCore(s: State, t: CallId, a: RunStep, s': State)
    requires Core(s) && t in s.threads && t in s'.threads && StepRun(s, t, s.threads[t], a, s'.threads[t], s')
    ensures Core(s')
  {
    var th, th' := s.threads[t], s'.threads[t];
    RunFits(s, t, th, a, th', s');
    KeepShaped(s, t, s');
    RunCounts(s, t, th, a, th', s');
    KeepCounted(s, t, s');
    RunStill(s, t, th, a, th', s');
    KeepStill(s, t, s');
    RunRests(s, t, th, a, th', s');
    KeepRested(s, t, s');
  }

  lemma RunStory(s: State, t: CallId, a: RunStep, s': State)
    requires Shaped(s) && Locked(s) && Story(s)
    requires t in s.threads && t in s'.threads && StepRun(s, t, s.threads[t], a, s'.threads[t], s')
    ensures Story(s')
  {
    RunTale(s, t, a, s');
    RunHeard(s, t, a, s');
  }

  lemma RunTale(s: State, t: CallId, a: RunStep, s': State)
    requires Shaped(s) && Locked(s) && Linear(s) && InOrder(s)
    requires t in s.threads && t in s'.threads && StepRun(s, t, s.threads[t], a, s'.threads[t], s')
    ensures Linear(s') && InOrder(s')
  {
    var th, th' := s.threads[t], s'.threads[t];
    RunLinear(s, t, th, a, th', s');
    if Silent(s, th, th', s') { KeepSilent(s, t, s'); } else { KeepEffect(s, t, s'); }
    RunOrder(s, t, th, a, th', s');
    KeepAside(s, t, CallbackOf(t, th), s');
  }

  lemma RunHeard(s: State, t: CallId, a: RunStep, s': State)
    requires Shaped(s) && Metered(s) && Bracketed(s)
    requires t in s.threads && t in s'.threads && StepRun(s, t, s.threads[t], a, s'.threads[t], s')
    ensures Metered(s') && Bracketed(s')
  {
    var th, th' := s.threads[t], s'.threads[t];
    RunFlight(s, t, th, a, th', s');
    RunBrackets(s, t, th, a, th', s');
    KeepMetered(s, t, CallbackOf(t, th), s');
    KeepBrackets(s, t, CallbackOf(t, th), s');
  }

  lemma RunPlans(s: State, t: CallId, a: RunStep, s': State)
    requires Shaped(s) && Plans(s) && Counted(s')
    requires t in s.threads && t in s'.threads && StepRun(s, t, s.threads[t], a, s'.threads[t], s')
    ensures Plans(s')
  {
    var th, th' := s.threads[t], s'.threads[t];
    RunAges(s, t, th, a, th', s');
    RunConfigures(s, t, th, a, th', s');
    KeepConfigured(s, t, s');
    RunSettles(s, t, th, a, th', s');
    KeepEnding(s, t, s');
  }

  // The rest

  lemma OtherCore(s: State, t: CallId, a: OtherStep, s': State)
    requires Core(s) && t in s'.threads && StepOther(s, t, a, s'.threads[t], s')
    ensures Core(s')
  {
    var th' := s'.threads[t];
    OtherFits(s, t, a, th', s');
    KeepShaped(s, t, s');
    OtherCounts(s, t, a, th', s');
    KeepCounted(s, t, s');
    OtherStill(s, t, a, th', s');
    KeepStill(s, t, s');
    OtherRests(s, t, a, th', s');
    KeepRested(s, t, s');
  }

  lemma OtherStory(s: State, t: CallId, a: OtherStep, s': State)
    requires Shaped(s) && Locked(s) && Story(s) && t in s'.threads && StepOther(s, t, a, s'.threads[t], s')
    ensures Story(s')
  {
    var th' := s'.threads[t];
    var cb := SourceRegistered("");
    OtherLinear(s, t, a, th', s');
    if Silent(s, ThreadOf(s, t), th', s') { KeepSilent(s, t, s'); } else { KeepEffect(s, t, s'); }
    OtherOrder(s, t, a, th', cb, s');
    KeepAside(s, t, cb, s');
    OtherFlight(s, t, a, th', cb, s');
    OtherBrackets(s, t, a, th', cb, s');
    KeepMetered(s, t, cb, s');
    KeepBrackets(s, t, cb, s');
  }

  lemma OtherPlans(s: State, t: CallId, a: OtherStep, s': State)
    requires Shaped(s) && Plans(s) && Counted(s') && t in s'.threads && StepOther(s, t, a, s'.threads[t], s')
    ensures Plans(s')
  {
    var th' := s'.threads[t];
    OtherConfigures(s, t, a, th', s');
    KeepConfigured(s, t, s');
    OtherSettles(s, t, a, th', s');
    KeepEnding(s, t, s');
  }

  lemma TakesCore(s: State, t: CallId, a: Action, s': State)
    requires Core(s) && Takes(s, t, a, s')
    ensures Core(s')
  {
    match a
    case Registering(r) => RegisterCore(s, t, r, s');
    case Notifying(n) => NotifyCore(s, t, n, s');
    case Removing(r) => RemoveCore(s, t, r, s');
    case Running(r) => RunCore(s, t, r, s');
    case Other(o) => OtherCore(s, t, o, s');
    case AddDriver(_, _) => DriverCore(s, t, a, s');
  }

  lemma DriverCore(s: State, t: CallId, a: Action, s': State)
    requires Core(s) && Takes(s, t, a, s') && a.AddDriver?
    ensures Core(s')
  {
    DriverLives(s, t, a, s');
  }

  lemma DriverLives(s: State, t: CallId, a: Action, s': State)
    requires Lives(s) && Takes(s, t, a, s') && a.AddDriver?
    ensures Lives(s') && s' == s.(drivers := s'.drivers)
  {
  }

  lemma TakesStory(s: State, t: CallId, a: Action, s': State)
    requires Shaped(s) && Locked(s) && Story(s) && Takes(s, t, a, s')
    ensures Story(s')
  {
    match a
    case Registering(r) => RegisterStory(s, t, r, s');
    case Notifying(n) => NotifyStory(s, t, n, s');
    case Removing(r) => RemoveStory(s, t, r, s');
    case Running(r) => RunStory(s, t, r, s');
    case Other(o) => OtherStory(s, t, o, s');
    case AddDriver(_, _) =>
  }

  lemma TakesPlans(s: State, t: CallId, a: Action, s': State)
    requires Shaped(s) && Mapped(s.dir, s.heap) && Plans(s) && Counted(s') && Takes(s, t, a, s')
    ensures Plans(s')
  {
    match a
    case Registering(r) => RegisterPlans(s, t, r, s');
    case Notifying(n) => NotifyPlans(s, t, n, s');
    case Removing(r) => RemovePlans(s, t, r, s');
    case Running(r) => RunPlans(s, t, r, s');
    case Other(o) => OtherPlans(s, t, o, s');
    case AddDriver(_, _) =>
  }

  // Every step of every call keeps the invariant.
  lemma StepInv(s: State, s': State)
    requires Inv(s) && Step(s, s')
    ensures Inv(s')
  {
    var t, a :| Takes(s, t, a, s');
    TakesCore(s, t, a, s');
    TakesStory(s, t, a, s');
    TakesPlans(s, t, a, s');
  }

  // It holds in every state of every run.
  lemma {:induction false} RunInv(r: seq<State>, i: nat)
    requires Run(r) && Init(r[0]) && i < |r|
    ensures Inv(r[i])
  {
    if i == 0 {
      InitInv(r[0]);
    } else {
      RunInv(r, i - 1);
      StepInv(r[i - 1], r[i]);
    }
  }
}
