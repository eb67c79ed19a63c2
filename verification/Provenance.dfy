// Where an entry comes from: the register that published it, with the driver and the limit
// that this register's configuration asked for.
module Provenance {
  import opened Basics
  import opened Registry
  import opened Protocol
  import opened Counting
  import opened Shape
  import opened Counters
  import opened Lifecycle
  import opened Rollback
  import opened Linearity
  import opened Safety
  import opened Runs

  // The k-th operation published entry e as its configuration says.
  ghost predicate Backs(s: State, e: EntryId, k: int) {
    && 0 <= k < |s.log.hist| && e in s.heap
    && var ev, en := s.log.hist[k], s.heap[e];
       && ev.op.Register? && ev.res == Registered(e) && ev.call == en.publisher
       && ev.op.name == en.name && ev.op.cfg.limit == en.limit
  }

  ghost predicate Backed(s: State, e: EntryId) { exists k :: Backs(s, e, k) }

  predicate Publishes(ev: Event) { ev.op.Register? && ev.res.Registered? }

  // Every entry has its register, and every register that succeeded a driver.
  ghost predicate Sourced(s: State) {
    && (forall e :: e in s.heap ==> Backed(s, e))
    && (forall k :: 0 <= k < |s.log.hist| && Publishes(s.log.hist[k]) ==>
          s.log.hist[k].op.cfg.driver in s.drivers.builders)
    && (forall t :: t in s.threads && s.threads[t].pc.Opened? ==> HasDriver(s, s.threads[t].op))
  }

  predicate HasDriver(s: State, op: Op) { op.Register? && op.cfg.driver in s.drivers.builders }

  // What a step adds: no entry and no success, or one of each that belong together.
  ghost predicate Adds(s: State, s': State) {
    && s.log.hist <= s'.log.hist && Kept(s.heap, s'.heap)
    && s.drivers.builders.Keys <= s'.drivers.builders.Keys
    && (forall e :: e in s'.heap && e !in s.heap ==> Backs(s', e, |s.log.hist|))
    && (forall k :: |s.log.hist| <= k < |s'.log.hist| && Publishes(s'.log.hist[k]) ==>
          s'.log.hist[k].op.cfg.driver in s'.drivers.builders)
  }

  lemma BackedStill(s: State, s': State, e: EntryId)
    requires Backed(s, e) && s.log.hist <= s'.log.hist && Kept(s.heap, s'.heap)
    ensures Backed(s', e)
  {
    var k :| Backs(s, e, k);
    assert s'.log.hist[k] == s.log.hist[k];
    assert Backs(s', e, k);
  }

  lemma KeepSourced(s: State, s': State)
    requires Sourced(s) && Adds(s, s')
    requires forall t :: t in s'.threads && s'.threads[t].pc.Opened? ==> HasDriver(s', s'.threads[t].op)
    ensures Sourced(s')
  {
    forall e | e in s'.heap ensures Backed(s', e) {
      if e in s.heap { BackedStill(s, s', e); }
    }
    forall k | 0 <= k < |s'.log.hist| && Publishes(s'.log.hist[k])
      ensures s'.log.hist[k].op.cfg.driver in s'.drivers.builders
    {
      if k < |s.log.hist| { assert s'.log.hist[k] == s.log.hist[k]; }
    }
  }

  // A call is at an opened client only by the driver it asked for.
  ghost predicate Driven(s: State, th: Thread) { th.pc.Opened? ==> HasDriver(s, th.op) }

  lemma RegisterAdds(s: State, t: CallId, th: Thread, a: RegisterStep, th': Thread, s': State)
    requires StepRegister(s, t, th, a, th', s') && Driven(s, th)
    ensures Adds(s, s') && Driven(s', th')
  {
  }

  lemma NotifyAdds(s: State, t: CallId, th: Thread, a: NotifyStep, th': Thread, s': State)
    requires StepNotify(s, t, th, a, th', s')
    ensures Adds(s, s') && !th'.pc.Opened?
  {
  }

  lemma RemoveAdds(s: State, t: CallId, th: Thread, a: RemoveStep, th': Thread, s': State)
    requires StepRemove(s, t, th, a, th', s')
    ensures Adds(s, s') && !th'.pc.Opened?
  {
  }

  lemma RunAdds(s: State, t: CallId, th: Thread, a: RunStep, th': Thread, s': State)
    requires StepRun(s, t, th, a, th', s')
    ensures Adds(s, s') && !th'.pc.Opened?
  {
    RunStages(s, t, th, a, th', s');
  }

  lemma OtherAdds(s: State, t: CallId, a: OtherStep, th': Thread, s': State)
    requires StepOther(s, t, a, th', s')
    ensures Adds(s, s')
    ensures th'.pc.Opened? ==> t in s.threads && s.threads[t].pc.Opened? && th'.op == s.threads[t].op
  {
  }

  lemma TakesAdds(s: State, t: CallId, a: Action, s': State)
    requires Takes(s, t, a, s') && (t in s.threads ==> Driven(s, s.threads[t]))
    ensures Adds(s, s') && (t in s'.threads ==> Driven(s', s'.threads[t]))
  {
    match a
    case Registering(r) => RegisterAdds(s, t, s.threads[t], r, s'.threads[t], s');
    case Notifying(n) => NotifyAdds(s, t, s.threads[t], n, s'.threads[t], s');
    case Removing(r) => RemoveAdds(s, t, s.threads[t], r, s'.threads[t], s');
    case Running(r) => RunAdds(s, t, s.threads[t], r, s'.threads[t], s');
    case Other(o) => OtherAdds(s, t, o, s'.threads[t], s');
    case AddDriver(_, _) =>
  }

  lemma TakesSourced(s: State, t: CallId, a: Action, s': State)
    requires Sourced(s) && Takes(s, t, a, s')
    ensures Sourced(s')
  {
    TakesAdds(s, t, a, s');
    OthersStay(s, t, a, s');
    forall u | u in s'.threads && s'.threads[u].pc.Opened? ensures HasDriver(s', s'.threads[u].op) {
      if u == t {
        assert Driven(s', s'.threads[t]);
      }
    }
    KeepSourced(s, s');
  }

  lemma {:induction false} SourcedAt(r: seq<State>, i: nat)
    requires Run(r) && Init(r[0]) && i < |r|
    ensures Sourced(r[i])
  {
    if i > 0 {
      SourcedAt(r, i - 1);
      assert Step(r[i - 1], r[i]);
      var t, a :| Takes(r[i - 1], t, a, r[i]);
      TakesSourced(r[i - 1], t, a, r[i]);
    }
  }

  lemma SourcedHere(s: State)
    requires Reachable(s)
    ensures Sourced(s)
  {
    var r :| Run(r) && Init(r[0]) && r[|r| - 1] == s;
    SourcedAt(r, |r| - 1);
  }

  // Every entry is there because of one register of its name, by the call that published
  // it; and the tokens are those that this register's configuration asked for: with a
  // positive limit that many Runs at most are in fn, without one no Run waits.
  lemma LimitConfigured(s: State, e: EntryId) returns (k: nat)
    requires Reachable(s) && e in s.heap
    ensures k < |s.log.hist| && s.log.hist[k].call == s.heap[e].publisher
    ensures s.log.hist[k].op.Register? && s.log.hist[k].res == Registered(e)
    ensures s.log.hist[k].op.name == s.heap[e].name
    ensures var limit := s.log.hist[k].op.cfg.limit;
      if limit > 0
      then s.heap[e].tokens + Count(s.threads, TokenHolder(e)) == limit && |Fns(s, e)| <= limit
      else forall t :: t in s.threads ==> s.threads[t].pc != Select(e)
  {
    SourcedHere(s);
    assert Backed(s, e);
    k :| Backs(s, e, k);
    if s.heap[e].limit > 0 {
      TokenConservation(s, e);
    } else {
      NobodySelects(s, e);
    }
  }

  lemma NobodySelects(s: State, e: EntryId)
    requires Reachable(s) && e in s.heap && s.heap[e].limit <= 0
    ensures forall t :: t in s.threads ==> s.threads[t].pc != Select(e)
  {
    CountedHere(s);
    forall t | t in s.threads ensures s.threads[t].pc != Select(e) {
      assert Limited(s.heap, s.threads[t].pc);
    }
  }

  // Only a driver that is there opens anything.
  ghost predicate Opens(s: State, th: Thread, th': Thread) {
    th'.op == th.op && (th.pc.Opened? || (th.pc.Opening? && HasDriver(s, th.op)))
  }

  lemma RegisterOpens(s: State, t: CallId, th: Thread, a: RegisterStep, th': Thread, s': State)
    requires StepRegister(s, t, th, a, th', s') && th'.pc.Opened?
    ensures Opens(s, th, th')
  {
  }

  lemma IntoOpened(s: State, t: CallId, a: Action, s': State, u: CallId)
    requires Takes(s, t, a, s') && u in s'.threads && s'.threads[u].pc.Opened?
    ensures u in s.threads && Opens(s, s.threads[u], s'.threads[u])
  {
    OthersStay(s, t, a, s');
    if u == t {
      match a
      case Registering(r) => RegisterOpens(s, t, s.threads[t], r, s'.threads[t], s');
      case Notifying(n) => NotifyAdds(s, t, s.threads[t], n, s'.threads[t], s');
      case Removing(r) => RemoveAdds(s, t, s.threads[t], r, s'.threads[t], s');
      case Running(r) => RunAdds(s, t, s.threads[t], r, s'.threads[t], s');
      case Other(o) => OtherAdds(s, t, o, s'.threads[t], s');
      case AddDriver(_, _) =>
    }
  }

  // A call at its opening whose driver is unknown is answered that it failed to open.
  lemma UnknownDriverFails(s: State, s': State, t: CallId)
    requires Step(s, s') && t in s.threads && s.threads[t].pc.Opening?
    requires s.threads[t].op.Register? && s.threads[t].op.cfg.driver !in s.drivers.builders
    ensures t in s'.threads
    ensures s'.threads[t].pc.Opening? || (s'.threads[t].pc.Finish? && s'.threads[t].res == Some(OpenFailed))
  {
    var u, a :| Takes(s, u, a, s');
    if u != t || a.AddDriver? {
      OnlyMover(s, u, a, s', t);
    }
  }

  // In r[i] call t is at its driver's Open, and the driver is there.
  ghost predicate OpenedAt(r: seq<State>, i: int, t: CallId, op: Op) {
    && 0 <= i < |r| && t in r[i].threads && r[i].threads[t].pc.Opening? && r[i].threads[t].op == op
    && HasDriver(r[i], op)
  }

  lemma OpenedNow(s: State, s': State, t: CallId)
    requires Step(s, s') && t in s'.threads && s'.threads[t].pc.Opened?
    ensures t in s.threads && Opens(s, s.threads[t], s'.threads[t])
  {
    var u, a :| Takes(s, u, a, s');
    IntoOpened(s, u, a, s', t);
  }

  // A call that holds a client held it before or has just opened it.
  ghost predicate CameHere(r: seq<State>, m: int, t: CallId) {
    0 <= m < |r| && t in r[m].threads && r[m].threads[t].pc.Opened? ==>
      m > 0 && t in r[m - 1].threads && Opens(r[m - 1], r[m - 1].threads[t], r[m].threads[t])
  }

  lemma AlwaysCame(r: seq<State>, t: CallId)
    requires Run(r) && Init(r[0])
    ensures forall m :: CameHere(r, m, t)
  {
    forall m ensures CameHere(r, m, t) {
      if 0 < m < |r| && t in r[m].threads && r[m].threads[t].pc.Opened? {
        assert Step(r[m - 1], r[m]);
        OpenedNow(r[m - 1], r[m], t);
      }
    }
  }

  lemma {:induction false} WasOpening(r: seq<State>, m: nat, t: CallId) returns (i: nat)
    requires m < |r| && t in r[m].threads && r[m].threads[t].pc.Opened? && forall k :: CameHere(r, k, t)
    ensures i < m && OpenedAt(r, i, t, r[m].threads[t].op)
  {
    assert CameHere(r, m, t);
    if r[m - 1].threads[t].pc.Opened? {
      i := WasOpening(r, m - 1, t);
    } else {
      i := m - 1;
    }
  }

  // When an operation took effect.
  ghost predicate Growing(r: seq<State>) {
    && |r| > 0 && r[0].log.hist == []
    && forall i, j :: 0 <= i < j < |r| && j == i + 1 ==> r[i].log.hist <= r[j].log.hist
  }

  lemma RunGrowing(r: seq<State>)
    requires Run(r) && Init(r[0])
    ensures Growing(r)
  {
    forall i, j | 0 <= i < j < |r| && j == i + 1 ensures r[i].log.hist <= r[j].log.hist {
      HistoryGrows(r, i, j);
    }
  }

  lemma {:induction false} WhenAnswered(r: seq<State>, j: nat, k: nat) returns (i: nat)
    requires Growing(r) && j < |r| && k < |r[j].log.hist|
    ensures i < j && |r[i].log.hist| <= k < |r[i + 1].log.hist| && r[i + 1].log.hist[k] == r[j].log.hist[k]
  {
    if k < |r[j - 1].log.hist| {
      i := WhenAnswered(r, j - 1, k);
      assert r[j - 1].log.hist <= r[j].log.hist;
    } else {
      i := j - 1;
    }
  }

  // The step that answers a register with a success is its second critical section.
  ghost predicate Succeeds(th: Thread, t: CallId, ev: Event) {
    Publishes(ev) ==> ev.call == t && th.pc.Opened? && th.op == ev.op
  }

  lemma RegisterSucceeds(s: State, t: CallId, th: Thread, a: RegisterStep, th': Thread, s': State, k: nat)
    requires StepRegister(s, t, th, a, th', s') && |s.log.hist| <= k < |s'.log.hist|
    ensures Succeeds(th, t, s'.log.hist[k])
  {
  }

  lemma OtherPublishesNothing(s: State, t: CallId, a: OtherStep, th': Thread, s': State, k: nat)
    requires StepOther(s, t, a, th', s') && |s.log.hist| <= k < |s'.log.hist|
    ensures !Publishes(s'.log.hist[k])
  {
  }

  lemma RemovePublishesNothing(s: State, t: CallId, th: Thread, a: RemoveStep, th': Thread, s': State, k: nat)
    requires StepRemove(s, t, th, a, th', s') && |s.log.hist| <= k < |s'.log.hist|
    ensures !Publishes(s'.log.hist[k])
  {
  }

  lemma RunPublishesNothing(s: State, t: CallId, th: Thread, a: RunStep, th': Thread, s': State, k: nat)
    requires StepRun(s, t, th, a, th', s') && |s.log.hist| <= k < |s'.log.hist|
    ensures !Publishes(s'.log.hist[k])
  {
  }

  lemma SuccessAfterOpened(s: State, t: CallId, a: Action, s': State, k: nat)
    requires Takes(s, t, a, s') && |s.log.hist| <= k < |s'.log.hist| && Publishes(s'.log.hist[k])
    ensures t in s.threads && Succeeds(s.threads[t], t, s'.log.hist[k])
  {
    match a
    case Registering(r) => RegisterSucceeds(s, t, s.threads[t], r, s'.threads[t], s', k);
    case Notifying(n) => NotifyLinear(s, t, s.threads[t], n, s'.threads[t], s');
    case Removing(r) => RemovePublishesNothing(s, t, s.threads[t], r, s'.threads[t], s', k);
    case Running(r) => RunPublishesNothing(s, t, s.threads[t], r, s'.threads[t], s', k);
    case Other(o) => OtherPublishesNothing(s, t, o, s'.threads[t], s', k);
    case AddDriver(_, _) =>
  }

  lemma WhoSucceeded(s: State, s': State, k: nat) returns (t: CallId)
    requires Step(s, s') && |s.log.hist| <= k < |s'.log.hist| && Publishes(s'.log.hist[k])
    ensures t == s'.log.hist[k].call && t in s.threads && s.threads[t].pc.Opened?
    ensures s.threads[t].op == s'.log.hist[k].op
  {
    var u, a :| Takes(s, u, a, s');
    SuccessAfterOpened(s, u, a, s', k);
    t := u;
  }

  // In every run a register that succeeded opened its client from a driver that was in the
  // builders at its opening, and the builders have not changed since.
  lemma OpenedByDriver(r: seq<State>, j: nat, k: nat) returns (i: nat)
    requires Run(r) && Init(r[0]) && j < |r| && k < |r[j].log.hist| && Publishes(r[j].log.hist[k])
    ensures var ev := r[j].log.hist[k];
      && i < j && ev.call in r[i].threads && r[i].threads[ev.call].op == ev.op
      && r[i].threads[ev.call].pc.Opening?
      && ev.op.cfg.driver in r[i].drivers.builders && r[j].drivers.builders == r[i].drivers.builders
  {
    RunGrowing(r);
    var m := WhenAnswered(r, j, k);
    var t := WhoSucceeded(r[m], r[m + 1], k);
    AlwaysCame(r, t);
    i := WasOpening(r, m, t);
    RunReachable(r, i);
    SettledHere(r[i]);
    BuildersFrozen(r, i, j);
  }

  // What a call of Configure registers is what its configuration says.
  ghost predicate AsAsked(s: State, t: CallId, c: Caller) {
    c.Configure? ==>
      forall k :: 0 <= k < |s.log.hist| && s.log.hist[k].call == t && s.log.hist[k].op.Register? ==>
        var op := s.log.hist[k].op; op.name in c.cfg && c.cfg[op.name] == op.cfg
  }

  ghost predicate AllAsAsked(s: State) {
    forall t :: t in s.threads ==> AsAsked(s, t, s.threads[t].caller)
  }

  lemma EventAsAsked(s: State, t: CallId, s': State)
    requires t in s.threads && Fits(s.threads[t]) && Configuring(s.heap, t, s.threads[t])
    requires Happens(s, t, s') && AsAsked(s, t, s.threads[t].caller)
    ensures AsAsked(s', t, s.threads[t].caller)
  {
  }

  lemma EventOfAnother(s: State, t: CallId, s': State, u: CallId, c: Caller)
    requires Unmoved(s, s') || (t != u && Happens(s, t, s'))
    requires AsAsked(s, u, c)
    ensures AsAsked(s', u, c)
  {
  }

  lemma NewAsAsked(s: State, s': State, t: CallId, c: Caller)
    requires Linear(s) && t !in s.threads && Unmoved(s, s')
    ensures AsAsked(s', t, c)
  {
    NeverHeardOf(s.log.hist, t);
  }

  lemma CallAsAsked(s: State, t: CallId, a: Action, s': State, u: CallId)
    requires Reachable(s) && AllAsAsked(s) && Takes(s, t, a, s') && u in s'.threads
    ensures AsAsked(s', u, s'.threads[u].caller)
  {
    ShapedHere(s);
    ConfiguredHere(s);
    LinearHere(s);
    TakesRefines(s, t, a, s');
    OthersStay(s, t, a, s');
    if u !in s.threads {
      NewAsAsked(s, s', u, s'.threads[u].caller);
    } else if u != t || Unmoved(s, s') {
      EventOfAnother(s, t, s', u, s.threads[u].caller);
      if u == t { SameConfiguration(s, t, a, s'); }
    } else {
      EventAsAsked(s, t, s');
      SameConfiguration(s, t, a, s');
    }
  }

  lemma StepAsAsked(s: State, s': State)
    requires Reachable(s) && AllAsAsked(s) && Step(s, s')
    ensures AllAsAsked(s')
  {
    var t, a :| Takes(s, t, a, s');
    forall u | u in s'.threads ensures AsAsked(s', u, s'.threads[u].caller) {
      CallAsAsked(s, t, a, s', u);
    }
  }

  ghost predicate KeepsAsked(r: seq<State>) {
    && |r| > 0 && AllAsAsked(r[0])
    && forall i, j :: 0 <= i < j < |r| && j == i + 1 && AllAsAsked(r[i]) ==> AllAsAsked(r[j])
  }

  lemma RunKeepsAsked(r: seq<State>)
    requires Run(r) && Init(r[0])
    ensures KeepsAsked(r)
  {
    forall i, j | 0 <= i < j < |r| && j == i + 1 && AllAsAsked(r[i]) ensures AllAsAsked(r[j]) {
      RunReachable(r, i);
      StepAsAsked(r[i], r[j]);
    }
  }

  lemma {:induction false} AsAskedAt(r: seq<State>, i: nat)
    requires KeepsAsked(r) && i < |r|
    ensures AllAsAsked(r[i])
  {
    if i > 0 {
      AsAskedAt(r, i - 1);
    }
  }

  // Whatever a call of Configure has published has the limit and a driver that the
  // configuration gives under that name.
  lemma PublishedAsAsked(s: State, t: CallId, e: EntryId)
    requires Reachable(s) && t in s.threads && s.threads[t].caller.Configure? && IsOwn(s.heap, t, e)
    ensures var cfg, en := s.threads[t].caller.cfg, s.heap[e];
      && en.name in cfg && en.limit == cfg[en.name].limit && cfg[en.name].driver in s.drivers.builders
  {
    var r :| Run(r) && Init(r[0]) && r[|r| - 1] == s;
    RunKeepsAsked(r);
    AsAskedAt(r, |r| - 1);
    SourcedHere(s);
    assert Backed(s, e);
    var k :| Backs(s, e, k);
    assert AsAsked(s, t, s.threads[t].caller) && Publishes(s.log.hist[k]);
  }

  // So a configuration that was published has a source for each name, as it says.
  lemma ConfiguredAsAsked(s: State, t: CallId, n: Name) returns (e: EntryId)
    requires Reachable(s) && t in s.threads && s.threads[t].caller.Configure?
    requires s.threads[t].caller.phase == Finished(true) && n in s.threads[t].caller.cfg
    ensures IsOwn(s.heap, t, e) && s.heap[e].name == n && s.heap[e].limit == s.threads[t].caller.cfg[n].limit
    ensures s.threads[t].caller.cfg[n].driver in s.drivers.builders
  {
    SucceededConfigurePublished(s, t, n);
    e :| IsOwn(s.heap, t, e) && s.heap[e].name == n;
    PublishedAsAsked(s, t, e);
  }
}
