// What the invariant means for callers, in every reachable state.
module Safety {
  import opened Basics
  import opened Numerals
  import opened Registry
  import opened Protocol
  import opened Counting
  import opened Shape
  import opened Counters
  import opened Lifecycle
  import opened Draining
  import opened Linearity
  import opened Callbacks
  import opened Metrics
  import opened Brackets
  import opened Rollback
  import opened Ending
  import opened Invariant
  import opened Histories
  import opened Alternation

  ghost predicate Reachable(s: State) {
    exists r :: Run(r) && Init(r[0]) && r[|r| - 1] == s
  }

  lemma ReachableInv(s: State)
    requires Reachable(s)
    ensures Inv(s)
  {
    var r :| Run(r) && Init(r[0]) && r[|r| - 1] == s;
    RunInv(r, |r| - 1);
  }

  // The parts of the invariant, one by one.
  lemma ShapedHere(s: State)
    requires Reachable(s)
    ensures Shaped(s) && Locked(s)
  {
    ReachableInv(s);
  }

  lemma CountedHere(s: State)
    requires Reachable(s)
    ensures Counted(s)
  {
    ReachableInv(s);
  }

  lemma LivesHere(s: State)
    requires Reachable(s)
    ensures Lives(s) && Rested(s.threads, s.heap)
  {
    ReachableInv(s);
  }

  lemma LinearHere(s: State)
    requires Reachable(s)
    ensures Linear(s)
  {
    ReachableInv(s);
  }

  lemma InOrderHere(s: State)
    requires Reachable(s)
    ensures InOrder(s) && Metered(s) && Bracketed(s)
  {
    ReachableInv(s);
  }

  lemma ConfiguredHere(s: State)
    requires Reachable(s)
    ensures Configured(s)
  {
    ReachableInv(s);
  }

  lemma SettledHere(s: State)
    requires Reachable(s)
    ensures Settled(s)
  {
    ReachableInv(s);
  }

  // No use after close: while a Run is admitted to an entry, and so while it is
  // inside fn, the entry's client is open and nobody has reached its close.
  lemma NoUseAfterClose(s: State, t: CallId, e: EntryId)
    requires Reachable(s) && t in s.threads && Used(s.threads[t].pc) == Some(e)
    ensures e in s.heap && s.heap[e].wg > 0
    ensures s.custody.closes[s.heap[e].client] == 0
    ensures forall u :: u in s.threads ==> !(s.threads[u].pc.Close? && s.threads[u].pc.entry == e)
  {
    CountedHere(s);
    LivesHere(s);
    CountZero(s.threads, User(e));
    assert Balanced(s.heap[e], Count(s.threads, User(e)), Count(s.threads, TokenHolder(e)));
    assert !IsShut(s.heap, e) && !Over(s.heap, s.custody.clients, s.heap[e].client);
  }

  predicate HeldByOpener(s: State, c: ClientId) {
    exists t :: t in s.threads && Held(s.threads[t].pc) == Some(c)
  }

  predicate InTheMap(s: State, c: ClientId) {
    exists n :: n in s.dir.entries && s.dir.entries[n] in s.heap && s.heap[s.dir.entries[n]].client == c
  }

  predicate WithRemover(s: State, t: CallId, c: ClientId) {
    t in s.threads && exists e :: e in Owned(s.threads[t].pc) && e in s.heap && s.heap[e].client == c
  }

  predicate OwnedByRemover(s: State, c: ClientId) {
    exists t :: t in s.threads && WithRemover(s, t, c)
  }

  lemma PlaceOfEntry(s: State, c: ClientId, e: EntryId)
    requires Lives(s) && c in s.custody.clients && s.custody.clients[c] == InEntry(e)
    ensures e in s.heap && s.heap[e].client == c
    ensures !HeldByOpener(s, c)
    ensures InTheMap(s, c) <==> s.heap[e].stage.Live?
    ensures OwnedByRemover(s, c) <==> s.heap[e].stage.Taken?
    ensures forall t :: WithRemover(s, t, c) ==> s.heap[e].stage == Taken(t)
  {
    forall t | t in s.threads ensures Held(s.threads[t].pc) != Some(c) {
      CallHolds(s, t);
      assert !IsHeld(s.custody.clients, c, t);
    }
    if s.heap[e].stage.Live? {
      assert s.dir.entries[s.heap[e].name] == e;
    }
    forall t | WithRemover(s, t, c) ensures s.heap[e].stage == Taken(t) {
      CallOwns(s, t);
      var x :| x in Owned(s.threads[t].pc) && x in s.heap && s.heap[x].client == c;
      assert IsTaken(s.heap, x, t);
    }
    if s.heap[e].stage.Taken? {
      var t := s.heap[e].stage.taker;
      CallOwns(s, t);
      assert IsTaken(s.heap, e, t);
      assert WithRemover(s, t, c);
    }
  }

  lemma PlaceOutside(s: State, c: ClientId)
    requires Lives(s) && c in s.custody.clients && !s.custody.clients[c].InEntry?
    ensures HeldByOpener(s, c) <==> s.custody.clients[c].HeldBy?
    ensures !InTheMap(s, c) && !OwnedByRemover(s, c)
  {
    forall t | t in s.threads && Held(s.threads[t].pc) == Some(c) ensures s.custody.clients[c] == HeldBy(t) {
      CallHolds(s, t);
      assert IsHeld(s.custody.clients, c, t);
    }
    if s.custody.clients[c].HeldBy? {
      var t := s.custody.clients[c].call;
      CallHolds(s, t);
      assert IsHeld(s.custody.clients, c, t);
    }
  }

  // Client conservation: every client a driver opened is in exactly one place,
  // held by its opener, in the map, owned by a remover, or closed once.
  lemma ClientConservation(s: State, c: ClientId)
    requires Reachable(s) && c in s.custody.clients
    ensures One(HeldByOpener(s, c)) + One(InTheMap(s, c)) + One(OwnedByRemover(s, c)) + s.custody.closes[c] == 1
  {
    LivesHere(s);
    match s.custody.clients[c]
    case InEntry(e) => PlaceOfEntry(s, c, e);
    case _ => PlaceOutside(s, c);
  }

  // Two removers never share an entry, and two openers never share a client.
  lemma OneOwner(s: State, t: CallId, u: CallId, e: EntryId)
    requires Reachable(s) && t in s.threads && u in s.threads
    requires e in Owned(s.threads[t].pc) && e in Owned(s.threads[u].pc)
    ensures t == u && e in s.heap && e !in s.dir.entries.Values
  {
    LivesHere(s);
    CallOwns(s, t);
    CallOwns(s, u);
    assert IsTaken(s.heap, e, t) && IsTaken(s.heap, e, u);
  }

  // Only clients that were opened are closed.
  lemma OnlyOpenedClose(s: State, c: ClientId)
    requires Reachable(s) && c !in s.custody.clients
    ensures s.custody.closes[c] == 0
  {
    LivesHere(s);
    assert !Over(s.heap, s.custody.clients, c);
  }

  lemma NothingLive(s: State, c: ClientId)
    requires Reachable(s) && s.dir.closed
    ensures !InTheMap(s, c)
  {
    LivesHere(s);
  }

  // When every call has returned and some RemoveAll was among them, every
  // client ever opened has been closed exactly once.
  lemma AllClosedAtTheEnd(s: State, t: CallId, c: ClientId)
    requires Reachable(s) && (forall u :: u in s.threads ==> Returns(s.threads[u]))
    requires t in s.threads && s.threads[t].op.RemoveAll? && s.threads[t].res.Some?
    requires c in s.custody.clients
    ensures s.custody.closes[c] == 1
  {
    SettledHere(s);
    NothingLive(s, c);
    ClientConservation(s, c);
    forall u | u in s.threads ensures Owned(s.threads[u].pc) == {} && Held(s.threads[u].pc) == None {
      assert Returns(s.threads[u]);
    }
    assert !HeldByOpener(s, c) && !OwnedByRemover(s, c);
  }

  // When a removal returns, what it took is drained and closed.
  lemma RemovalFinished(s: State, t: CallId, e: EntryId)
    requires Reachable(s) && t in s.threads && s.threads[t].pc.Done? && e in BatchOf(s.threads[t].res)
    ensures e in s.heap && s.heap[e].wg == 0 && s.custody.closes[s.heap[e].client] == 1
    ensures forall u :: u in s.threads ==> Used(s.threads[u].pc) != Some(e)
  {
    SettledHere(s);
    LivesHere(s);
    CountedHere(s);
    assert IsShut(s.heap, e) && Idle(s.heap, e);
    assert Over(s.heap, s.custody.clients, s.heap[e].client);
    assert Balanced(s.heap[e], Count(s.threads, User(e)), Count(s.threads, TokenHolder(e)));
    CountZero(s.threads, User(e));
  }

  // Terminal close: when RemoveAll returns, no register is between Add and Done,
  // and every client that was not published is closed.
  lemma TerminalClose(s: State, t: CallId, c: ClientId)
    requires Reachable(s) && t in s.threads && s.threads[t].pc.Done?
    requires s.threads[t].op.RemoveAll? && s.threads[t].res.Some?
    ensures s.dir.closed && s.dir.entries == map[] && s.dir.openings == 0
    ensures forall u :: u in s.threads ==> !Plays(s.threads[u], Opener)
    ensures c in s.custody.clients && !s.custody.clients[c].InEntry? ==> s.custody.closes[c] == 1
  {
    SettledHere(s);
    LivesHere(s);
    CountedHere(s);
    CountZero(s.threads, Opener);
    if c in s.custody.clients && !s.custody.clients[c].InEntry? {
      ClientConservation(s, c);
      PlaceOutside(s, c);
    }
  }

  // Token conservation: tokens in the channel and Runs holding one make up the
  // limit, so at most that many fns run at once.
  lemma TokenConservation(s: State, e: EntryId)
    requires Reachable(s) && e in s.heap && s.heap[e].limit > 0
    ensures s.heap[e].tokens + Count(s.threads, TokenHolder(e)) == s.heap[e].limit
    ensures 0 <= s.heap[e].tokens
    ensures |Fns(s, e)| <= s.heap[e].limit
  {
    CountedHere(s);
    assert Balanced(s.heap[e], Count(s.threads, User(e)), Count(s.threads, TokenHolder(e)));
    FnsHoldTokens(s, e);
  }

  // The calls running fn on an entry's client right now.
  ghost function Fns(s: State, e: EntryId): set<CallId> {
    set t | t in s.threads && s.threads[t].pc == InFn(e)
  }

  lemma FnsHoldTokens(s: State, e: EntryId)
    ensures |Fns(s, e)| <= Count(s.threads, TokenHolder(e))
  {
    SubsetSize(Fns(s, e), Players(s.threads, TokenHolder(e)));
  }

  // All tokens are back once the client is closed, panics included.
  lemma TokensBackWhenClosed(s: State, e: EntryId)
    requires Reachable(s) && e in s.heap && s.custody.closes[s.heap[e].client] > 0
    ensures s.heap[e].tokens == Capacity(s.heap[e].limit) && s.heap[e].wg == 0
  {
    CountedHere(s);
    LivesHere(s);
    assert Over(s.heap, s.custody.clients, s.heap[e].client);
    assert IsShut(s.heap, e) && Idle(s.heap, e);
    assert Balanced(s.heap[e], Count(s.threads, User(e)), Count(s.threads, TokenHolder(e)));
    CountZero(s.threads, User(e));
    CountZero(s.threads, TokenHolder(e));
  }

  // Release never blocks: the channel has room whenever a Run gives its token back.
  lemma ReleaseNeverBlocks(s: State, t: CallId)
    requires Reachable(s) && t in s.threads && s.threads[t].pc.TokenBack?
    ensures s.threads[t].pc.entry in s.heap
    ensures var en := s.heap[s.threads[t].pc.entry]; en.limit > 0 ==> en.tokens < en.limit
  {
    CountedHere(s);
    var e := s.threads[t].pc.entry;
    assert Used(s.threads[t].pc) == Some(e);
    assert Balanced(s.heap[e], Count(s.threads, User(e)), Count(s.threads, TokenHolder(e)));
    CountZero(s.threads, TokenHolder(e));
  }

  // Callback order: delivered callbacks are a prefix of the mutations, in order,
  // and for each name they alternate.
  lemma CallbackOrder(s: State, n: Name)
    requires Reachable(s) && s.observed
    ensures OfLifecycle(s.log.trace) + Pending(s.locks.om, s.threads) + Pending(s.locks.mu, s.threads) ==
      Mutations(s.log.hist)
    ensures Alternates(OfName(OfLifecycle(s.log.trace), n))
  {
    InOrderHere(s);
    LinearHere(s);
    MutationsAlternate(s.log.hist, n);
    DeliveredAlternate(OfLifecycle(s.log.trace), Pending(s.locks.om, s.threads), Pending(s.locks.mu, s.threads),
                       Mutations(s.log.hist), n);
  }

  lemma DeliveredAlternate(a: seq<Callback>, b: seq<Callback>, c: seq<Callback>, m: seq<Callback>, n: Name)
    requires a + b + c == m && Alternates(OfName(m, n))
    ensures Alternates(OfName(a, n))
  {
    assert a + (b + c) == m;
    PrefixAlternates(a, b + c, n);
  }

  // Linearizability: an operation with an answer has taken effect exactly once,
  // at one position of a legal history, with that answer.
  lemma Linearizable(s: State, t: CallId) returns (k: nat)
    requires Reachable(s) && t in s.threads && s.threads[t].res.Some?
    ensures LegalHistory(s.log.hist) && Replay(s.log.hist) == RegOf(s)
    ensures k < |s.log.hist| && s.log.hist[k] == Event(t, s.threads[t].op, s.threads[t].res.value)
    ensures Legal(Replay(s.log.hist[..k]), s.threads[t].op, s.threads[t].res.value)
    ensures Effects(s.log.hist, t) == s.threads[t].ops
    ensures forall l :: k < l < |s.log.hist| ==> s.log.hist[l].call != t
  {
    ShapedHere(s);
    LinearHere(s);
    k := LastAt(s.log.hist, t);
    PrefixLegal(s.log.hist, k);
    assert Fits(s.threads[t]);
  }

  lemma {:induction false} LastAt(h: History, t: CallId) returns (k: nat)
    requires LastOf(h, t).Some?
    ensures k < |h| && h[k] == LastOf(h, t).value && h[k].call == t
    ensures forall l :: k < l < |h| ==> h[l].call != t
  {
    if h[|h| - 1].call == t {
      k := |h| - 1;
    } else {
      k := LastAt(h[..|h| - 1], t);
    }
  }

  // Source identity: a Source only ever runs on the entry it captured; one built
  // before registration never runs.
  lemma SourceKeepsIdentity(s: State, t: CallId)
    requires Reachable(s) && t in s.threads && s.threads[t].op.AcquireSource?
    ensures Used(s.threads[t].pc).Some? ==> Used(s.threads[t].pc) == s.threads[t].op.entry
    ensures s.threads[t].op.entry.None? && s.threads[t].pc.Done? ==> s.threads[t].pc.out == Nothing
  {
    ShapedHere(s);
    assert Fits(s.threads[t]);
    if s.threads[t].res.Some? {
      var k := Linearizable(s, t);
    }
  }

  // Configure under interference: after it returned an error nothing it published is in the map.
  lemma FailedConfigureLeavesNothing(s: State, t: CallId, n: Name)
    requires Reachable(s) && t in s.threads && s.threads[t].caller.Configure?
    requires s.threads[t].caller.phase == Finished(false) && n in s.dir.entries
    ensures s.dir.entries[n] in s.heap && s.heap[s.dir.entries[n]].publisher != t
  {
    ConfiguredHere(s);
    LivesHere(s);
    var ps := s.threads[t].caller.published;
    var e := s.dir.entries[n];
    assert Configuring(s.heap, t, s.threads[t]);
    assert Lists(ps, e) ==> IsDead(s.heap, e);
  }

  // A successful Configure published exactly the configured names, each as an entry of its own.
  lemma SucceededConfigurePublished(s: State, t: CallId, n: Name)
    requires Reachable(s) && t in s.threads && s.threads[t].caller.Configure?
    requires s.threads[t].caller.phase == Finished(true)
    ensures n in s.threads[t].caller.cfg <==> exists e :: IsOwn(s.heap, t, e) && s.heap[e].name == n
  {
    ConfiguredHere(s);
    var c := s.threads[t].caller;
    assert Configuring(s.heap, t, s.threads[t]);
    if n in c.cfg {
      assert Names(c.published, n);
      var i :| 0 <= i < |c.published| && c.published[i].name == n;
      assert IsOwn(s.heap, t, c.published[i].entry);
    }
    if e :| IsOwn(s.heap, t, e) && s.heap[e].name == n {
      assert Lists(c.published, e);
      var i :| 0 <= i < |c.published| && c.published[i].entry == e;
      assert Names(c.published, n);
    }
  }

  // A rollback takes out of the map only entries its own call published.
  lemma RollbackTakesOwn(s: State, t: CallId, a: RemoveStep, s': State, e: EntryId)
    requires Reachable(s) && t in s.threads && t in s'.threads && StepRemove(s, t, s.threads[t], a, s'.threads[t], s')
    requires s.threads[t].caller.Configure?
    requires e in s.heap && s.heap[e].stage.Live? && e in s'.heap && !s'.heap[e].stage.Live?
    ensures s.heap[e].publisher == t
  {
    ShapedHere(s);
    ConfiguredHere(s);
    LivesHere(s);
    CallOwns(s, t);
    RollbackRemoves(s, t, s.threads[t], a, s'.threads[t], s', e);
  }

  lemma RollbackRemoves(s: State, t: CallId, th: Thread, a: RemoveStep, th': Thread, s': State, e: EntryId)
    requires Fits(th) && Configuring(s.heap, t, th) && OwnedBy(s.heap, t, Owned(th.pc))
    requires StepRemove(s, t, th, a, th', s') && th.caller.Configure?
    requires e in s.heap && s.heap[e].stage.Live? && e in s'.heap && !s'.heap[e].stage.Live?
    ensures s.heap[e].publisher == t
  {
    assert th.pc.Close? ==> IsTaken(s.heap, th.pc.entry, t);
    if a.RemoveFirst? {
      FirstOfRest(s.heap, t, th);
    }
  }

  // A Run that has returned made exactly its own callbacks: none if it was not
  // admitted, one failed acquire if it gave up, else one acquire and one complete
  // with the outcome it returned.
  lemma RunBracketed(s: State, t: CallId)
    requires Reachable(s) && s.observed && t in s.threads && IsRun(s.threads[t].op) && s.threads[t].pc.Done?
    ensures OfCall(s.log.trace, t) == Made(t, s.threads[t].op.name, s.threads[t].pc.out)
    ensures var n, out := s.threads[t].op.name, s.threads[t].pc.out;
      OfCall(s.log.trace, t) == if out.Nothing? then [] else if out.GaveUp? then [AcquireDone(n, false, t)]
                                else [AcquireDone(n, true, t), RunDone(n, out, t)]
  {
    InOrderHere(s);
    assert OfCall(s.log.trace, t) == Due(t, ThreadOf(s, t));
  }

  // A returned Run has no outcome exactly when it was not admitted.
  lemma NoOutcomeWithoutAdmission(s: State, t: CallId)
    requires Reachable(s) && t in s.threads && IsRun(s.threads[t].op) && s.threads[t].pc.Done?
    ensures s.threads[t].pc.out.Nothing? <==> s.threads[t].res == Some(NotFound)
  {
    ShapedHere(s);
    assert Fits(s.threads[t]);
    var k := Linearizable(s, t);
  }

  // The inflight gauge is the number of Runs in flight, never negative; with it
  // granted waits and completed Runs balance.
  lemma InflightAgrees(s: State, n: Name)
    requires Reachable(s) && s.observed
    ensures Flying(Fold(s.log.trace), n) == Count(s.threads, InFlight(n))
    ensures Get(Fold(s.log.trace).wait, Label(n, Ok)) == RunsOf(Fold(s.log.trace), n) + Count(s.threads, InFlight(n))
  {
    InOrderHere(s);
    Conservation(s.log.trace, n);
  }

  lemma {:induction false} OfCallHas(trace: seq<Callback>, i: nat, t: CallId)
    requires i < |trace| && IsOf(trace[i], t)
    ensures trace[i] in OfCall(trace, t)
  {
    if i < |trace| - 1 {
      OfCallHas(trace[..|trace| - 1], i, t);
    }
  }

  // A complete callback tells one of fn's own endings.
  lemma CompletesTold(s: State, i: nat)
    requires Reachable(s) && s.observed && i < |s.log.trace| && s.log.trace[i].RunDone?
    ensures !s.log.trace[i].out.Nothing? && !s.log.trace[i].out.GaveUp?
  {
    var t := s.log.trace[i].call;
    ShapedHere(s);
    InOrderHere(s);
    OfCallHas(s.log.trace, i, t);
    assert OfCall(s.log.trace, t) == Due(t, ThreadOf(s, t));
    DueTold(t, ThreadOf(s, t), s.log.trace[i]);
  }

  lemma DueTold(t: CallId, th: Thread, cb: Callback)
    requires cb in Due(t, th) && cb.RunDone?
    ensures !cb.out.Nothing? && !cb.out.GaveUp?
  {
  }

  // So what is counted as ok returned a value, and what is counted as canceled returned
  // the error of its context.
  lemma StatusesAgree(s: State, n: Name)
    requires Reachable(s) && s.observed
    ensures var run := Fold(s.log.trace).run;
      && Get(run, Label(n, Ok)) == |EndedIn(s.log.trace, n, {Value})|
      && Get(run, Label(n, CanceledStatus)) == |EndedIn(s.log.trace, n, {Canceled})|
      && Get(run, Label(n, ErrorStatus)) == |EndedIn(s.log.trace, n, {Failed, Panicked})|
  {
    RunsByStatus(s.log.trace, n);
    forall i: nat | i < |s.log.trace| && s.log.trace[i].RunDone?
      ensures !s.log.trace[i].out.Nothing? && !s.log.trace[i].out.GaveUp?
    {
      CompletesTold(s, i);
    }
    assert EndedIn(s.log.trace, n, {Value, Nothing}) == EndedIn(s.log.trace, n, {Value});
    assert EndedIn(s.log.trace, n, {Canceled, GaveUp}) == EndedIn(s.log.trace, n, {Canceled});
  }

  lemma {:induction false} ActiveIsNet(trace: seq<Callback>)
    ensures Fold(trace).active == Net(OfLifecycle(trace))
  {
    if trace != [] {
      var init, last := trace[..|trace| - 1], trace[|trace| - 1];
      ActiveIsNet(init);
      NetConcat(OfLifecycle(init), if IsLifecycle(last) then [last] else []);
      assert Net([last]) == Net([]) + Net([last]);
    }
  }

  // The sources_active gauge plus what is still pending is the number of sources.
  lemma ActiveAgrees(s: State)
    requires Reachable(s) && s.observed
    ensures Fold(s.log.trace).active + Net(Pending(s.locks.om, s.threads)) + Net(Pending(s.locks.mu, s.threads))
         == |s.dir.entries|
  {
    InOrderHere(s);
    LinearHere(s);
    var a, b, c := OfLifecycle(s.log.trace), Pending(s.locks.om, s.threads), Pending(s.locks.mu, s.threads);
    ActiveIsNet(s.log.trace);
    NetConcat(a + b, c);
    NetConcat(a, b);
    NetIsSize(s.log.hist);
  }
}
