// Where every entry and every client is: in the map, with the one remover that
// took it, or closed; and a client on its way in, with the call that opened it.
module Lifecycle {
  import opened Basics
  import opened Registry
  import opened Protocol
  import opened Counting
  import opened Shape

  type Heap = map<EntryId, Entry>
  type Holders = map<ClientId, Holder>
  type Threads = map<CallId, Thread>

  // The entries map holds exactly the live entries, and nothing once closed.
  ghost predicate Mapped(d: Dir, heap: Heap) {
    && (forall n :: n in d.entries ==>
          d.entries[n] in heap && heap[d.entries[n]].name == n && heap[d.entries[n]].stage.Live?)
    && (forall e :: e in heap && heap[e].stage.Live? ==> heap[e].name in d.entries && d.entries[heap[e].name] == e)
    && (d.closed ==> d.entries == map[])
  }

  // Entries a call took out of the map and has not closed yet.
  function OwnedNext(next: Next): set<EntryId> {
    match next
    case ToFinish => {}
    case ToWait(e) => {e}
    case ToDrain(batch) => batch
  }

  function Owned(pc: Pc): set<EntryId> {
    match pc
    case Handover(_, next) => OwnedNext(next)
    case Notify(_, next) => OwnedNext(next)
    case Drain(rest) => rest
    case Wait(e, rest) => {e} + rest
    case Close(e, rest) => {e} + rest
    case _ => {}
  }

  // A client its opener has neither published nor closed yet.
  function Held(pc: Pc): Option<ClientId> {
    match pc
    case Opened(c) => Some(c)
    case Discard(c) => Some(c)
    case _ => None
  }

  predicate IsTaken(heap: Heap, e: EntryId, t: CallId) { e in heap && heap[e].stage == Taken(t) }

  // Taken entries and their removers match one to one.
  ghost predicate OwnedBy(heap: Heap, t: CallId, owned: set<EntryId>) {
    forall e: EntryId :: e in owned <==> IsTaken(heap, e, t)
  }

  ghost predicate Removers(ths: Threads, heap: Heap) {
    && (forall t :: t in ths ==> OwnedBy(heap, t, Owned(ths[t].pc)))
    && (forall e :: e in heap && heap[e].stage.Taken? ==> heap[e].stage.taker in ths)
  }

  predicate IsHeld(clients: Holders, c: ClientId, t: CallId) { c in clients && clients[c] == HeldBy(t) }

  // Held clients and their openers match one to one.
  ghost predicate HeldOnlyBy(clients: Holders, t: CallId, held: Option<ClientId>) {
    forall c: ClientId :: held == Some(c) <==> IsHeld(clients, c, t)
  }

  ghost predicate Openers(ths: Threads, clients: Holders) {
    && (forall t :: t in ths ==> HeldOnlyBy(clients, t, Held(ths[t].pc)))
    && (forall c :: c in clients && clients[c].HeldBy? ==> clients[c].call in ths)
  }

  // Published clients and entries match one to one.
  ghost predicate Clients(heap: Heap, clients: Holders) {
    && (forall e :: e in heap ==> heap[e].client in clients && clients[heap[e].client] == InEntry(e))
    && (forall c :: c in clients && clients[c].InEntry? ==>
          clients[c].entry in heap && heap[clients[c].entry].client == c)
  }

  predicate IsShut(heap: Heap, e: EntryId) { e in heap && heap[e].stage.Shut? }

  predicate Over(heap: Heap, clients: Holders, c: ClientId) {
    c in clients && (clients[c].Discarded? || (clients[c].InEntry? && IsShut(heap, clients[c].entry)))
  }

  // Every finished client was closed once, every other client never.
  ghost predicate ClosedOnce(heap: Heap, cu: Custody) {
    forall c :: cu.closes[c] == One(Over(heap, cu.clients, c))
  }

  ghost predicate Lives(s: State) {
    && Mapped(s.dir, s.heap)
    && Removers(s.threads, s.heap)
    && Openers(s.threads, s.custody.clients)
    && Clients(s.heap, s.custody.clients)
    && ClosedOnce(s.heap, s.custody)
  }

  // The fields of an entry that never change.
  ghost predicate Kept(heap: Heap, heap': Heap) {
    && heap.Keys <= heap'.Keys
    && (forall e :: e in heap ==>
          heap'[e].name == heap[e].name && heap'[e].client == heap[e].client
          && heap'[e].limit == heap[e].limit && heap'[e].publisher == heap[e].publisher)
  }

  // Nothing changes in heap but counters.
  ghost predicate SameStages(heap: Heap, heap': Heap) {
    && heap'.Keys == heap.Keys && Kept(heap, heap')
    && (forall e :: e in heap ==> heap'[e].stage == heap[e].stage)
  }

  lemma RemoversPut(ths: Threads, heap: Heap, t: CallId, th: Thread, heap': Heap)
    requires Removers(ths, heap)
    requires OwnedBy(heap', t, Owned(th.pc))
    requires forall e: EntryId, u: CallId :: u != t ==> (IsTaken(heap', e, u) <==> IsTaken(heap, e, u))
    ensures Removers(ths[t := th], heap')
  {
    forall e | e in heap' && heap'[e].stage.Taken? ensures heap'[e].stage.taker in ths[t := th] {
      assert IsTaken(heap', e, heap'[e].stage.taker);
    }
  }

  lemma OpenersPut(ths: Threads, clients: Holders, t: CallId, th: Thread, clients': Holders)
    requires Openers(ths, clients)
    requires HeldOnlyBy(clients', t, Held(th.pc))
    requires forall c: ClientId, u: CallId :: u != t ==> (IsHeld(clients', c, u) <==> IsHeld(clients, c, u))
    ensures Openers(ths[t := th], clients')
  {
    forall c | c in clients' && clients'[c].HeldBy? ensures clients'[c].call in ths[t := th] {
      assert IsHeld(clients', c, clients'[c].call);
    }
  }

  lemma CallOwns(s: State, t: CallId)
    requires Removers(s.threads, s.heap)
    ensures OwnedBy(s.heap, t, Owned(ThreadOf(s, t).pc))
  {
  }

  lemma CallHolds(s: State, t: CallId)
    requires Openers(s.threads, s.custody.clients)
    ensures HeldOnlyBy(s.custody.clients, t, Held(ThreadOf(s, t).pc))
  {
  }

  // Steps that move no entry and no client.
  ghost predicate Still(s: State, was: Pc, now: Pc, s': State) {
    && s'.dir.entries == s.dir.entries && s'.dir.closed == s.dir.closed
    && SameStages(s.heap, s'.heap)
    && s'.custody == s.custody
    && Owned(now) == Owned(was) && Held(now) == Held(was)
  }

  lemma KeepStill(s: State, t: CallId, s': State)
    requires Lives(s)
    requires t in s'.threads && s'.threads == s.threads[t := s'.threads[t]]
    requires Still(s, ThreadOf(s, t).pc, s'.threads[t].pc, s')
    ensures Lives(s')
  {
    CallOwns(s, t);
    CallHolds(s, t);
    RemoversPut(s.threads, s.heap, t, s'.threads[t], s'.heap);
    OpenersPut(s.threads, s.custody.clients, t, s'.threads[t], s'.custody.clients);
  }

  // RegisterSecond or DiscardClient or OpenSucceeds changes custody.
  lemma RegisterStill(s: State, t: CallId, th: Thread, a: RegisterStep, th': Thread, s': State)
    requires StepRegister(s, t, th, a, th', s') && !a.OpenSucceeds? && !a.DiscardClient?
    requires a.RegisterSecond? ==> s.dir.closed || th.op.name in s.dir.entries
    ensures Still(s, th.pc, th'.pc, s')
  {
  }

  lemma NotifyStill(s: State, t: CallId, th: Thread, a: NotifyStep, th': Thread, s': State)
    requires StepNotify(s, t, th, a, th', s')
    ensures Still(s, th.pc, th'.pc, s')
  {
  }

  lemma RemoveStill(s: State, t: CallId, th: Thread, a: RemoveStep, th': Thread, s': State)
    requires StepRemove(s, t, th, a, th', s') && !a.Swap? && !a.CloseClient?
    requires a.RemoveFirst? ==> !Matches(s.dir, th.op.name, th.op.expected)
    ensures Still(s, th.pc, th'.pc, s')
  {
  }

  lemma RunStages(s: State, t: CallId, th: Thread, a: RunStep, th': Thread, s': State)
    requires StepRun(s, t, th, a, th', s')
    ensures SameStages(s.heap, s'.heap)
  {
  }

  lemma RunStill(s: State, t: CallId, th: Thread, a: RunStep, th': Thread, s': State)
    requires StepRun(s, t, th, a, th', s')
    ensures Still(s, th.pc, th'.pc, s')
  {
    RunStages(s, t, th, a, th', s');
    RunHoldsNothing(s, t, th, a, th', s');
  }

  lemma RunHoldsNothing(s: State, t: CallId, th: Thread, a: RunStep, th': Thread, s': State)
    requires StepRun(s, t, th, a, th', s')
    ensures Owned(th.pc) == {} && Owned(th'.pc) == {} && Held(th.pc) == Held(th'.pc)
    ensures s'.dir == s.dir && s'.custody == s.custody
  {
  }

  lemma OtherStill(s: State, t: CallId, a: OtherStep, th': Thread, s': State)
    requires StepOther(s, t, a, th', s')
    requires t in s.threads ==> Fits(s.threads[t])
    ensures Still(s, ThreadOf(s, t).pc, th'.pc, s')
  {
  }

  // What becomes of the map and the clients when live entries are taken out.
  lemma TakeMapped(d: Dir, heap: Heap, batch: set<EntryId>, t: CallId, d': Dir)
    requires Mapped(d, heap) && d'.entries.Keys <= d.entries.Keys
    requires forall n :: n in d.entries ==> (n in d'.entries <==> d.entries[n] !in batch)
    requires forall n :: n in d'.entries ==> d'.entries[n] == d.entries[n]
    requires d'.closed ==> d'.entries == map[]
    ensures Mapped(d', Take(heap, batch, t))
  {
  }

  lemma TakeRemovers(ths: Threads, heap: Heap, batch: set<EntryId>, t: CallId, th: Thread)
    requires Removers(ths, heap)
    requires forall e :: e in batch ==> e in heap && heap[e].stage.Live?
    requires t in ths && Owned(ths[t].pc) == {} && Owned(th.pc) == batch
    ensures Removers(ths[t := th], Take(heap, batch, t))
  {
    var heap' := Take(heap, batch, t);
    assert OwnedBy(heap, t, {});
    forall e: EntryId, u: CallId | u != t ensures IsTaken(heap', e, u) <==> IsTaken(heap, e, u) {
    }
    forall e: EntryId ensures e in batch <==> IsTaken(heap', e, t) {
      assert !IsTaken(heap, e, t);
    }
    RemoversPut(ths, heap, t, th, heap');
  }

  lemma TakeClients(heap: Heap, cu: Custody, batch: set<EntryId>, t: CallId)
    requires Clients(heap, cu.clients) && ClosedOnce(heap, cu)
    requires forall e :: e in batch ==> e in heap && heap[e].stage.Live?
    ensures Clients(Take(heap, batch, t), cu.clients) && ClosedOnce(Take(heap, batch, t), cu)
  {
    var heap' := Take(heap, batch, t);
    forall c ensures Over(heap', cu.clients, c) == Over(heap, cu.clients, c) {
    }
  }

  // A call that holds nothing takes a batch of live entries out of the map.
  lemma TakeMoves(s: State, t: CallId, batch: set<EntryId>, th': Thread, s': State)
    requires Lives(s) && t in s.threads && s'.threads == s.threads[t := th']
    requires s'.heap == Take(s.heap, batch, t) && s'.custody == s.custody
    requires Owned(s.threads[t].pc) == {} && Owned(th'.pc) == batch
    requires Held(s.threads[t].pc) == Held(th'.pc) && Mapped(s'.dir, s'.heap)
    requires forall e :: e in batch ==> e in s.heap && s.heap[e].stage.Live?
    ensures Lives(s')
  {
    TakeRemovers(s.threads, s.heap, batch, t, th');
    TakeClients(s.heap, s.custody, batch, t);
    CallHolds(s, t);
    OpenersPut(s.threads, s.custody.clients, t, th', s.custody.clients);
  }

  lemma RemoveMoves(s: State, t: CallId, th: Thread, th': Thread, s': State)
    requires Lives(s) && t in s.threads && th == s.threads[t] && StepRemove(s, t, th, RemoveFirst, th', s')
    requires Matches(s.dir, th.op.name, th.op.expected)
    ensures Lives(s')
  {
    var e := s.dir.entries[th.op.name];
    TakeMapped(s.dir, s.heap, {e}, t, s'.dir);
    TakeMoves(s, t, {e}, th', s');
  }

  lemma SwapMoves(s: State, t: CallId, th: Thread, order: seq<Name>, th': Thread, s': State)
    requires Lives(s) && t in s.threads && th == s.threads[t] && StepRemove(s, t, th, Swap(order), th', s')
    ensures Lives(s')
  {
    var batch := s.dir.entries.Values;
    TakeMapped(s.dir, s.heap, batch, t, s'.dir);
    TakeMoves(s, t, batch, th', s');
  }

  // Closing an entry's client ends the entry.
  lemma ShutEntry(heap: Heap, cu: Custody, e: EntryId, heap': Heap, cu': Custody)
    requires Clients(heap, cu.clients) && ClosedOnce(heap, cu)
    requires e in heap && !heap[e].stage.Shut? && heap' == heap[e := heap[e].(stage := Shut)]
    requires cu' == cu.(closes := cu.closes + multiset{heap[e].client})
    ensures Clients(heap', cu'.clients) && ClosedOnce(heap', cu')
  {
    forall c: ClientId ensures cu'.closes[c] == One(Over(heap', cu'.clients, c)) {
      assert Over(heap', cu.clients, c) == (c == heap[e].client || Over(heap, cu.clients, c));
    }
  }

  lemma ShutRemovers(d: Dir, ths: Threads, heap: Heap, e: EntryId, t: CallId, th: Thread, heap': Heap)
    requires Mapped(d, heap) && Removers(ths, heap)
    requires t in ths && e in Owned(ths[t].pc) && Owned(th.pc) == Owned(ths[t].pc) - {e}
    requires e in heap && heap' == heap[e := heap[e].(stage := Shut)]
    ensures Mapped(d, heap') && Removers(ths[t := th], heap')
  {
    assert OwnedBy(heap, t, Owned(ths[t].pc));
    assert IsTaken(heap, e, t);
    RemoversPut(ths, heap, t, th, heap');
  }

  lemma CloseMoves(s: State, t: CallId, th: Thread, th': Thread, s': State)
    requires Lives(s) && t in s.threads && th == s.threads[t] && StepRemove(s, t, th, CloseClient, th', s')
    requires FitsPc(th.op, th.res, th.pc)
    ensures Lives(s')
  {
    CallOwns(s, t);
    CloseShuts(s, t, th, th', s');
    CloseHolds(s, t, th, th', s');
  }

  lemma CloseShuts(s: State, t: CallId, th: Thread, th': Thread, s': State)
    requires Mapped(s.dir, s.heap) && Removers(s.threads, s.heap) && OwnedBy(s.heap, t, Owned(th.pc))
    requires Clients(s.heap, s.custody.clients) && ClosedOnce(s.heap, s.custody)
    requires t in s.threads && th == s.threads[t] && StepRemove(s, t, th, CloseClient, th', s')
    requires FitsPc(th.op, th.res, th.pc)
    ensures Mapped(s'.dir, s'.heap) && Removers(s'.threads, s'.heap)
    ensures Clients(s'.heap, s'.custody.clients) && ClosedOnce(s'.heap, s'.custody)
  {
    var e := th.pc.entry;
    assert IsTaken(s.heap, e, t);
    ShutEntry(s.heap, s.custody, e, s'.heap, s'.custody);
    ShutRemovers(s.dir, s.threads, s.heap, e, t, th', s'.heap);
  }

  lemma CloseHolds(s: State, t: CallId, th: Thread, th': Thread, s': State)
    requires Openers(s.threads, s.custody.clients) && t in s.threads && th == s.threads[t]
    requires StepRemove(s, t, th, CloseClient, th', s')
    ensures Openers(s'.threads, s'.custody.clients) && s'.dir == s.dir
  {
    assert HeldOnlyBy(s.custody.clients, t, Held(th.pc));
    OpenersPut(s.threads, s.custody.clients, t, th', s.custody.clients);
  }

  // A successful Open puts the client in its opener's hands.
  lemma OpenMoves(s: State, t: CallId, th: Thread, c: ClientId, th': Thread, s': State)
    requires Lives(s) && t in s.threads && th == s.threads[t] && StepRegister(s, t, th, OpenSucceeds(c), th', s')
    ensures Lives(s')
  {
    CallOwns(s, t);
    RemoversPut(s.threads, s.heap, t, th', s.heap);
    CallHolds(s, t);
    OpenersPut(s.threads, s.custody.clients, t, th', s'.custody.clients);
    forall d: ClientId ensures s'.custody.closes[d] == One(Over(s'.heap, s'.custody.clients, d)) {
      assert Over(s'.heap, s'.custody.clients, d) == Over(s.heap, s.custody.clients, d);
    }
  }

  lemma DiscardMoves(s: State, t: CallId, th: Thread, th': Thread, s': State)
    requires Lives(s) && t in s.threads && th == s.threads[t] && StepRegister(s, t, th, DiscardClient, th', s')
    ensures Lives(s')
  {
    var c := th.pc.client;
    CallOwns(s, t);
    RemoversPut(s.threads, s.heap, t, th', s.heap);
    CallHolds(s, t);
    assert IsHeld(s.custody.clients, c, t);
    OpenersPut(s.threads, s.custody.clients, t, th', s'.custody.clients);
    forall d: ClientId ensures s'.custody.closes[d] == One(Over(s'.heap, s'.custody.clients, d)) {
      assert Over(s'.heap, s'.custody.clients, d) == (d == c || Over(s.heap, s.custody.clients, d));
    }
  }

  lemma PublishRemovers(d: Dir, ths: Threads, heap: Heap, e: EntryId, en: Entry, t: CallId, th: Thread)
    requires Mapped(d, heap) && Removers(ths, heap) && !d.closed
    requires e !in heap && en.stage.Live? && en.name !in d.entries
    requires t in ths && Owned(ths[t].pc) == {} && Owned(th.pc) == {}
    ensures Mapped(d.(entries := d.entries[en.name := e]), heap[e := en]) && Removers(ths[t := th], heap[e := en])
  {
    assert OwnedBy(heap, t, Owned(ths[t].pc));
    RemoversPut(ths, heap, t, th, heap[e := en]);
  }

  // Publishing turns the held client into the client of a new live entry.
  lemma PublishMoves(s: State, t: CallId, th: Thread, e: EntryId, th': Thread, s': State)
    requires Lives(s) && t in s.threads && th == s.threads[t] && StepRegister(s, t, th, RegisterSecond(e), th', s')
    requires !s.dir.closed && th.op.name !in s.dir.entries
    ensures Lives(s')
  {
    var c := th.pc.client;
    PublishRemovers(s.dir, s.threads, s.heap, e, s'.heap[e], t, th');
    CallHolds(s, t);
    assert IsHeld(s.custody.clients, c, t);
    OpenersPut(s.threads, s.custody.clients, t, th', s'.custody.clients);
    PublishClient(s.heap, s.custody, c, e, s'.heap, s'.custody);
  }

  lemma PublishClient(heap: Heap, cu: Custody, c: ClientId, e: EntryId, heap': Heap, cu': Custody)
    requires Clients(heap, cu.clients) && ClosedOnce(heap, cu)
    requires e !in heap && c in cu.clients && cu.clients[c].HeldBy?
    requires e in heap' && heap' == heap[e := heap'[e]] && heap'[e].client == c && heap'[e].stage.Live?
    requires cu' == cu.(clients := cu.clients[c := InEntry(e)])
    ensures Clients(heap', cu'.clients) && ClosedOnce(heap', cu')
  {
    forall d: ClientId ensures cu'.closes[d] == One(Over(heap', cu'.clients, d)) {
      assert Over(heap', cu'.clients, d) == Over(heap, cu.clients, d);
    }
  }
}
