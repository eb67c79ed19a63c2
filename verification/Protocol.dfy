// The Directory protocol as a step machine over any number of calls.
// A step is one critical section under mu, or one action outside every lock.
module Protocol {
  import opened Basics
  import opened Registry

  // How a Run ended: fn returned nil, an error or a context error, or panicked; or
  // the context ended before the throttle let the Run through.
  datatype Outcome = Nothing | Value | Failed | Canceled | Panicked | GaveUp

  datatype Callback =
    | SourceRegistered(name: Name)
    | SourceRemoved(name: Name)
    | AcquireDone(name: Name, granted: bool, call: CallId)
    | RunDone(name: Name, out: Outcome, call: CallId)

  // What follows the lifecycle callbacks once observerMu is released.
  datatype Next = ToFinish | ToWait(entry: EntryId) | ToDrain(batch: set<EntryId>)

  datatype Pc =
    | Begin
    | Opening                                        // driver Open, outside every lock
    | Opened(client: ClientId)
    | Discard(client: ClientId)                      // closes a client it could not publish
    | Finish                                         // openings.Done is due
    | Handover(events: seq<Callback>, next: Next)    // has mutated, holds mu, waits for observerMu
    | Notify(events: seq<Callback>, next: Next)      // holds observerMu, delivers callbacks
    | Drain(rest: set<EntryId>)                      // RemoveAll's loop over the taken entries
    | Wait(entry: EntryId, rest: set<EntryId>)       // entry.wg.Wait
    | Close(entry: EntryId, rest: set<EntryId>)      // closeClient(entry.client)
    | WaitOpenings                                   // openings.Wait
    | Check(entry: EntryId)                          // ctx.Err before the throttle
    | Select(entry: EntryId)                         // token or ctx.Done
    | Refused(entry: EntryId)
    | Granted(entry: EntryId)
    | InFn(entry: EntryId)                           // fn(ctx, entry.client) is running
    | Returned(entry: EntryId, out: Outcome)
    | TokenBack(entry: EntryId, out: Outcome)        // throttle.Release is due
    | Release(entry: EntryId, out: Outcome)          // wg.Done is due
    | Done(out: Outcome)

  datatype Published = Published(name: Name, entry: EntryId)

  datatype Phase =
    | Publishing
    | RollingBack(rest: seq<Published>)
    | Finished(ok: bool)

  // Configure runs register and removeEntry one after another in one goroutine.
  datatype Caller =
    | Direct
    | Configure(cfg: map<Name, Config>, todo: map<Name, Config>, published: seq<Published>, phase: Phase)

  // `ops` counts the Directory operations this call has begun; `res` is the
  // answer the current one has taken effect with, if it has.
  datatype Thread = Thread(op: Op, pc: Pc, caller: Caller, cancelled: bool, ops: nat, res: Option<Result>)

  // Who is responsible for an entry's client. History information: no step reads it.
  datatype Stage = Live | Taken(taker: CallId) | Shut

  datatype Entry = Entry(name: Name, client: ClientId, limit: int, tokens: int, wg: int,
                         stage: Stage, publisher: CallId)

  datatype Holder = HeldBy(call: CallId) | InEntry(entry: EntryId) | Discarded

  datatype Locks = Locks(mu: Option<CallId>, om: Option<CallId>)  // mu and observerMu

  datatype Dir = Dir(entries: map<Name, EntryId>, closed: bool, openings: int)

  datatype Drivers = Drivers(builders: map<string, nat>, frozen: bool)

  // History information: where every opened client is, and which were closed.
  datatype Custody = Custody(clients: map<ClientId, Holder>, closes: multiset<ClientId>)

  // History information: operations in the order they took effect, callbacks as delivered.
  datatype Log = Log(hist: History, trace: seq<Callback>)

  datatype State = State(
    threads: map<CallId, Thread>, locks: Locks, dir: Dir, heap: map<EntryId, Entry>,
    drivers: Drivers, custody: Custody, log: Log, observed: bool)

  ghost predicate Init(s: State) {
    && s.threads == map[]
    && s.locks == Locks(None, None)
    && s.dir == Dir(map[], false, 0)
    && s.heap == map[]
    && !s.drivers.frozen
    && s.custody == Custody(map[], multiset{})
    && s.log == Log([], [])
  }

  // The steps of register, of the callback slot, of removal and of a Run.
  datatype RegisterStep =
    | RegisterFirst
    | OpenSucceeds(client: ClientId)
    | OpenFails
    | RegisterSecond(entry: EntryId)
    | DiscardClient
    | FinishRegister

  datatype NotifyStep = TakeObserverLock | Deliver | Unlock

  datatype RemoveStep =
    | RemoveFirst
    | Swap(order: seq<Name>)
    | Pick(entry: EntryId)
    | Drained
    | CloseClient
    | DrainDone
    | OpeningsDone

  datatype RunStep =
    | Admit
    | CheckContext
    | Grant
    | GiveUp
    | ObserveRefused
    | ObserveGranted
    | FnReturns(out: Outcome)
    | ObserveComplete
    | ReturnToken
    | WgDone

  datatype OtherStep =
    | Start(op: Op)
    | StartConfigure(cfg: map<Name, Config>, first: Name)
    | Cancel
    | Read
    | Continue(pick: Name)

  datatype Action =
    | Registering(reg: RegisterStep)
    | Notifying(note: NotifyStep)
    | Removing(rem: RemoveStep)
    | Running(run: RunStep)
    | Other(other: OtherStep)
    | AddDriver(driver: string, builder: nat)  // DriverRegistry.Register; panics once frozen or on a duplicate

  predicate IsRun(op: Op) { op.Acquire? || op.AcquireSource? }

  // The thread after the step at which its operation takes effect, and the log of that step.
  function Answered(th: Thread, pc: Pc, res: Result): Thread { th.(pc := pc, res := Some(res)) }

  function Record(log: Log, t: CallId, th: Thread, res: Result): Log {
    log.(hist := log.hist + [Event(t, th.op, res)])
  }

  function Emit(s: State, cb: Callback): Log {
    if s.observed then s.log.(trace := s.log.trace + [cb]) else s.log
  }

  // newThrottle: a positive limit fills the channel, anything else leaves it nil.
  function Capacity(limit: int): nat { if limit > 0 then limit else 0 }

  ghost predicate StepRegister(s: State, t: CallId, th: Thread, a: RegisterStep, th': Thread, s': State) {
    th.op.Register? &&
    var n := th.op.name;
    var ths := s.threads[t := th'];
    match a
    case RegisterFirst =>
      th.pc.Begin? && (n == "" || s.locks.mu.None?) &&
      if n != "" && !s.dir.closed && n !in s.dir.entries then
        th' == th.(pc := Opening)
        && s' == s.(threads := ths,
                    dir := s.dir.(openings := s.dir.openings + 1),
                    drivers := s.drivers.(frozen := true))
      else
        var res := if n == "" then NameRequired else if s.dir.closed then Closed else AlreadyRegistered;
        th' == Answered(th, Done(Nothing), res) && s' == s.(threads := ths, log := Record(s.log, t, th, res))
    case OpenSucceeds(c) =>
      th.pc.Opening? && th.op.cfg.driver in s.drivers.builders && c !in s.custody.clients
      && th' == th.(pc := Opened(c))
      && s' == s.(threads := ths, custody := s.custody.(clients := s.custody.clients[c := HeldBy(t)]))
    case OpenFails =>
      th.pc.Opening?
      && th' == Answered(th, Finish, OpenFailed)
      && s' == s.(threads := ths, log := Record(s.log, t, th, OpenFailed))
    case RegisterSecond(e) =>
      th.pc.Opened? && s.locks.mu.None? && e !in s.heap &&
      var c := th.pc.client;
      if s.dir.closed || n in s.dir.entries then
        var res := if s.dir.closed then Closed else AlreadyRegistered;
        th' == Answered(th, Discard(c), res) && s' == s.(threads := ths, log := Record(s.log, t, th, res))
      else
        th' == Answered(th, Handover([SourceRegistered(n)], ToFinish), Registered(e))
        && s' == s.(threads := ths,
                    locks := s.locks.(mu := Some(t)),
                    dir := s.dir.(entries := s.dir.entries[n := e]),
                    heap := s.heap[e := Entry(n, c, th.op.cfg.limit, Capacity(th.op.cfg.limit), 0, Live, t)],
                    custody := s.custody.(clients := s.custody.clients[c := InEntry(e)]),
                    log := Record(s.log, t, th, Registered(e)))
    case DiscardClient =>
      th.pc.Discard? && th' == th.(pc := Finish) &&
      var c := th.pc.client;
      s' == s.(threads := ths,
               custody := Custody(s.custody.clients[c := Discarded], s.custody.closes + multiset{c}))
    case FinishRegister =>
      th.pc.Finish? && th' == th.(pc := Done(Nothing))
      && s' == s.(threads := ths, dir := s.dir.(openings := s.dir.openings - 1))
  }

  function AfterUnlock(next: Next): Pc {
    match next
    case ToFinish => Finish
    case ToWait(e) => Wait(e, {})
    case ToDrain(batch) => Drain(batch)
  }

  ghost predicate StepNotify(s: State, t: CallId, th: Thread, a: NotifyStep, th': Thread, s': State) {
    var pc := th.pc;
    var ths := s.threads[t := th'];
    match a
    case TakeObserverLock =>
      pc.Handover? && s.locks.om.None?
      && th' == th.(pc := Notify(if s.observed then pc.events else [], pc.next))
      && s' == s.(threads := ths, locks := Locks(None, Some(t)))
    case Deliver =>
      pc.Notify? && pc.events != []
      && th' == th.(pc := Notify(pc.events[1..], pc.next))
      && s' == s.(threads := ths, log := s.log.(trace := s.log.trace + [pc.events[0]]))
    case Unlock =>
      pc.Notify? && pc.events == []
      && th' == th.(pc := AfterUnlock(pc.next))
      && s' == s.(threads := ths, locks := s.locks.(om := None))
  }

  function Removals(order: seq<Name>): seq<Callback> {
    seq(|order|, i requires 0 <= i < |order| => SourceRemoved(order[i]))
  }

  function Take(heap: map<EntryId, Entry>, batch: set<EntryId>, t: CallId): map<EntryId, Entry> {
    map e | e in heap :: if e in batch then heap[e].(stage := Taken(t)) else heap[e]
  }

  predicate Matches(d: Dir, n: Name, expected: Option<EntryId>) {
    n in d.entries && (expected.None? || expected.value == d.entries[n])
  }

  ghost predicate StepRemove(s: State, t: CallId, th: Thread, a: RemoveStep, th': Thread, s': State) {
    var pc := th.pc;
    var ths := s.threads[t := th'];
    match a
    case RemoveFirst =>
      pc.Begin? && th.op.Remove? && s.locks.mu.None? &&
      var n := th.op.name;
      if !Matches(s.dir, n, th.op.expected) then
        var res := if th.op.expected.Some? then Superseded else NotFound;
        th' == Answered(th, Done(Nothing), res) && s' == s.(threads := ths, log := Record(s.log, t, th, res))
      else
        var e := s.dir.entries[n];
        th' == Answered(th, Handover([SourceRemoved(n)], ToWait(e)), Removed(e))
        && s' == s.(threads := ths,
                    locks := s.locks.(mu := Some(t)),
                    dir := s.dir.(entries := s.dir.entries - {n}),
                    heap := Take(s.heap, {e}, t),
                    log := Record(s.log, t, th, Removed(e)))
    case Swap(order) =>
      pc.Begin? && th.op.RemoveAll? && s.locks.mu.None? && Enumerates(order, s.dir.entries.Keys) &&
      var batch := s.dir.entries.Values;
      th' == Answered(th, Handover(Removals(order), ToDrain(batch)), RemovedAll(batch, order))
      && s' == s.(threads := ths,
                  locks := s.locks.(mu := Some(t)),
                  dir := s.dir.(entries := map[], closed := true),
                  heap := Take(s.heap, batch, t),
                  log := Record(s.log, t, th, RemovedAll(batch, order)))
    case Pick(e) =>
      pc.Drain? && e in pc.rest && th' == th.(pc := Wait(e, pc.rest - {e})) && s' == s.(threads := ths)
    case Drained =>
      pc.Wait? && pc.entry in s.heap && s.heap[pc.entry].wg == 0
      && th' == th.(pc := Close(pc.entry, pc.rest)) && s' == s.(threads := ths)
    case CloseClient =>
      pc.Close? && pc.entry in s.heap &&
      var entry := s.heap[pc.entry];
      th' == th.(pc := if th.op.RemoveAll? then Drain(pc.rest) else Done(Nothing))
      && s' == s.(threads := ths,
                  heap := s.heap[pc.entry := entry.(stage := Shut)],
                  custody := s.custody.(closes := s.custody.closes + multiset{entry.client}))
    case DrainDone =>
      pc.Drain? && pc.rest == {} && th' == th.(pc := WaitOpenings) && s' == s.(threads := ths)
    case OpeningsDone =>
      pc.WaitOpenings? && s.dir.openings == 0 && th' == th.(pc := Done(Nothing)) && s' == s.(threads := ths)
  }

  predicate Admissible(d: Dir, op: Op) {
    match op
    case Acquire(n) => n in d.entries
    case AcquireSource(n, e) => e.Some? && Lookup(d.entries, n) == e
    case _ => false
  }

  ghost predicate StepRun(s: State, t: CallId, th: Thread, a: RunStep, th': Thread, s': State) {
    IsRun(th.op) &&
    var pc := th.pc;
    var ths := s.threads[t := th'];
    match a
    case Admit =>
      pc.Begin? && s.locks.mu.None? &&
      if !Admissible(s.dir, th.op) then
        th' == Answered(th, Done(Nothing), NotFound) && s' == s.(threads := ths, log := Record(s.log, t, th, NotFound))
      else
        var e := s.dir.entries[th.op.name];
        e in s.heap
        && th' == Answered(th, Check(e), Admitted(e))
        && s' == s.(threads := ths,
                    heap := s.heap[e := s.heap[e].(wg := s.heap[e].wg + 1)],
                    log := Record(s.log, t, th, Admitted(e)))
    case CheckContext =>
      pc.Check? && pc.entry in s.heap
      && th' == th.(pc := if th.cancelled then Refused(pc.entry)
                          else if s.heap[pc.entry].limit <= 0 then Granted(pc.entry)
                          else Select(pc.entry))
      && s' == s.(threads := ths)
    case Grant =>
      pc.Select? && pc.entry in s.heap && s.heap[pc.entry].tokens > 0
      && th' == th.(pc := Granted(pc.entry))
      && s' == s.(threads := ths,
                  heap := s.heap[pc.entry := s.heap[pc.entry].(tokens := s.heap[pc.entry].tokens - 1)])
    case GiveUp =>
      pc.Select? && th.cancelled && th' == th.(pc := Refused(pc.entry)) && s' == s.(threads := ths)
    case ObserveRefused =>
      pc.Refused? && th' == th.(pc := Release(pc.entry, GaveUp))
      && s' == s.(threads := ths, log := Emit(s, AcquireDone(th.op.name, false, t)))
    case ObserveGranted =>
      pc.Granted? && th' == th.(pc := InFn(pc.entry))
      && s' == s.(threads := ths, log := Emit(s, AcquireDone(th.op.name, true, t)))
    case FnReturns(out) =>
      pc.InFn? && !out.Nothing? && !out.GaveUp? && th' == th.(pc := Returned(pc.entry, out)) && s' == s.(threads := ths)
    case ObserveComplete =>
      pc.Returned? && th' == th.(pc := TokenBack(pc.entry, pc.out))
      && s' == s.(threads := ths, log := Emit(s, RunDone(th.op.name, pc.out, t)))
    case ReturnToken =>
      pc.TokenBack? && pc.entry in s.heap && th' == th.(pc := Release(pc.entry, pc.out)) &&
      if s.heap[pc.entry].limit <= 0 then s' == s.(threads := ths)
      else
        s.heap[pc.entry].tokens < s.heap[pc.entry].limit  // a send on a full channel would block
        && s' == s.(threads := ths,
                    heap := s.heap[pc.entry := s.heap[pc.entry].(tokens := s.heap[pc.entry].tokens + 1)])
    case WgDone =>
      pc.Release? && pc.entry in s.heap && th' == th.(pc := Done(pc.out))
      && s' == s.(threads := ths, heap := s.heap[pc.entry := s.heap[pc.entry].(wg := s.heap[pc.entry].wg - 1)])
  }

  // Configure publishes the next source of its todo map.
  function BeginPublish(th: Thread, n: Name): Thread
    requires th.caller.Configure? && n in th.caller.todo
  {
    var c := th.caller;
    th.(op := Register(n, c.todo[n]), pc := Begin, res := None, ops := th.ops + 1,
        caller := c.(todo := c.todo - {n}))
  }

  // Configure removes what it published, first published first; with nothing left it returns its error.
  function BeginRollback(th: Thread, rest: seq<Published>): Thread
    requires th.caller.Configure?
  {
    if rest == [] then th.(caller := th.caller.(phase := Finished(false)))
    else th.(op := Remove(rest[0].name, Some(rest[0].entry)), pc := Begin, res := None, ops := th.ops + 1,
             caller := th.caller.(phase := RollingBack(rest)))
  }

  ghost predicate Resumes(th: Thread, pick: Name, th': Thread) {
    th.pc.Done? && th.res.Some? && th.caller.Configure? &&
    var c := th.caller;
    match c.phase
    case Publishing =>
      th.op.Register? &&
      if th.res.value.Registered? then
        var published := c.published + [Published(th.op.name, th.res.value.entry)];
        if c.todo == map[] then th' == th.(caller := c.(published := published, phase := Finished(true)))
        else pick in c.todo && th' == BeginPublish(th.(caller := c.(published := published)), pick)
      else th' == BeginRollback(th, c.published)
    case RollingBack(rest) => rest != [] && th' == BeginRollback(th, rest[1..])
    case Finished(_) => false
  }

  // Configure refuses an empty name before opening anything.
  ghost predicate Configures(cfg: map<Name, Config>, first: Name, th': Thread) {
    var idle := Thread(List, Done(Nothing), Configure(cfg, cfg, [], Publishing), false, 0, None);
    if "" in cfg then th' == idle.(caller := idle.caller.(phase := Finished(false)))
    else if cfg == map[] then th' == idle.(caller := idle.caller.(phase := Finished(true)))
    else first in cfg && th' == BeginPublish(idle, first)
  }

  ghost predicate StepOther(s: State, t: CallId, a: OtherStep, th': Thread, s': State) {
    var ths := s.threads[t := th'];
    match a
    case Start(op) =>
      t !in s.threads && th' == Thread(op, Begin, Direct, false, 1, None) && s' == s.(threads := ths)
    case StartConfigure(cfg, first) =>
      t !in s.threads && Configures(cfg, first, th') && s' == s.(threads := ths)
    case Cancel =>
      t in s.threads && !s.threads[t].cancelled
      && th' == s.threads[t].(cancelled := true) && s' == s.(threads := ths)
    case Read =>
      t in s.threads && s.locks.mu.None? &&
      var th := s.threads[t];
      th.pc.Begin? && (th.op.Snapshot? || th.op.List?) &&
      var res := if th.op.Snapshot? then Found(Lookup(s.dir.entries, th.op.name)) else Listed(s.dir.entries);
      th' == Answered(th, Done(Nothing), res) && s' == s.(threads := ths, log := Record(s.log, t, th, res))
    case Continue(pick) =>
      t in s.threads && Resumes(s.threads[t], pick, th') && s' == s.(threads := ths)
  }

  // Call t takes step a from s to s'.
  ghost predicate Takes(s: State, t: CallId, a: Action, s': State) {
    match a
    case Registering(r) =>
      t in s.threads && t in s'.threads && StepRegister(s, t, s.threads[t], r, s'.threads[t], s')
    case Notifying(n) =>
      t in s.threads && t in s'.threads && StepNotify(s, t, s.threads[t], n, s'.threads[t], s')
    case Removing(r) =>
      t in s.threads && t in s'.threads && StepRemove(s, t, s.threads[t], r, s'.threads[t], s')
    case Running(r) =>
      t in s.threads && t in s'.threads && StepRun(s, t, s.threads[t], r, s'.threads[t], s')
    case Other(o) => t in s'.threads && StepOther(s, t, o, s'.threads[t], s')
    case AddDriver(d, b) =>
      && !s.drivers.frozen && d !in s.drivers.builders
      && s' == s.(drivers := s.drivers.(builders := s.drivers.builders[d := b]))
  }

  ghost predicate Step(s: State, s': State) {
    exists t, a :: Takes(s, t, a, s')
  }

  ghost predicate Run(r: seq<State>) {
    && |r| > 0
    && forall i, j :: 0 <= i < j < |r| && j == i + 1 ==> Step(r[i], r[j])
  }

  predicate Returns(th: Thread) {
    th.pc.Done? && (th.caller.Direct? || th.caller.phase.Finished?)
  }
}
