// The protocol with real goroutines: a Run, from admission on, and the delivery of
// lifecycle callbacks are carried out frame by frame, callbacks and fn may panic, and
// only deferred calls clean up. Every step is a step of the protocol, or none.
module Unwinding {
  import opened Basics
  import opened Registry
  import opened Protocol
  import opened Frames
  import opened Positions
  import opened Deliveries

  // The program counter of a call with a goroutine is not looked at until the goroutine is done.
  datatype Fine = Fine(s: State, gs: map<CallId, Goroutine>)

  function OpName(op: Op): Name { if IsRun(op) then op.name else "" }

  function CallbackFor(t: CallId, op: Op, n: Note): Callback {
    match n
    case Refusal => AcquireDone(OpName(op), false, t)
    case Lifecycle(cb) => cb
    case Completed(out) => RunDone(OpName(op), out, t)
    case _ => AcquireDone(OpName(op), true, t)
  }

  // What a goroutine's step does to what goroutines share.
  ghost predicate Touches(s: State, t: CallId, th: Thread, i: Option<Instr>, job: Job, r: Reply, s': State) {
    match i
    case Some(CheckThrottle) => s' == s && Checks(s.heap, th, job, r)
    case Some(SelectToken) => job.InRun? && Selects(s, th, job.entry, r, s')
    case Some(CallFn) => s' == s && r.Ends? && Ending(r.out)
    case Some(Tell(n)) =>
      (r.Calm? || r.Raise?) && s' == s.(log := s.log.(trace := s.log.trace + [CallbackFor(t, th.op, n)]))
    case Some(Do(d)) => Acts(s, job, d, s')
    case _ => s' == s
  }

  ghost predicate Checks(heap: map<EntryId, Entry>, th: Thread, job: Job, r: Reply) {
    job.InRun? && job.entry in heap &&
    r == if th.cancelled then TurnAway else if heap[job.entry].limit <= 0 then LetIn else Queue
  }

  ghost predicate Selects(s: State, th: Thread, e: EntryId, r: Reply, s': State) {
    match r
    case LetIn =>
      e in s.heap && s.heap[e].tokens > 0 && s' == s.(heap := s.heap[e := s.heap[e].(tokens := s.heap[e].tokens - 1)])
    case TurnAway => th.cancelled && s' == s
    case _ => false
  }

  ghost predicate Acts(s: State, job: Job, d: Deferred, s': State) {
    match d
    case GiveToken => job.InRun? && GivesToken(s, job.entry, s')
    case DoneWg =>
      job.InRun? && job.entry in s.heap &&
      s' == s.(heap := s.heap[job.entry := s.heap[job.entry].(wg := s.heap[job.entry].wg - 1)])
    case UnlockObserver => s' == s.(locks := s.locks.(om := None))
    case DoneOpening => s' == s.(dir := s.dir.(openings := s.dir.openings - 1))
    case _ => false
  }

  // throttle.Release: a send on a full channel would block.
  ghost predicate GivesToken(s: State, e: EntryId, s': State) {
    e in s.heap &&
    if s.heap[e].limit <= 0 then s' == s
    else
      s.heap[e].tokens < s.heap[e].limit
      && s' == s.(heap := s.heap[e := s.heap[e].(tokens := s.heap[e].tokens + 1)])
  }

  // What the call goes on with when its goroutine has unwound.
  function Final(g: Goroutine): Pc {
    match g.job
    case InRun(_) => Done(if g.panic.Some? then Panicked else g.err)
    case InNotify(next) => if next.ToFinish? then Done(Nothing) else AfterUnlock(next)
  }

  ghost predicate Goes(f: Fine, t: CallId, r: Reply, f': Fine) {
    t in f.gs && t in f.s.threads && f.gs[t].stack != [] &&
    var g := Exec(f.gs[t], f.s.observed, r);
    && Touches(f.s, t, f.s.threads[t], Head(f.gs[t]), f.gs[t].job, r, f'.s.(threads := f.s.threads))
    && f'.gs == (if g.stack == [] then f.gs - {t} else f.gs[t := g])
    && f'.s.threads == if g.stack == [] then f.s.threads[t := f.s.threads[t].(pc := Final(g))] else f.s.threads
  }

  // Everything else goes on as before. Admission begins a goroutine, and so does taking observerMu.
  function Spawned(gs: map<CallId, Goroutine>, t: CallId, a: Action, s': State): map<CallId, Goroutine> {
    if t in gs || t !in s'.threads then gs
    else
      var pc := s'.threads[t].pc;
      if a == Action.Running(Admit) && pc.Check? then gs[t := StartRun(pc.entry)]
      else if a == Notifying(TakeObserverLock) && pc.Notify? then gs[t := StartTelling(pc.events, pc.next)]
      else gs
  }

  ghost predicate Plainly(f: Fine, t: CallId, a: Action, f': Fine) {
    && (t !in f.gs || a.AddDriver? || a == Other(Cancel))
    && Takes(f.s, t, a, f'.s) && f'.gs == Spawned(f.gs, t, a, f'.s)
  }

  ghost predicate FineStep(f: Fine, f': Fine) {
    (exists t, a :: Plainly(f, t, a, f')) || (exists t, r :: Goes(f, t, r, f'))
  }

  ghost predicate FineRun(fr: seq<Fine>) {
    && |fr| > 0 && Init(fr[0].s) && fr[0].gs == map[]
    && forall i, j :: 0 <= i < j < |fr| && j == i + 1 ==> FineStep(fr[i], fr[j])
  }

  // Where each goroutine is.
  datatype Where = RunAt(at: Spot) | TellAt(stop: Stop)

  ghost predicate Stands(observed: bool, g: Goroutine, w: Where) {
    && Accounted(g)
    && match w
       case RunAt(at) => IsAt(g, observed, at) && Possible(observed, at) && g.ran == RanAt(observed, at)
       case TellAt(stop) => g.job.InNotify? && StopsAt(g, g.job.next, stop) && CanStop(g.job.next, stop)
  }

  function Label(job: Job, w: Where): Pc {
    match (job, w)
    case (InRun(e), RunAt(at)) => PcAt(e, at)
    case (InNotify(next), TellAt(stop)) => StopPc(next, stop)
    case _ => Begin
  }

  ghost predicate Stood(f: Fine, ws: map<CallId, Where>) {
    && ws.Keys == f.gs.Keys && f.gs.Keys <= f.s.threads.Keys
    && forall t :: t in ws ==> Stands(f.s.observed, f.gs[t], ws[t])
  }

  function Labels(gs: map<CallId, Goroutine>, ws: map<CallId, Where>): map<CallId, Pc> {
    map t | t in gs && t in ws :: Label(gs[t].job, ws[t])
  }

  // What the next step asks of the rest of the system.
  function WhereHead(observed: bool, w: Where): Option<Instr> {
    match w
    case RunAt(at) => HeadAt(observed, at)
    case TellAt(stop) => StopHead(stop)
  }

  predicate Replies(observed: bool, w: Where, r: Reply) { w.RunAt? ==> Answers(observed, w.at, r) }

  // None: the goroutine has unwound.
  function NextWhere(observed: bool, job: Job, w: Where, r: Reply): Option<Where> {
    match (job, w)
    case (InRun(_), RunAt(at)) =>
      var next := NextSpot(observed, at, r);
      if next.Some? then Some(RunAt(next.value)) else None
    case (InNotify(todo), TellAt(stop)) =>
      var next := NextStop(todo, stop, r);
      if next.Some? then Some(TellAt(next.value)) else None
    case _ => None
  }

  function Marks(ws: map<CallId, Where>, t: CallId, w: Option<Where>): map<CallId, Where> {
    if w.Some? then ws[t := w.value] else ws - {t}
  }

  // The state of the protocol that a state with goroutines stands for.
  function Relabel(s: State, l: map<CallId, Pc>): State {
    s.(threads := map t | t in s.threads :: if t in l then s.threads[t].(pc := l[t]) else s.threads[t])
  }

  function Abs(f: Fine, ws: map<CallId, Where>): State { Relabel(f.s, Labels(f.gs, ws)) }
}
