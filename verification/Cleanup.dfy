// What deferred calls are for: whatever panics, a goroutine comes to its end, makes each
// deferred call once, and leaves nothing behind that others would wait for.
module Cleanup {
  import opened Basics
  import opened Protocol
  import opened Counting
  import opened Counters
  import opened Safety
  import opened Transparency
  import opened Frames
  import opened Positions
  import opened Deliveries
  import opened Unwinding
  import opened Unwound
  import opened Recovery

  lemma RunMore(r: seq<State>, q: State)
    requires Run(r) && MaybeStep(r[|r| - 1], q)
    ensures q != r[|r| - 1] ==> Run(r + [q])
  {
  }

  // A run of the protocol that comes to what the goroutines at ws stand for.
  ghost predicate StandsFor(r: seq<State>, f: Fine, ws: map<CallId, Where>) {
    Run(r) && Init(r[0]) && Stood(f, ws) && r[|r| - 1] == Abs(f, ws)
  }

  lemma StandsAtFirst(f: Fine)
    requires Init(f.s) && f.gs == map[]
    ensures StandsFor([Abs(f, map[])], f, map[])
  {
    assert Abs(f, map[]).threads == map[];
  }

  lemma StandsNext(r: seq<State>, f: Fine, ws: map<CallId, Where>, f': Fine)
      returns (r': seq<State>, ws': map<CallId, Where>)
    requires StandsFor(r, f, ws) && FineStep(f, f')
    ensures StandsFor(r', f', ws')
  {
    assert Reachable(r[|r| - 1]);
    ShapedHere(r[|r| - 1]);
    ws' := FineStepRefines(f, ws, f');
    var q := Abs(f', ws');
    RunMore(r, q);
    r' := if q == r[|r| - 1] then r else r + [q];
  }

  lemma {:induction false} StandsAt(fr: seq<Fine>, k: nat) returns (r: seq<State>, ws: map<CallId, Where>)
    requires FineRun(fr) && k < |fr|
    ensures StandsFor(r, fr[k], ws)
  {
    if k == 0 {
      r, ws := [Abs(fr[0], map[])], map[];
      StandsAtFirst(fr[0]);
    } else {
      var before, was := StandsAt(fr, k - 1);
      r, ws := StandsNext(before, fr[k - 1], was, fr[k]);
    }
  }

  // Every run with goroutines is a run of the protocol.
  lemma FineRefines(fr: seq<Fine>) returns (r: seq<State>, ws: map<CallId, Where>)
    requires FineRun(fr)
    ensures Run(r) && Init(r[0]) && Stood(fr[|fr| - 1], ws) && r[|r| - 1] == Abs(fr[|fr| - 1], ws)
  {
    r, ws := StandsAt(fr, |fr| - 1);
  }

  // Some run with goroutines comes here.
  ghost predicate Attained(f: Fine) {
    exists fr :: FineRun(fr) && fr[|fr| - 1] == f
  }

  // Where its goroutines are, in a reachable state of the protocol.
  lemma Here(f: Fine) returns (ws: map<CallId, Where>)
    requires Attained(f)
    ensures Stood(f, ws) && Reachable(Abs(f, ws))
  {
    var fr :| FineRun(fr) && fr[|fr| - 1] == f;
    var r;
    r, ws := FineRefines(fr);
  }

  // At its end a goroutine has made every deferred call it registered. A Run's calls
  // come in the order of AllRan, and its panic goes on exactly when fn panicked.
  lemma EveryDeferRuns(f: Fine, t: CallId, r: Reply, f': Fine)
    requires Attained(f) && Goes(f, t, r, f') && t !in f'.gs
    ensures var g := Exec(f.gs[t], f.s.observed, r);
      && multiset(g.ran) == g.registered && t in f'.s.threads && f'.s.threads[t].pc == Final(g)
      && match g.job
         case InRun(_) =>
           var pc := f'.s.threads[t].pc;
           pc.Done? && Unwinds(g, f.s.observed, pc.out) && !pc.out.Nothing?
         case InNotify(_) => g.panic == None
  {
    var ws := Here(f);
    Marches(f, ws, t, r, f');
    var g := f.gs[t];
    match ws[t]
    case RunAt(at) =>
      if NextSpot(f.s.observed, at, r).Some? {
        RunStands(g, f.s.observed, at, r);
      } else {
        RunEnds(g, f.s.observed, at, r);
      }
    case TellAt(at) =>
      if NextStop(g.job.next, at, r).Some? {
        TellStands(g, f.s.observed, at, r);
      } else {
        TellEnds(g, f.s.observed, at, r);
      }
  }

  // Until then each is made once or still to be made.
  lemma EveryDeferOwed(f: Fine, t: CallId)
    requires Attained(f) && t in f.gs
    ensures multiset(f.gs[t].ran) + Pending(f.gs[t].stack) == f.gs[t].registered
  {
    var ws := Here(f);
    assert t in ws;
  }

  // Inside an entry, or holding observerMu.
  predicate Entered(pc: Pc) { Used(pc).Some? || pc.Notify? }

  // Such a call has a goroutine.
  ghost predicate Covered(f: Fine) {
    forall t :: t in f.s.threads && t !in f.gs ==> !Entered(f.s.threads[t].pc)
  }

  lemma RegisterCovers(s: State, t: CallId, th: Thread, a: RegisterStep, th': Thread, s': State)
    requires StepRegister(s, t, th, a, th', s')
    ensures !Entered(th'.pc)
  {
  }

  lemma NotifyCovers(s: State, t: CallId, th: Thread, a: NotifyStep, th': Thread, s': State)
    requires StepNotify(s, t, th, a, th', s') && !Entered(th.pc)
    ensures Entered(th'.pc) ==> a.TakeObserverLock?
  {
  }

  lemma RemoveCovers(s: State, t: CallId, th: Thread, a: RemoveStep, th': Thread, s': State)
    requires StepRemove(s, t, th, a, th', s')
    ensures !Entered(th'.pc)
  {
  }

  lemma RunCovers(s: State, t: CallId, th: Thread, a: RunStep, th': Thread, s': State)
    requires StepRun(s, t, th, a, th', s') && !Entered(th.pc)
    ensures Entered(th'.pc) ==> a.Admit? && th'.pc.Check?
  {
  }

  lemma OtherCovers(s: State, t: CallId, a: OtherStep, th': Thread, s': State)
    requires StepOther(s, t, a, th', s') && !Entered(ThreadOf(s, t).pc)
    ensures !Entered(th'.pc)
  {
  }

  lemma TakesCovers(s: State, t: CallId, a: Action, s': State)
    requires Takes(s, t, a, s') && !a.AddDriver? && !Entered(ThreadOf(s, t).pc)
    ensures t in s'.threads && s'.threads == s.threads[t := s'.threads[t]]
    ensures Entered(s'.threads[t].pc) ==>
      || (a == Action.Running(Admit) && s'.threads[t].pc.Check?)
      || (a == Notifying(TakeObserverLock) && s'.threads[t].pc.Notify?)
  {
    match a
    case Registering(x) => RegisterCovers(s, t, s.threads[t], x, s'.threads[t], s');
    case Notifying(x) => NotifyCovers(s, t, s.threads[t], x, s'.threads[t], s');
    case Removing(x) => RemoveCovers(s, t, s.threads[t], x, s'.threads[t], s');
    case Running(x) => RunCovers(s, t, s.threads[t], x, s'.threads[t], s');
    case Other(x) => OtherCovers(s, t, x, s'.threads[t], s');
  }

  lemma PlainCovers(f: Fine, t: CallId, a: Action, f': Fine)
    requires Covered(f) && Plainly(f, t, a, f')
    ensures Covered(f')
  {
    if a.AddDriver? || t in f.gs {
      assert f'.gs == f.gs;
    } else {
      TakesCovers(f.s, t, a, f'.s);
    }
  }

  lemma GoesCovers(f: Fine, t: CallId, r: Reply, f': Fine)
    requires Covered(f) && Goes(f, t, r, f')
    ensures Covered(f')
  {
    var g := Exec(f.gs[t], f.s.observed, r);
    if g.stack == [] {
      assert !Entered(Final(g));
    }
  }

  lemma StepCovers(f: Fine, f': Fine)
    requires Covered(f) && FineStep(f, f')
    ensures Covered(f')
  {
    if t, a :| Plainly(f, t, a, f') {
      PlainCovers(f, t, a, f');
    } else {
      var t, r :| Goes(f, t, r, f');
      GoesCovers(f, t, r, f');
    }
  }

  ghost predicate KeepsCovered(fr: seq<Fine>) {
    && |fr| > 0 && Covered(fr[0])
    && forall i, j :: 0 <= i < j < |fr| && j == i + 1 && Covered(fr[i]) ==> Covered(fr[j])
  }

  lemma RunKeepsCovered(fr: seq<Fine>)
    requires FineRun(fr)
    ensures KeepsCovered(fr)
  {
    forall i, j | 0 <= i < j < |fr| && j == i + 1 && Covered(fr[i]) ensures Covered(fr[j]) {
      StepCovers(fr[i], fr[j]);
    }
  }

  lemma {:induction false} CoveredAt(fr: seq<Fine>, k: nat)
    requires KeepsCovered(fr) && k < |fr|
    ensures Covered(fr[k])
  {
    if k > 0 {
      CoveredAt(fr, k - 1);
    }
  }

  lemma AlwaysCovered(f: Fine)
    requires Attained(f)
    ensures Covered(f)
  {
    var fr :| FineRun(fr) && fr[|fr| - 1] == f;
    RunKeepsCovered(fr);
    CoveredAt(fr, |fr| - 1);
  }

  // A call inside an entry, as the protocol sees it, has a goroutine in that entry.
  lemma EnteredJob(f: Fine, ws: map<CallId, Where>, t: CallId)
    requires Stood(f, ws) && Covered(f) && t in f.s.threads && Entered(Abs(f, ws).threads[t].pc)
    ensures t in f.gs
    ensures Used(Abs(f, ws).threads[t].pc).Some? ==>
      f.gs[t].job == InRun(Used(Abs(f, ws).threads[t].pc).value)
    ensures Abs(f, ws).threads[t].pc.Notify? ==> f.gs[t].job.InNotify?
  {
    if t in f.gs {
      assert t in ws;
      LabelJob(f.gs[t].job, ws[t]);
    }
  }

  lemma LabelJob(job: Job, w: Where)
    ensures Used(Label(job, w)).Some? ==> job == InRun(Used(Label(job, w)).value)
    ensures Label(job, w).Notify? ==> job.InNotify?
  {
  }

  lemma NobodyInside(q: State, e: EntryId)
    requires Reachable(q) && e in q.heap && forall t :: t in q.threads ==> Used(q.threads[t].pc) != Some(e)
    ensures q.heap[e].wg == 0 && q.heap[e].tokens == Capacity(q.heap[e].limit)
  {
    CountZero(q.threads, User(e));
    CountZero(q.threads, TokenHolder(e));
    CountedHere(q);
    assert Balanced(q.heap[e], Count(q.threads, User(e)), Count(q.threads, TokenHolder(e)));
  }

  // Once no goroutine is inside an entry, its tokens are all back and nobody waits
  // for it, whatever panicked on the way.
  lemma NothingHeld(f: Fine, e: EntryId)
    requires Attained(f) && e in f.s.heap && forall t :: t in f.gs ==> f.gs[t].job != InRun(e)
    ensures f.s.heap[e].wg == 0 && f.s.heap[e].tokens == Capacity(f.s.heap[e].limit)
  {
    var ws := Here(f);
    AlwaysCovered(f);
    var q := Abs(f, ws);
    forall t | t in q.threads ensures Used(q.threads[t].pc) != Some(e) {
      if Used(q.threads[t].pc) == Some(e) {
        EnteredJob(f, ws, t);
      }
    }
    NobodyInside(q, e);
  }

  // And observerMu is held only while a goroutine delivers callbacks under it.
  lemma NobodyTells(f: Fine)
    requires Attained(f) && forall t :: t in f.gs ==> !f.gs[t].job.InNotify?
    ensures f.s.locks.om == None
  {
    var ws := Here(f);
    AlwaysCovered(f);
    var q := Abs(f, ws);
    ShapedHere(q);
    if q.locks.om.Some? {
      EnteredJob(f, ws, q.locks.om.value);
    }
  }

  // It waits for the throttle: no token, and its context has not ended.
  ghost predicate AwaitsToken(f: Fine, t: CallId, w: Where) {
    && t in f.gs && t in f.s.threads && w == RunAt(AtSelect) && !f.s.threads[t].cancelled
    && f.gs[t].job.InRun? && f.gs[t].job.entry in f.s.heap && f.s.heap[f.gs[t].job.entry].tokens == 0
  }

  lemma EntryThere(f: Fine, ws: map<CallId, Where>, t: CallId)
    requires Stood(f, ws) && Reachable(Abs(f, ws)) && t in ws && Used(Label(f.gs[t].job, ws[t])).Some?
    ensures var e := Used(Label(f.gs[t].job, ws[t])).value; e in f.s.heap && 0 <= f.s.heap[e].tokens
  {
    AbsThread(f, ws, t);
    var q, e := Abs(f, ws), Used(Label(f.gs[t].job, ws[t])).value;
    NoUseAfterClose(q, t, e);
    CountedHere(q);
    assert Balanced(q.heap[e], Count(q.threads, User(e)), Count(q.threads, TokenHolder(e)));
  }

  // What a goroutine finds when it acts on what it shares.
  ghost predicate Ready(s: State, th: Thread, job: Job, i: Option<Instr>) {
    match i
    case Some(SelectToken) => HasEntry(s, job) && (th.cancelled || s.heap[job.entry].tokens > 0)
    case Some(CheckThrottle) => HasEntry(s, job)
    case Some(Do(GiveToken)) =>
      HasEntry(s, job) && (s.heap[job.entry].limit > 0 ==> s.heap[job.entry].tokens < s.heap[job.entry].limit)
    case Some(Do(d)) => if d.DoneWg? then HasEntry(s, job) else d.UnlockObserver? || d.DoneOpening?
    case _ => true
  }

  ghost predicate HasEntry(s: State, job: Job) { job.InRun? && job.entry in s.heap }

  // Release never blocks here either.
  lemma RoomFor(q: State, t: CallId, e: EntryId, out: Outcome)
    requires Reachable(q) && t in q.threads && q.threads[t].pc == TokenBack(e, out)
    ensures e in q.heap && (q.heap[e].limit > 0 ==> q.heap[e].tokens < q.heap[e].limit)
  {
    ReleaseNeverBlocks(q, t);
  }

  lemma RoomThere(f: Fine, ws: map<CallId, Where>, t: CallId, e: EntryId, out: Outcome)
    requires Stood(f, ws) && Reachable(Abs(f, ws)) && t in ws && ws[t] == RunAt(TokenCalled(out))
    requires f.gs[t].job == InRun(e)
    ensures e in f.s.heap && (f.s.heap[e].limit > 0 ==> f.s.heap[e].tokens < f.s.heap[e].limit)
  {
    AbsThread(f, ws, t);
    RoomFor(Abs(f, ws), t, e, out);
  }

  lemma SpotReady(s: State, th: Thread, e: EntryId, at: Spot)
    requires Used(PcAt(e, at)).Some? ==> e in s.heap
    requires at.AtSelect? && !th.cancelled && e in s.heap ==> s.heap[e].tokens > 0
    requires at.TokenCalled? && e in s.heap && s.heap[e].limit > 0 ==> s.heap[e].tokens < s.heap[e].limit
    ensures Ready(s, th, InRun(e), HeadAt(s.observed, at))
  {
  }

  lemma UsedAt(e: EntryId, at: Spot)
    ensures Used(PcAt(e, at)).Some? ==> Used(PcAt(e, at)) == Some(e)
  {
  }

  lemma RunEntryThere(f: Fine, ws: map<CallId, Where>, t: CallId, e: EntryId, at: Spot)
    requires Stood(f, ws) && Reachable(Abs(f, ws)) && t in ws && ws[t] == RunAt(at) && f.gs[t].job == InRun(e)
    ensures Used(PcAt(e, at)).Some? ==> e in f.s.heap && 0 <= f.s.heap[e].tokens
  {
    if Used(PcAt(e, at)).Some? {
      UsedAt(e, at);
      EntryThere(f, ws, t);
    }
  }

  lemma NotAwaiting(f: Fine, t: CallId, e: EntryId, at: Spot)
    requires t in f.gs && t in f.s.threads && f.gs[t].job == InRun(e) && !AwaitsToken(f, t, RunAt(at))
    ensures at.AtSelect? && !f.s.threads[t].cancelled && e in f.s.heap ==> f.s.heap[e].tokens != 0
  {
  }

  lemma RunReady(f: Fine, ws: map<CallId, Where>, t: CallId, at: Spot)
    requires Stood(f, ws) && Reachable(Abs(f, ws)) && t in ws && ws[t] == RunAt(at) && !AwaitsToken(f, t, ws[t])
    ensures Ready(f.s, f.s.threads[t], f.gs[t].job, HeadAt(f.s.observed, at))
  {
    var e := f.gs[t].job.entry;
    RunEntryThere(f, ws, t, e, at);
    NotAwaiting(f, t, e, at);
    if at.TokenCalled? {
      RoomThere(f, ws, t, e, at.out);
    }
    SpotReady(f.s, f.s.threads[t], e, at);
  }

  lemma StopReady(s: State, th: Thread, todo: Next, at: Stop)
    ensures Ready(s, th, InNotify(todo), StopHead(at))
  {
  }

  lemma TellReady(f: Fine, ws: map<CallId, Where>, t: CallId, at: Stop)
    requires Stood(f, ws) && t in ws && ws[t] == TellAt(at)
    ensures Ready(f.s, f.s.threads[t], f.gs[t].job, StopHead(at))
  {
    StopReady(f.s, f.s.threads[t], f.gs[t].job.next, at);
  }

  // A deferred call's own action is never blocked.
  lemma ActTouch(s: State, th: Thread, job: Job, d: Deferred) returns (data: State)
    requires Ready(s, th, job, Some(Do(d)))
    ensures Acts(s, job, d, data)
  {
    match d
    case GiveToken =>
      data := if s.heap[job.entry].limit <= 0 then s
              else s.(heap := s.heap[job.entry := s.heap[job.entry].(tokens := s.heap[job.entry].tokens + 1)]);
    case DoneWg => data := s.(heap := s.heap[job.entry := s.heap[job.entry].(wg := s.heap[job.entry].wg - 1)]);
    case UnlockObserver => data := s.(locks := s.locks.(om := None));
    case DoneOpening => data := s.(dir := s.dir.(openings := s.dir.openings - 1));
  }

  lemma CanTouch(s: State, t: CallId, th: Thread, i: Option<Instr>, job: Job) returns (r: Reply, data: State)
    requires Ready(s, th, job, i)
    ensures Touches(s, t, th, i, job, r, data)
  {
    match i {
      case Some(SelectToken) =>
        if th.cancelled {
          r, data := TurnAway, s;
        } else {
          r, data := LetIn, s.(heap := s.heap[job.entry := s.heap[job.entry].(tokens := s.heap[job.entry].tokens - 1)]);
        }
      case Some(CheckThrottle) =>
        r, data := if th.cancelled then TurnAway else if s.heap[job.entry].limit <= 0 then LetIn else Queue, s;
      case Some(CallFn) => r, data := Ends(Value), s;
      case Some(Tell(n)) => r, data := Calm, s.(log := s.log.(trace := s.log.trace + [CallbackFor(t, th.op, n)]));
      case Some(Do(d)) =>
        data := ActTouch(s, th, job, d);
        r := Calm;
      case _ => r, data := Calm, s;
    }
  }

  lemma StepsOrAwaits(f: Fine, ws: map<CallId, Where>, t: CallId) returns (r: Reply, f': Fine)
    requires Stood(f, ws) && Reachable(Abs(f, ws)) && t in f.gs
    ensures t in ws && (AwaitsToken(f, t, ws[t]) || Goes(f, t, r, f'))
  {
    StandsSomewhere(f, ws, t);
    if AwaitsToken(f, t, ws[t]) {
      r, f' := Calm, f;
    } else {
      match ws[t] {
        case RunAt(at) => RunReady(f, ws, t, at);
        case TellAt(at) => TellReady(f, ws, t, at);
      }
      var data;
      r, data := CanTouch(f.s, t, f.s.threads[t], WhereHead(f.s.observed, ws[t]), f.gs[t].job);
      CanMarch(f, ws, t, r, data);
      f' := Marched(f, t, r, data);
    }
  }

  // Nothing keeps a goroutine from unwinding but the wait for a token.
  lemma NeverStuck(f: Fine, t: CallId) returns (w: Where, r: Reply, f': Fine)
    requires Attained(f) && t in f.gs
    ensures Stands(f.s.observed, f.gs[t], w) && (AwaitsToken(f, t, w) || Goes(f, t, r, f'))
  {
    var ws := Here(f);
    r, f' := StepsOrAwaits(f, ws, t);
    w := ws[t];
  }

  // Without an observer, or with any observers and any panics: what one run comes to,
  // so does another, but for the callbacks made and the goroutines on their way.
  lemma NoneTheWiser(fr: seq<Fine>) returns (p: seq<State>, ws: map<CallId, Where>)
    requires FineRun(fr)
    ensures Run(p) && Init(p[0]) && !p[0].observed
    ensures Stood(fr[|fr| - 1], ws) && p[|p| - 1] == Blind(Abs(fr[|fr| - 1], ws))
  {
    var r;
    r, ws := FineRefines(fr);
    p := RunBlindly(r);
  }
}
