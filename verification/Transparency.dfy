// Observing changes nothing: forget the observer, and every step of an observed
// Directory is a step of an unobserved one, or none when it delivers a callback.
module Transparency {
  import opened Basics
  import opened Protocol
  import opened Lifecycle

  function BlindPc(pc: Pc): Pc {
    match pc
    case Notify(_, next) => Notify([], next)
    case _ => pc
  }

  function BlindThread(th: Thread): Thread { th.(pc := BlindPc(th.pc)) }

  function BlindThreads(ths: Threads): Threads {
    map t | t in ths :: BlindThread(ths[t])
  }

  // The same state without an observer.
  function Blind(s: State): State {
    s.(threads := BlindThreads(s.threads), log := s.log.(trace := []), observed := false)
  }

  lemma BlindPut(ths: Threads, t: CallId, th: Thread)
    ensures BlindThreads(ths[t := th]) == BlindThreads(ths)[t := BlindThread(th)]
  {
  }

  lemma RegisterBlind(s: State, t: CallId, th: Thread, a: RegisterStep, th': Thread, s': State)
    requires StepRegister(s, t, th, a, th', s')
    ensures StepRegister(Blind(s), t, BlindThread(th), a, BlindThread(th'), Blind(s'))
  {
    BlindPut(s.threads, t, th');
  }

  lemma NotifyBlind(s: State, t: CallId, th: Thread, a: NotifyStep, th': Thread, s': State)
    requires t in s.threads && th == s.threads[t] && StepNotify(s, t, th, a, th', s')
    ensures a.Deliver? ==> Blind(s') == Blind(s)
    ensures !a.Deliver? ==> StepNotify(Blind(s), t, BlindThread(th), a, BlindThread(th'), Blind(s'))
  {
    BlindPut(s.threads, t, th');
  }

  lemma RemoveBlind(s: State, t: CallId, th: Thread, a: RemoveStep, th': Thread, s': State)
    requires StepRemove(s, t, th, a, th', s')
    ensures StepRemove(Blind(s), t, BlindThread(th), a, BlindThread(th'), Blind(s'))
  {
    BlindPut(s.threads, t, th');
  }

  lemma RunBlind(s: State, t: CallId, th: Thread, a: RunStep, th': Thread, s': State)
    requires StepRun(s, t, th, a, th', s')
    ensures StepRun(Blind(s), t, BlindThread(th), a, BlindThread(th'), Blind(s'))
  {
    BlindPut(s.threads, t, th');
  }

  lemma OtherBlind(s: State, t: CallId, a: OtherStep, th': Thread, s': State)
    requires StepOther(s, t, a, th', s')
    ensures StepOther(Blind(s), t, a, BlindThread(th'), Blind(s'))
  {
    BlindPut(s.threads, t, th');
  }

  lemma StepBlind(s: State, t: CallId, a: Action, s': State)
    requires Takes(s, t, a, s')
    ensures Blind(s') == Blind(s) || Takes(Blind(s), t, a, Blind(s'))
  {
    match a
    case Registering(r) => RegisterBlind(s, t, s.threads[t], r, s'.threads[t], s');
    case Notifying(n) => NotifyBlind(s, t, s.threads[t], n, s'.threads[t], s');
    case Removing(r) => RemoveBlind(s, t, s.threads[t], r, s'.threads[t], s');
    case Running(r) => RunBlind(s, t, s.threads[t], r, s'.threads[t], s');
    case Other(o) => OtherBlind(s, t, o, s'.threads[t], s');
    case AddDriver(_, _) =>
  }

  lemma BlindExtends(r: seq<State>, s: State, s': State)
    requires Run(r) && r[|r| - 1] == s && Step(s, s')
    ensures Run(r + [s'])
  {
  }

  // Every observed run has an unobserved one with the same results, panics,
  // registry, clients and history.
  lemma {:induction false} RunBlindly(r: seq<State>) returns (p: seq<State>)
    requires Run(r) && Init(r[0])
    ensures Run(p) && Init(p[0]) && !p[0].observed && p[|p| - 1] == Blind(r[|r| - 1])
    decreases |r|
  {
    var k := |r| - 1;
    if k == 0 {
      p := [Blind(r[0])];
    } else {
      p := RunBlindly(r[..k]);
      StepsBlind(r[k - 1], r[k]);
      if Blind(r[k]) != Blind(r[k - 1]) {
        BlindExtends(p, Blind(r[k - 1]), Blind(r[k]));
        p := p + [Blind(r[k])];
      }
    }
  }

  lemma StepsBlind(s: State, s': State)
    requires Step(s, s')
    ensures Blind(s') == Blind(s) || Step(Blind(s), Blind(s'))
  {
    var t, a :| Takes(s, t, a, s');
    StepBlind(s, t, a, s');
  }

  // The other way: an unobserved state as an observed one sees it, with every
  // callback delivered so far and none outstanding.
  function Seen(s: State, trace: seq<Callback>): State {
    s.(observed := true, log := s.log.(trace := trace))
  }

  // What holds in every state of an unobserved run.
  ghost predicate Unseen(s: State) {
    && !s.observed && s.log.trace == []
    && forall t :: t in s.threads && s.threads[t].pc.Notify? ==> s.threads[t].pc.events == []
  }

  lemma BlindSeen(s: State, trace: seq<Callback>)
    requires Unseen(s)
    ensures Blind(Seen(s, trace)) == s
  {
    assert BlindThreads(s.threads) == s.threads;
  }

  // What a Run's step delivers.
  function Delivers(t: CallId, th: Thread, a: RunStep): seq<Callback> {
    if !IsRun(th.op) then []
    else
      match a
      case ObserveRefused => [AcquireDone(th.op.name, false, t)]
      case ObserveGranted => [AcquireDone(th.op.name, true, t)]
      case ObserveComplete => if th.pc.Returned? then [RunDone(th.op.name, th.pc.out, t)] else []
      case _ => []
  }

  lemma RegisterSeen(s: State, t: CallId, th: Thread, a: RegisterStep, th': Thread, s': State, trace: seq<Callback>)
    requires Unseen(s) && StepRegister(s, t, th, a, th', s')
    ensures Unseen(s') && StepRegister(Seen(s, trace), t, th, a, th', Seen(s', trace))
  {
  }

  lemma RemoveSeen(s: State, t: CallId, th: Thread, a: RemoveStep, th': Thread, s': State, trace: seq<Callback>)
    requires Unseen(s) && StepRemove(s, t, th, a, th', s')
    ensures Unseen(s') && StepRemove(Seen(s, trace), t, th, a, th', Seen(s', trace))
  {
  }

  lemma RunSeen(s: State, t: CallId, th: Thread, a: RunStep, th': Thread, s': State, trace: seq<Callback>)
    requires Unseen(s) && StepRun(s, t, th, a, th', s')
    ensures Unseen(s') && StepRun(Seen(s, trace), t, th, a, th', Seen(s', trace + Delivers(t, th, a)))
  {
  }

  lemma OtherSeen(s: State, t: CallId, a: OtherStep, th': Thread, s': State, trace: seq<Callback>)
    requires Unseen(s) && StepOther(s, t, a, th', s')
    ensures Unseen(s') && StepOther(Seen(s, trace), t, a, th', Seen(s', trace))
  {
  }

  // A call at observerMu with these callbacks still to make.
  function Telling(s: State, t: CallId, th: Thread, events: seq<Callback>, next: Next, trace: seq<Callback>): State {
    Seen(s, trace).(threads := s.threads[t := th.(pc := Notify(events, next))], locks := Locks(None, Some(t)))
  }

  lemma OneTold(s: State, t: CallId, th: Thread, events: seq<Callback>, next: Next, trace: seq<Callback>)
    requires events != []
    ensures Step(Telling(s, t, th, events, next, trace), Telling(s, t, th, events[1..], next, trace + [events[0]]))
  {
    var q, q' := Telling(s, t, th, events, next, trace), Telling(s, t, th, events[1..], next, trace + [events[0]]);
    assert q'.threads == q.threads[t := q'.threads[t]];
    assert Takes(q, t, Notifying(Deliver), q');
  }

  // All of them delivered, one step each, before the lock is let go.
  lemma {:induction false} AllTold(r: seq<State>, s: State, t: CallId, th: Thread, events: seq<Callback>, next: Next,
                                   trace: seq<Callback>) returns (q: seq<State>)
    requires Run(r) && r[|r| - 1] == Telling(s, t, th, events, next, trace)
    ensures Run(q) && r <= q && q[|q| - 1] == Telling(s, t, th, [], next, trace + events)
    decreases |events|
  {
    if events == [] {
      assert trace + events == trace;
      q := r;
    } else {
      OneTold(s, t, th, events, next, trace);
      var after := Telling(s, t, th, events[1..], next, trace + [events[0]]);
      BlindExtends(r, r[|r| - 1], after);
      q := AllTold(r + [after], s, t, th, events[1..], next, trace + [events[0]]);
      assert trace + [events[0]] + events[1..] == trace + events;
    }
  }

  lemma UnlockSeen(s: State, t: CallId, th: Thread, a: NotifyStep, th': Thread, s': State, trace: seq<Callback>)
    requires Unseen(s) && t in s.threads && th == s.threads[t] && StepNotify(s, t, th, a, th', s')
    ensures !a.Deliver? && Unseen(s')
    ensures a.Unlock? ==> StepNotify(Seen(s, trace), t, th, a, th', Seen(s', trace))
    ensures a.TakeObserverLock? ==> th.pc.Handover?
    ensures a.TakeObserverLock? ==>
      Seen(s', trace + th.pc.events) == Telling(s, t, th, [], th.pc.next, trace + th.pc.events)
    ensures a.TakeObserverLock? ==>
      StepNotify(Seen(s, trace), t, th, a, th.(pc := Notify(th.pc.events, th.pc.next)),
                 Telling(s, t, th, th.pc.events, th.pc.next, trace))
  {
  }

  // One unobserved step, as one observed step or, where a call takes observerMu, as
  // that step and the delivery of everything it has to tell.
  lemma TakesSeen(r: seq<State>, s: State, t: CallId, a: Action, s': State, trace: seq<Callback>)
      returns (q: seq<State>, trace': seq<Callback>)
    requires Run(r) && r[|r| - 1] == Seen(s, trace) && Unseen(s) && Takes(s, t, a, s')
    ensures Run(q) && r <= q && q[|q| - 1] == Seen(s', trace') && Unseen(s')
  {
    trace' := trace;
    match a {
      case Registering(x) => RegisterSeen(s, t, s.threads[t], x, s'.threads[t], s', trace);
      case Removing(x) => RemoveSeen(s, t, s.threads[t], x, s'.threads[t], s', trace);
      case Running(x) =>
        RunSeen(s, t, s.threads[t], x, s'.threads[t], s', trace);
        trace' := trace + Delivers(t, s.threads[t], x);
      case Notifying(x) =>
        q, trace' := NotifySeen(r, s, t, x, s', trace);
        return;
      case Other(x) => OtherSeen(s, t, x, s'.threads[t], s', trace);
      case AddDriver(_, _) =>
    }
    assert Takes(Seen(s, trace), t, a, Seen(s', trace'));
    BlindExtends(r, Seen(s, trace), Seen(s', trace'));
    q := r + [Seen(s', trace')];
  }

  lemma NotifySeen(r: seq<State>, s: State, t: CallId, a: NotifyStep, s': State, trace: seq<Callback>)
      returns (q: seq<State>, trace': seq<Callback>)
    requires Run(r) && r[|r| - 1] == Seen(s, trace) && Unseen(s) && Takes(s, t, Notifying(a), s')
    ensures Run(q) && r <= q && q[|q| - 1] == Seen(s', trace') && Unseen(s')
  {
    var th := s.threads[t];
    UnlockSeen(s, t, th, a, s'.threads[t], s', trace);
    if a.Unlock? {
      assert Takes(Seen(s, trace), t, Notifying(a), Seen(s', trace));
      BlindExtends(r, Seen(s, trace), Seen(s', trace));
      q, trace' := r + [Seen(s', trace)], trace;
    } else {
      var first := Telling(s, t, th, th.pc.events, th.pc.next, trace);
      assert first.threads[t] == th.(pc := Notify(th.pc.events, th.pc.next));
      assert Takes(Seen(s, trace), t, Notifying(a), first);
      BlindExtends(r, Seen(s, trace), first);
      trace' := trace + th.pc.events;
      q := AllTold(r + [first], s, t, th, th.pc.events, th.pc.next, trace);
    }
  }

  lemma StepSeen(r: seq<State>, s: State, s': State, trace: seq<Callback>)
      returns (q: seq<State>, trace': seq<Callback>)
    requires Run(r) && r[|r| - 1] == Seen(s, trace) && Unseen(s) && Step(s, s')
    ensures Run(q) && r <= q && q[|q| - 1] == Seen(s', trace') && Unseen(s')
  {
    var t, a :| Takes(s, t, a, s');
    q, trace' := TakesSeen(r, s, t, a, s', trace);
  }

  // An observed run that comes to the unobserved state s.
  ghost predicate Sights(r: seq<State>, s: State, trace: seq<Callback>) {
    Run(r) && Init(r[0]) && r[0].observed && Unseen(s) && r[|r| - 1] == Seen(s, trace)
  }

  lemma SightsStart(s: State)
    requires Init(s) && !s.observed
    ensures Sights([Seen(s, [])], s, [])
  {
  }

  lemma SightsMore(r: seq<State>, s: State, trace: seq<Callback>, s': State)
      returns (q: seq<State>, trace': seq<Callback>)
    requires Sights(r, s, trace) && Step(s, s')
    ensures Sights(q, s', trace')
  {
    q, trace' := StepSeen(r, s, s', trace);
    assert q[0] == r[0];
  }

  lemma {:induction false} SightedTo(p: seq<State>, k: nat) returns (r: seq<State>, trace: seq<Callback>)
    requires Run(p) && Init(p[0]) && !p[0].observed && k < |p|
    ensures Sights(r, p[k], trace)
  {
    if k == 0 {
      r, trace := [Seen(p[0], [])], [];
      SightsStart(p[0]);
    } else {
      var before, was := SightedTo(p, k - 1);
      r, trace := SightsMore(before, p[k - 1], was, p[k]);
    }
  }

  // Every unobserved run is what an observed one looks like without its observer:
  // having an observer takes nothing away.
  lemma RunSighted(p: seq<State>) returns (r: seq<State>, trace: seq<Callback>)
    requires Run(p) && Init(p[0]) && !p[0].observed
    ensures Run(r) && Init(r[0]) && r[0].observed
    ensures r[|r| - 1] == Seen(p[|p| - 1], trace) && Unseen(p[|p| - 1]) && Blind(r[|r| - 1]) == p[|p| - 1]
  {
    r, trace := SightedTo(p, |p| - 1);
    BlindSeen(p[|p| - 1], trace);
  }
}
