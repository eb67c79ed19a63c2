// Deadlock freedom: while some call has not returned, some call can step.
// Callbacks, fn and driver Opens return, and do not call back into the Directory.
module Deadlock {
  import opened Basics
  import opened Registry
  import opened Protocol
  import opened Counting
  import opened Shape
  import opened Counters
  import opened Lifecycle
  import opened Safety

  // Steps of calls already made, other than a context ending.
  predicate IsWork(a: Action) {
    !a.AddDriver? && (a.Other? ==> a.other.Read? || a.other.Continue?)
  }

  ghost predicate CanStep(s: State, t: CallId) {
    exists a, s' :: IsWork(a) && Takes(s, t, a, s')
  }

  lemma StepsBy(s: State, t: CallId, a: Action, s': State)
    requires IsWork(a) && Takes(s, t, a, s')
    ensures CanStep(s, t)
  {
  }

  // What a call may have to wait for: mu, observerMu, an entry's wg, a token, the openings.
  predicate Blocked(s: State, th: Thread) {
    match th.pc
    case Begin => s.locks.mu.Some?
    case Opened(_) => s.locks.mu.Some?
    case Handover(_, _) => s.locks.om.Some?
    case Wait(e, _) => e in s.heap && s.heap[e].wg != 0
    case Select(e) => e in s.heap && s.heap[e].tokens <= 0
    case WaitOpenings => s.dir.openings != 0
    case _ => false
  }

  lemma FreshEntry(heap: Heap) returns (e: EntryId)
    ensures e !in heap
  {
    e := Above(heap.Keys);
  }

  lemma {:induction false} Above(ids: set<nat>) returns (n: nat)
    ensures forall i: nat :: i in ids ==> i < n
  {
    if ids == {} {
      n := 0;
    } else {
      var i :| i in ids;
      var m := Above(ids - {i});
      n := if i < m then m else i + 1;
      forall j: nat | j in ids ensures j < n {
        assert j == i || j in ids - {i};
      }
    }
  }

  lemma {:induction false} SomeOrder(names: set<Name>) returns (order: seq<Name>)
    ensures Enumerates(order, names)
  {
    if names == {} {
      order := [];
    } else {
      var n :| n in names;
      var rest := SomeOrder(names - {n});
      order := rest + [n];
    }
  }

  lemma RegisterCanStep(s: State, t: CallId)
    requires t in s.threads && Fits(s.threads[t]) && !Blocked(s, s.threads[t]) && s.threads[t].op.Register?
    requires s.threads[t].pc.Begin? || s.threads[t].pc.Opening? || s.threads[t].pc.Discard? || s.threads[t].pc.Finish?
    ensures CanStep(s, t)
  {
    var th := s.threads[t];
    var n := th.op.name;
    match th.pc
    case Begin =>
      if n != "" && !s.dir.closed && n !in s.dir.entries {
        var s' := s.(threads := s.threads[t := th.(pc := Opening)],
                     dir := s.dir.(openings := s.dir.openings + 1), drivers := s.drivers.(frozen := true));
        StepsBy(s, t, Registering(RegisterFirst), s');
      } else {
        var res := if n == "" then NameRequired else if s.dir.closed then Closed else AlreadyRegistered;
        var s' := s.(threads := s.threads[t := Answered(th, Done(Nothing), res)], log := Record(s.log, t, th, res));
        StepsBy(s, t, Registering(RegisterFirst), s');
      }
    case Opening =>
      var s' := s.(threads := s.threads[t := Answered(th, Finish, OpenFailed)],
                   log := Record(s.log, t, th, OpenFailed));
      StepsBy(s, t, Registering(OpenFails), s');
    case Discard(c) =>
      var s' := s.(threads := s.threads[t := th.(pc := Finish)],
                   custody := Custody(s.custody.clients[c := Discarded], s.custody.closes + multiset{c}));
      StepsBy(s, t, Registering(DiscardClient), s');
    case Finish =>
      var s' := s.(threads := s.threads[t := th.(pc := Done(Nothing))], dir := s.dir.(openings := s.dir.openings - 1));
      StepsBy(s, t, Registering(FinishRegister), s');
    case _ =>
  }

  lemma OpenedCanStep(s: State, t: CallId)
    requires t in s.threads && Fits(s.threads[t]) && !Blocked(s, s.threads[t]) && s.threads[t].pc.Opened?
    ensures CanStep(s, t)
  {
    var th := s.threads[t];
    var n, c := th.op.name, th.pc.client;
    var e := FreshEntry(s.heap);
    if s.dir.closed || n in s.dir.entries {
      var res := if s.dir.closed then Closed else AlreadyRegistered;
      var s' := s.(threads := s.threads[t := Answered(th, Discard(c), res)], log := Record(s.log, t, th, res));
      StepsBy(s, t, Registering(RegisterSecond(e)), s');
    } else {
      var th' := Answered(th, Handover([SourceRegistered(n)], ToFinish), Registered(e));
      var s' := s.(threads := s.threads[t := th'],
                   locks := s.locks.(mu := Some(t)),
                   dir := s.dir.(entries := s.dir.entries[n := e]),
                   heap := s.heap[e := Entry(n, c, th.op.cfg.limit, Capacity(th.op.cfg.limit), 0, Live, t)],
                   custody := s.custody.(clients := s.custody.clients[c := InEntry(e)]),
                   log := Record(s.log, t, th, Registered(e)));
      StepsBy(s, t, Registering(RegisterSecond(e)), s');
    }
  }

  lemma NotifyCanStep(s: State, t: CallId)
    requires t in s.threads && !Blocked(s, s.threads[t]) && (s.threads[t].pc.Handover? || s.threads[t].pc.Notify?)
    ensures CanStep(s, t)
  {
    var th := s.threads[t];
    var pc := th.pc;
    if pc.Handover? {
      var th' := th.(pc := Notify(if s.observed then pc.events else [], pc.next));
      StepsBy(s, t, Notifying(TakeObserverLock),
                   s.(threads := s.threads[t := th'], locks := Locks(None, Some(t))));
    } else if pc.events == [] {
      var th' := th.(pc := AfterUnlock(pc.next));
      StepsBy(s, t, Notifying(Unlock), s.(threads := s.threads[t := th'], locks := s.locks.(om := None)));
    } else {
      var th' := th.(pc := Notify(pc.events[1..], pc.next));
      StepsBy(s, t, Notifying(Deliver),
                   s.(threads := s.threads[t := th'], log := s.log.(trace := s.log.trace + [pc.events[0]])));
    }
  }

  lemma RemovalBegins(s: State, t: CallId)
    requires t in s.threads && !Blocked(s, s.threads[t]) && s.threads[t].pc.Begin?
    requires s.threads[t].op.Remove? || s.threads[t].op.RemoveAll?
    ensures CanStep(s, t)
  {
    var th := s.threads[t];
    if th.op.RemoveAll? {
      var order := SomeOrder(s.dir.entries.Keys);
      var batch := s.dir.entries.Values;
      var th' := Answered(th, Handover(Removals(order), ToDrain(batch)), RemovedAll(batch, order));
      var s' := s.(threads := s.threads[t := th'], locks := s.locks.(mu := Some(t)),
                   dir := s.dir.(entries := map[], closed := true), heap := Take(s.heap, batch, t),
                   log := Record(s.log, t, th, RemovedAll(batch, order)));
      StepsBy(s, t, Removing(Swap(order)), s');
    } else if !Matches(s.dir, th.op.name, th.op.expected) {
      var res := if th.op.expected.Some? then Superseded else NotFound;
      var s' := s.(threads := s.threads[t := Answered(th, Done(Nothing), res)], log := Record(s.log, t, th, res));
      StepsBy(s, t, Removing(RemoveFirst), s');
    } else {
      var n := th.op.name;
      var e := s.dir.entries[n];
      var th' := Answered(th, Handover([SourceRemoved(n)], ToWait(e)), Removed(e));
      var s' := s.(threads := s.threads[t := th'], locks := s.locks.(mu := Some(t)),
                   dir := s.dir.(entries := s.dir.entries - {n}), heap := Take(s.heap, {e}, t),
                   log := Record(s.log, t, th, Removed(e)));
      StepsBy(s, t, Removing(RemoveFirst), s');
    }
  }

  lemma RemovalCanStep(s: State, t: CallId)
    requires t in s.threads && !Blocked(s, s.threads[t]) && Owned(s.threads[t].pc) <= s.heap.Keys
    requires var pc := s.threads[t].pc; pc.Drain? || pc.Wait? || pc.Close? || pc.WaitOpenings?
    ensures CanStep(s, t)
  {
    var th := s.threads[t];
    match th.pc
    case Drain(rest) =>
      if rest == {} {
        StepsBy(s, t, Removing(DrainDone), s.(threads := s.threads[t := th.(pc := WaitOpenings)]));
      } else {
        var e :| e in rest;
        StepsBy(s, t, Removing(Pick(e)), s.(threads := s.threads[t := th.(pc := Wait(e, rest - {e}))]));
      }
    case Wait(e, rest) =>
      assert e in Owned(th.pc);
      StepsBy(s, t, Removing(Drained), s.(threads := s.threads[t := th.(pc := Close(e, rest))]));
    case Close(e, rest) =>
      assert e in Owned(th.pc);
      var th' := th.(pc := if th.op.RemoveAll? then Drain(rest) else Done(Nothing));
      var s' := s.(threads := s.threads[t := th'], heap := s.heap[e := s.heap[e].(stage := Shut)],
                   custody := s.custody.(closes := s.custody.closes + multiset{s.heap[e].client}));
      StepsBy(s, t, Removing(CloseClient), s');
    case WaitOpenings =>
      StepsBy(s, t, Removing(OpeningsDone), s.(threads := s.threads[t := th.(pc := Done(Nothing))]));
    case _ =>
  }

  lemma RunBegins(s: State, t: CallId)
    requires t in s.threads && !Blocked(s, s.threads[t]) && s.threads[t].pc.Begin? && IsRun(s.threads[t].op)
    requires Mapped(s.dir, s.heap)
    ensures CanStep(s, t)
  {
    var th := s.threads[t];
    if !Admissible(s.dir, th.op) {
      var s' := s.(threads := s.threads[t := Answered(th, Done(Nothing), NotFound)],
                   log := Record(s.log, t, th, NotFound));
      StepsBy(s, t, Running(Admit), s');
    } else {
      var e := s.dir.entries[th.op.name];
      var s' := s.(threads := s.threads[t := Answered(th, Check(e), Admitted(e))],
                   heap := s.heap[e := s.heap[e].(wg := s.heap[e].wg + 1)], log := Record(s.log, t, th, Admitted(e)));
      StepsBy(s, t, Running(Admit), s');
    }
  }

  // Before fn: the throttle.
  lemma RunWaits(s: State, t: CallId)
    requires t in s.threads && !Blocked(s, s.threads[t]) && IsRun(s.threads[t].op)
    requires s.threads[t].pc.Check? || s.threads[t].pc.Select? || s.threads[t].pc.Refused?
    requires s.threads[t].pc.entry in s.heap
    ensures CanStep(s, t)
  {
    var th := s.threads[t];
    match th.pc
    case Check(e) =>
      var pc := if th.cancelled then Refused(e) else if s.heap[e].limit <= 0 then Granted(e) else Select(e);
      StepsBy(s, t, Running(CheckContext), s.(threads := s.threads[t := th.(pc := pc)]));
    case Select(e) =>
      var s' := s.(threads := s.threads[t := th.(pc := Granted(e))],
                   heap := s.heap[e := s.heap[e].(tokens := s.heap[e].tokens - 1)]);
      StepsBy(s, t, Running(Grant), s');
    case Refused(e) =>
      var s' := s.(threads := s.threads[t := th.(pc := Release(e, GaveUp))],
                   log := Emit(s, AcquireDone(th.op.name, false, t)));
      StepsBy(s, t, Running(ObserveRefused), s');
    case _ =>
  }

  // fn and after it.
  lemma RunProceeds(s: State, t: CallId)
    requires t in s.threads && IsRun(s.threads[t].op) && Used(s.threads[t].pc).Some?
    requires s.threads[t].pc.Granted? || s.threads[t].pc.InFn? || s.threads[t].pc.Returned? || s.threads[t].pc.Release?
    requires s.threads[t].pc.entry in s.heap
    ensures CanStep(s, t)
  {
    var th := s.threads[t];
    match th.pc
    case Granted(e) =>
      var s' := s.(threads := s.threads[t := th.(pc := InFn(e))], log := Emit(s, AcquireDone(th.op.name, true, t)));
      StepsBy(s, t, Running(ObserveGranted), s');
    case InFn(e) =>
      StepsBy(s, t, Running(FnReturns(Value)), s.(threads := s.threads[t := th.(pc := Returned(e, Value))]));
    case Returned(e, out) =>
      var s' := s.(threads := s.threads[t := th.(pc := TokenBack(e, out))],
                   log := Emit(s, RunDone(th.op.name, out, t)));
      StepsBy(s, t, Running(ObserveComplete), s');
    case Release(e, out) =>
      var s' := s.(threads := s.threads[t := th.(pc := Done(out))],
                   heap := s.heap[e := s.heap[e].(wg := s.heap[e].wg - 1)]);
      StepsBy(s, t, Running(WgDone), s');
    case _ =>
  }

  predicate HasRoom(heap: Heap, e: EntryId) { e in heap && (heap[e].limit > 0 ==> heap[e].tokens < heap[e].limit) }

  lemma TokenCanStep(s: State, t: CallId)
    requires t in s.threads && IsRun(s.threads[t].op) && s.threads[t].pc.TokenBack?
    requires HasRoom(s.heap, s.threads[t].pc.entry)
    ensures CanStep(s, t)
  {
    var th := s.threads[t];
    var e := th.pc.entry;
    var ths := s.threads[t := th.(pc := Release(e, th.pc.out))];
    if s.heap[e].limit <= 0 {
      StepsBy(s, t, Running(ReturnToken), s.(threads := ths));
    } else {
      StepsBy(s, t, Running(ReturnToken),
                   s.(threads := ths, heap := s.heap[e := s.heap[e].(tokens := s.heap[e].tokens + 1)]));
    }
  }

  lemma ReadCanStep(s: State, t: CallId)
    requires t in s.threads && !Blocked(s, s.threads[t]) && s.threads[t].pc.Begin?
    requires s.threads[t].op.Snapshot? || s.threads[t].op.List?
    ensures CanStep(s, t)
  {
    var th := s.threads[t];
    var res := if th.op.Snapshot? then Found(Lookup(s.dir.entries, th.op.name)) else Listed(s.dir.entries);
    var s' := s.(threads := s.threads[t := Answered(th, Done(Nothing), res)], log := Record(s.log, t, th, res));
    StepsBy(s, t, Other(Read), s');
  }

  lemma ConfigureCanStep(s: State, t: CallId)
    requires t in s.threads && Fits(s.threads[t]) && s.threads[t].pc.Done? && !Returns(s.threads[t])
    ensures CanStep(s, t)
  {
    var th := s.threads[t];
    var c := th.caller;
    var pick := "";
    var th' := th;
    match c.phase {
      case Publishing =>
        if th.res.value.Registered? {
          var published := c.published + [Published(th.op.name, th.res.value.entry)];
          if c.todo == map[] {
            th' := th.(caller := c.(published := published, phase := Finished(true)));
          } else {
            pick :| pick in c.todo;
            th' := BeginPublish(th.(caller := c.(published := published)), pick);
          }
        } else {
          th' := BeginRollback(th, c.published);
        }
      case RollingBack(rest) => th' := BeginRollback(th, rest[1..]);
      case Finished(_) =>
    }
    StepsBy(s, t, Other(Continue(pick)), s.(threads := s.threads[t := th']));
  }

  // Any call that has not returned and waits for nothing can step.
  lemma UnblockedCanStep(s: State, t: CallId)
    requires Reachable(s) && t in s.threads && !Returns(s.threads[t]) && !Blocked(s, s.threads[t])
    ensures CanStep(s, t)
  {
    ShapedHere(s);
    CountedHere(s);
    LivesHere(s);
    CallOwns(s, t);
    var th := s.threads[t];
    assert Fits(th);
    assert Used(th.pc).Some? ==> Used(th.pc).value in s.heap;
    assert Owned(th.pc) <= s.heap.Keys by {
      forall e | e in Owned(th.pc) ensures e in s.heap { assert IsTaken(s.heap, e, t); }
    }
    if th.pc.TokenBack? { ReleaseNeverBlocks(s, t); }
    PcCanStep(s, t);
  }

  lemma PcCanStep(s: State, t: CallId)
    requires t in s.threads && Fits(s.threads[t]) && !Returns(s.threads[t]) && !Blocked(s, s.threads[t])
    requires Mapped(s.dir, s.heap) && Owned(s.threads[t].pc) <= s.heap.Keys
    requires Used(s.threads[t].pc).Some? ==> Used(s.threads[t].pc).value in s.heap
    requires s.threads[t].pc.TokenBack? ==> HasRoom(s.heap, s.threads[t].pc.entry)
    ensures CanStep(s, t)
  {
    var th := s.threads[t];
    match th.pc
    case Begin =>
      match th.op {
        case Register(_, _) => RegisterCanStep(s, t);
        case Remove(_, _) => RemovalBegins(s, t);
        case RemoveAll => RemovalBegins(s, t);
        case Snapshot(_) => ReadCanStep(s, t);
        case List => ReadCanStep(s, t);
        case _ => RunBegins(s, t);
      }
    case Opening => RegisterCanStep(s, t);
    case Opened(_) => OpenedCanStep(s, t);
    case Discard(_) => RegisterCanStep(s, t);
    case Finish => RegisterCanStep(s, t);
    case Handover(_, _) => NotifyCanStep(s, t);
    case Notify(_, _) => NotifyCanStep(s, t);
    case Drain(_) => RemovalCanStep(s, t);
    case Wait(_, _) => RemovalCanStep(s, t);
    case Close(_, _) => RemovalCanStep(s, t);
    case WaitOpenings => RemovalCanStep(s, t);
    case Check(_) => RunWaits(s, t);
    case Select(_) => RunWaits(s, t);
    case Refused(_) => RunWaits(s, t);
    case TokenBack(_, _) => TokenCanStep(s, t);
    case Done(_) => ConfigureCanStep(s, t);
    case _ => RunProceeds(s, t);
  }

  // Who a blocked call waits for, along mu then observerMu, wg then tokens, openings.
  lemma WaitsForToken(s: State, t: CallId) returns (u: CallId)
    requires Reachable(s) && t in s.threads && s.threads[t].pc.Select? && Blocked(s, s.threads[t])
    ensures u in s.threads && Tokened(s.threads[u].pc) == Some(s.threads[t].pc.entry)
  {
    CountedHere(s);
    var e := s.threads[t].pc.entry;
    assert Limited(s.heap, s.threads[t].pc);
    assert Balanced(s.heap[e], Count(s.threads, User(e)), Count(s.threads, TokenHolder(e)));
    u := Someone(s.threads, TokenHolder(e));
  }

  lemma WaitsForRun(s: State, t: CallId) returns (u: CallId)
    requires Reachable(s) && t in s.threads && s.threads[t].pc.Wait? && Blocked(s, s.threads[t])
    ensures u in s.threads && Used(s.threads[u].pc) == Some(s.threads[t].pc.entry)
  {
    CountedHere(s);
    var e := s.threads[t].pc.entry;
    assert Balanced(s.heap[e], Count(s.threads, User(e)), Count(s.threads, TokenHolder(e)));
    u := Someone(s.threads, User(e));
  }

  lemma WaitsForOpening(s: State, t: CallId) returns (u: CallId)
    requires Reachable(s) && t in s.threads && s.threads[t].pc.WaitOpenings? && Blocked(s, s.threads[t])
    ensures u in s.threads && Plays(s.threads[u], Opener)
  {
    CountedHere(s);
    u := Someone(s.threads, Opener);
  }

  lemma LockHolders(s: State)
    requires Reachable(s)
    ensures s.locks.om.Some? ==> s.locks.om.value in s.threads && s.threads[s.locks.om.value].pc.Notify?
    ensures s.locks.mu.Some? ==> s.locks.mu.value in s.threads && s.threads[s.locks.mu.value].pc.Handover?
  {
    ShapedHere(s);
  }

  // A Run past admission can step, or waits for a Run that holds a token and can.
  lemma RunnerCanStep(s: State, t: CallId) returns (u: CallId)
    requires Reachable(s) && t in s.threads && Used(s.threads[t].pc).Some?
    ensures u in s.threads && CanStep(s, u)
  {
    u := t;
    if Blocked(s, s.threads[t]) {
      u := WaitsForToken(s, t);
    }
    UnblockedCanStep(s, u);
  }

  // No reachable state with a call still running is stuck.
  lemma NoDeadlock(s: State, t: CallId) returns (u: CallId)
    requires Reachable(s) && t in s.threads && !Returns(s.threads[t])
    ensures u in s.threads && CanStep(s, u)
  {
    LockHolders(s);
    if s.locks.om.Some? {
      u := s.locks.om.value;
      UnblockedCanStep(s, u);
    } else if s.locks.mu.Some? {
      u := s.locks.mu.value;
      UnblockedCanStep(s, u);
    } else if !Blocked(s, s.threads[t]) {
      u := t;
      UnblockedCanStep(s, u);
    } else {
      match s.threads[t].pc {
        case Wait(_, _) =>
          var v := WaitsForRun(s, t);
          u := RunnerCanStep(s, v);
        case Select(_) => u := RunnerCanStep(s, t);
        case WaitOpenings =>
          u := WaitsForOpening(s, t);
          UnblockedCanStep(s, u);
        case _ =>
          assert false;
          u := t;
      }
    }
  }
}
