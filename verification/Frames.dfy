// Control flow inside one goroutine: frames with their deferred calls, panics that
// unwind them, and recover.
module Frames {
  import opened Basics
  import opened Protocol

  // Deferred calls, by what they are for.
  datatype Deferred =
    | DoneWg          // e.directory.release(entry)
    | GiveToken       // entry.throttle.Release()
    | CompleteRun     // the closure that makes the complete callback
    | Swallow         // safeObserve's recover
    | UnlockObserver  // observerMu.Unlock()
    | DoneOpening     // openings.Done()

  datatype Note = Refusal | Grants | Completion | Completed(out: Outcome) | Lifecycle(cb: Callback)

  datatype Instr =
    | Defer(d: Deferred)
    | Guarded(n: Note)   // a call of safeObserve
    | Tell(n: Note)      // the observer's own method
    | Recover
    | Repanic            // panics again with what Recover found, if it found something
    | CheckThrottle
    | SelectToken
    | CallFn
    | Do(d: Deferred)    // the action itself; it does not panic

  datatype Panic = FromFn | FromObserver

  // `saved`: the panic under way when a deferred call began, for its recover;
  // `caught`: what its recover returned.
  datatype Frame = Frame(code: seq<Instr>, defers: seq<Deferred>, isDeferred: bool,
                         saved: Option<Panic>, caught: Option<Panic>)

  datatype Job = InRun(entry: EntryId) | InNotify(next: Next)

  // `err` is the named result. `ran` and `registered` are history: deferred calls made, and registered.
  datatype Goroutine = Goroutine(job: Job, stack: seq<Frame>, panic: Option<Panic>, err: Outcome,
                                 ran: seq<Deferred>, registered: multiset<Deferred>)

  function Call(code: seq<Instr>): Frame { Frame(code, [], false, None, None) }

  function Body(d: Deferred): seq<Instr> {
    match d
    case Swallow => [Recover]
    case CompleteRun => [Recover, Guarded(Completion), Repanic]
    case _ => [Do(d)]
  }

  function SafeObserve(n: Note): seq<Instr> { [Defer(Swallow), Tell(n)] }

  const RUN_ENTRY: seq<Instr> := [Defer(DoneWg), CheckThrottle]

  function RefusedCode(observed: bool): seq<Instr> { if observed then [Guarded(Refusal)] else [] }

  function GrantedCode(observed: bool): seq<Instr> {
    if observed then [Guarded(Grants), Defer(GiveToken), Defer(CompleteRun), CallFn]
    else [Defer(GiveToken), CallFn]
  }

  function Guards(events: seq<Callback>): seq<Instr> {
    seq(|events|, i requires 0 <= i < |events| => Guarded(Lifecycle(events[i])))
  }

  function StartRun(e: EntryId): Goroutine {
    Goroutine(InRun(e), [Call(RUN_ENTRY)], None, Nothing, [], multiset{})
  }

  function Owed(next: Next): seq<Deferred> { if next.ToFinish? then [DoneOpening] else [] }

  // From taking observerMu on: register has openings.Done registered already.
  function StartTelling(events: seq<Callback>, next: Next): Goroutine {
    Goroutine(InNotify(next), [Frame([Defer(UnlockObserver)] + Guards(events), Owed(next), false, None, None)],
              None, Nothing, [], multiset(Owed(next)))
  }

  // What is not settled by the goroutine itself: whether an observer panics, what
  // the throttle answers, how fn ends.
  datatype Reply = Calm | Raise | LetIn | TurnAway | Queue | Ends(out: Outcome)

  function Top(g: Goroutine): Frame
    requires g.stack != []
  {
    g.stack[|g.stack| - 1]
  }

  // The next instruction, unless the frame is returning or panicking.
  function Head(g: Goroutine): Option<Instr> {
    if g.stack != [] && g.panic.None? && Top(g).code != [] then Some(Top(g).code[0]) else None
  }

  // The outcome a complete callback reports.
  function Bound(n: Note, top: Frame, err: Outcome): Note {
    if n.Completion? then Completed(if top.caught.Some? then Panicked else err) else n
  }

  // The next instruction of the top frame.
  function ExecHead(g: Goroutine, observed: bool, r: Reply): Goroutine
    requires Head(g).Some?
  {
    var top, below := Top(g), g.stack[..|g.stack| - 1];
    var rest := top.(code := top.code[1..]);
    match top.code[0]
    case Defer(d) =>
      g.(stack := below + [rest.(defers := rest.defers + [d])], registered := g.registered + multiset{d})
    case Guarded(n) => g.(stack := below + [rest, Call(SafeObserve(Bound(n, top, g.err)))])
    case Tell(_) => g.(stack := below + [rest], panic := if r.Raise? then Some(FromObserver) else None)
    case Recover => g.(stack := below + [rest.(caught := top.saved, saved := None)])
    case Repanic => g.(stack := below + [rest], panic := top.caught)
    case CallFn =>
      if r.Ends? && !r.out.Panicked? then g.(stack := below + [rest], err := r.out)
      else g.(stack := below + [rest], panic := Some(FromFn))
    case Do(_) => g.(stack := below + [rest])
    case _ => ThrottleSays(g, below, top, observed, r)
  }

  // The throttle's answer decides which code comes next.
  function ThrottleSays(g: Goroutine, below: seq<Frame>, top: Frame, observed: bool, r: Reply): Goroutine {
    match r
    case LetIn => g.(stack := below + [top.(code := GrantedCode(observed))])
    case Queue => g.(stack := below + [top.(code := [SelectToken])])
    case _ => g.(stack := below + [top.(code := RefusedCode(observed))], err := GaveUp)
  }

  // Returning or panicking: the last deferred call is made, in a frame of its own.
  function MakeDeferred(g: Goroutine): Goroutine
    requires g.stack != [] && Top(g).defers != []
  {
    var top, below := Top(g), g.stack[..|g.stack| - 1];
    var d := top.defers[|top.defers| - 1];
    g.(stack := below + [top.(code := [], defers := top.defers[..|top.defers| - 1]),
                         Frame(Body(d), [], true, g.panic, None)],
       panic := None, ran := g.ran + [d])
  }

  // The frame is left; a panic that no deferred call has recovered goes on.
  function Leave(g: Goroutine): Goroutine
    requires g.stack != []
  {
    g.(stack := g.stack[..|g.stack| - 1],
       panic := if Top(g).isDeferred && g.panic.None? then Top(g).saved else g.panic)
  }

  // One step of a goroutine.
  function Exec(g: Goroutine, observed: bool, r: Reply): Goroutine
    requires g.stack != []
  {
    if Head(g).Some? then ExecHead(g, observed, r)
    else if Top(g).defers != [] then MakeDeferred(g)
    else Leave(g)
  }

  lemma TopIs(g: Goroutine, below: seq<Frame>, top: Frame)
    requires g.stack == below + [top]
    ensures Top(g) == top && g.stack[..|g.stack| - 1] == below
  {
  }

  // The step at an instruction, with the frames below it and the code after it named.
  lemma AtInstr(g: Goroutine, below: seq<Frame>, top: Frame, i: Instr, code: seq<Instr>)
    requires g.stack == below + [top] && g.panic.None? && top.code == [i] + code
    ensures Head(g) == Some(i) && Top(g) == top && g.stack[..|g.stack| - 1] == below
    ensures top.code[0] == i && top.code[1..] == code
  {
    TopIs(g, below, top);
  }

  lemma ExecDefer(g: Goroutine, below: seq<Frame>, top: Frame, d: Deferred, code: seq<Instr>, observed: bool, r: Reply)
    requires g.stack == below + [top] && g.panic.None? && top.code == [Defer(d)] + code
    ensures Head(g) == Some(Defer(d))
    ensures Exec(g, observed, r) ==
      g.(stack := below + [top.(code := code, defers := top.defers + [d])], registered := g.registered + multiset{d})
  {
    AtInstr(g, below, top, Defer(d), code);
  }

  lemma ExecGuarded(g: Goroutine, below: seq<Frame>, top: Frame, n: Note, code: seq<Instr>, observed: bool, r: Reply)
    requires g.stack == below + [top] && g.panic.None? && top.code == [Guarded(n)] + code
    ensures Head(g) == Some(Guarded(n))
    ensures Exec(g, observed, r) ==
      g.(stack := below + [top.(code := code), Call(SafeObserve(Bound(n, top, g.err)))])
  {
    AtInstr(g, below, top, Guarded(n), code);
  }

  lemma ExecAct(g: Goroutine, below: seq<Frame>, top: Frame, d: Deferred, observed: bool, r: Reply)
    requires g.stack == below + [top] && g.panic.None? && top.code == [Do(d)]
    ensures Head(g) == Some(Do(d))
    ensures Exec(g, observed, r) == g.(stack := below + [top.(code := [])])
  {
    assert [Do(d)] == [Do(d)] + [];
    AtInstr(g, below, top, Do(d), []);
  }

  lemma ExecThrottle(g: Goroutine, below: seq<Frame>, top: Frame, i: Instr, observed: bool, r: Reply)
    requires g.stack == below + [top] && g.panic.None? && top.code == [i] && (i.CheckThrottle? || i.SelectToken?)
    ensures Head(g) == Some(i) && Exec(g, observed, r) == ThrottleSays(g, below, top, observed, r)
  {
    assert [i] == [i] + [];
    AtInstr(g, below, top, i, []);
  }

  lemma ExecFn(g: Goroutine, below: seq<Frame>, top: Frame, observed: bool, r: Reply)
    requires g.stack == below + [top] && g.panic.None? && top.code == [CallFn] && r.Ends?
    ensures Head(g) == Some(CallFn)
    ensures Exec(g, observed, r) ==
      if r.out.Panicked? then g.(stack := below + [top.(code := [])], panic := Some(FromFn))
      else g.(stack := below + [top.(code := [])], err := r.out)
  {
    assert [CallFn] == [CallFn] + [];
    AtInstr(g, below, top, CallFn, []);
  }

  lemma ExecRecover(g: Goroutine, below: seq<Frame>, top: Frame, code: seq<Instr>, observed: bool, r: Reply)
    requires g.stack == below + [top] && g.panic.None? && top.code == [Recover] + code
    ensures Head(g) == Some(Recover)
    ensures Exec(g, observed, r) == g.(stack := below + [top.(code := code, caught := top.saved, saved := None)])
  {
    AtInstr(g, below, top, Recover, code);
  }

  lemma ExecRepanic(g: Goroutine, below: seq<Frame>, top: Frame, observed: bool, r: Reply)
    requires g.stack == below + [top] && g.panic.None? && top.code == [Repanic]
    ensures Head(g) == Some(Repanic)
    ensures Exec(g, observed, r) == g.(stack := below + [top.(code := [])], panic := top.caught)
  {
    assert [Repanic] == [Repanic] + [];
    AtInstr(g, below, top, Repanic, []);
  }

  lemma ExecDeferred(g: Goroutine, below: seq<Frame>, top: Frame, defers: seq<Deferred>, d: Deferred,
                     observed: bool, r: Reply)
    requires g.stack == below + [top] && (g.panic.Some? || top.code == []) && top.defers == defers + [d]
    ensures Head(g) == None
    ensures Exec(g, observed, r) ==
      g.(stack := below + [top.(code := [], defers := defers), Frame(Body(d), [], true, g.panic, None)],
         panic := None, ran := g.ran + [d])
  {
    TopIs(g, below, top);
    assert (defers + [d])[..|defers|] == defers;
  }

  lemma ExecLeave(g: Goroutine, below: seq<Frame>, top: Frame, observed: bool, r: Reply)
    requires g.stack == below + [top] && (g.panic.Some? || top.code == []) && top.defers == []
    ensures Head(g) == None
    ensures Exec(g, observed, r) ==
      g.(stack := below, panic := if top.isDeferred && g.panic.None? then top.saved else g.panic)
  {
    TopIs(g, below, top);
  }

  // Deferred calls still to be made.
  function Pending(stack: seq<Frame>): multiset<Deferred> {
    if stack == [] then multiset{}
    else Pending(stack[..|stack| - 1]) + multiset(stack[|stack| - 1].defers)
  }

  lemma PendingPut(below: seq<Frame>, f: Frame)
    ensures Pending(below + [f]) == Pending(below) + multiset(f.defers)
  {
    assert (below + [f])[..|below|] == below;
  }

  ghost predicate Accounted(g: Goroutine) { multiset(g.ran) + Pending(g.stack) == g.registered }

  // Whatever panics: a deferred call that was registered is made once or still to be made.
  lemma ExecAccounts(g: Goroutine, observed: bool, r: Reply)
    requires g.stack != [] && Accounted(g)
    ensures Accounted(Exec(g, observed, r))
  {
    var top, below := Top(g), g.stack[..|g.stack| - 1];
    assert g.stack == below + [top];
    if Head(g).Some? {
      HeadAccounts(g, observed, r, below, top);
    } else if top.defers != [] {
      UnwindAccounts(g, observed, r, below, top);
    } else {
      PendingPut(below, top);
    }
  }

  lemma PendingTwo(below: seq<Frame>, left: Frame, call: Frame)
    ensures Pending(below + [left, call]) == Pending(below) + multiset(left.defers) + multiset(call.defers)
  {
    assert below + [left, call] == below + [left] + [call];
    PendingPut(below, left);
    PendingPut(below + [left], call);
  }

  lemma LastOut(defers: seq<Deferred>, d: Deferred)
    ensures multiset(defers + [d]) == multiset(defers) + multiset{d}
  {
  }

  // Making a deferred call takes it off the frame; its body defers nothing itself.
  lemma PendingCall(below: seq<Frame>, top: Frame, left: Frame, d: Deferred, call: Frame)
    requires top.defers == left.defers + [d] && call.defers == []
    ensures Pending(below + [top]) == Pending(below + [left, call]) + multiset{d}
  {
    LastOut(left.defers, d);
    PendingPut(below, top);
    PendingTwo(below, left, call);
  }

  lemma UnwindAccounts(g: Goroutine, observed: bool, r: Reply, below: seq<Frame>, top: Frame)
    requires g.stack == below + [top] && (g.panic.Some? || top.code == []) && top.defers != [] && Accounted(g)
    ensures Accounted(Exec(g, observed, r))
  {
    var d, init := top.defers[|top.defers| - 1], top.defers[..|top.defers| - 1];
    assert top.defers == init + [d];
    ExecDeferred(g, below, top, init, d, observed, r);
    PendingCall(below, top, top.(code := [], defers := init), d, Frame(Body(d), [], true, g.panic, None));
    LastOut(g.ran, d);
  }

  // A step that leaves the frame's deferred calls alone.
  lemma SameDefers(g: Goroutine, g': Goroutine, below: seq<Frame>, top: Frame, top': Frame)
    requires Accounted(g) && g.stack == below + [top] && g'.stack == below + [top']
    requires top'.defers == top.defers && g'.ran == g.ran && g'.registered == g.registered
    ensures Accounted(g')
  {
    PendingPut(below, top);
    PendingPut(below, top');
  }

  lemma DeferAccounts(g: Goroutine, g': Goroutine, below: seq<Frame>, top: Frame, top': Frame, d: Deferred)
    requires Accounted(g) && g.stack == below + [top] && g'.stack == below + [top']
    requires top'.defers == top.defers + [d] && g'.ran == g.ran && g'.registered == g.registered + multiset{d}
    ensures Accounted(g')
  {
    PendingPut(below, top);
    PendingPut(below, top');
  }

  lemma CallAccounts(g: Goroutine, g': Goroutine, below: seq<Frame>, top: Frame, top': Frame, call: Frame)
    requires Accounted(g) && g.stack == below + [top] && g'.stack == below + [top', call] && call.defers == []
    requires top'.defers == top.defers && g'.ran == g.ran && g'.registered == g.registered
    ensures Accounted(g')
  {
    PendingPut(below, top);
    PendingPut(below, top');
    PendingPut(below + [top'], call);
    assert below + [top', call] == below + [top'] + [call];
  }

  lemma HeadAccounts(g: Goroutine, observed: bool, r: Reply, below: seq<Frame>, top: Frame)
    requires Head(g).Some? && Accounted(g) && g.stack == below + [top]
    ensures Accounted(Exec(g, observed, r))
  {
    match top.code[0]
    case Defer(d) => AddAccounts(g, observed, r, below, top, d);
    case Guarded(n) => GuardAccounts(g, observed, r, below, top, n);
    case CheckThrottle => ThrottleKeeps(g, observed, r, below, top);
    case SelectToken => ThrottleKeeps(g, observed, r, below, top);
    case _ => OwnAccounts(g, observed, r, below, top);
  }

  lemma AddAccounts(g: Goroutine, observed: bool, r: Reply, below: seq<Frame>, top: Frame, d: Deferred)
    requires Head(g) == Some(Defer(d)) && Accounted(g) && g.stack == below + [top]
    ensures Accounted(Exec(g, observed, r))
  {
    var rest := top.(code := top.code[1..]);
    DeferAccounts(g, Exec(g, observed, r), below, top, rest.(defers := rest.defers + [d]), d);
  }

  lemma GuardAccounts(g: Goroutine, observed: bool, r: Reply, below: seq<Frame>, top: Frame, n: Note)
    requires Head(g) == Some(Guarded(n)) && Accounted(g) && g.stack == below + [top]
    ensures Accounted(Exec(g, observed, r))
  {
    var rest := top.(code := top.code[1..]);
    CallAccounts(g, Exec(g, observed, r), below, top, rest, Call(SafeObserve(Bound(n, top, g.err))));
  }

  // Instructions that neither register nor call.
  lemma OwnAccounts(g: Goroutine, observed: bool, r: Reply, below: seq<Frame>, top: Frame)
    requires Head(g).Some? && Accounted(g) && g.stack == below + [top]
    requires var i := top.code[0]; i.Tell? || i.Recover? || i.Repanic? || i.CallFn? || i.Do?
    ensures Accounted(Exec(g, observed, r))
  {
    var rest := top.(code := top.code[1..]);
    SameDefers(g, Exec(g, observed, r), below, top,
               if top.code[0].Recover? then rest.(caught := top.saved, saved := None) else rest);
  }

  lemma ThrottleKeeps(g: Goroutine, observed: bool, r: Reply, below: seq<Frame>, top: Frame)
    requires Head(g).Some? && Accounted(g) && g.stack == below + [top]
    requires top.code[0].CheckThrottle? || top.code[0].SelectToken?
    ensures Accounted(Exec(g, observed, r))
  {
    TopIs(g, below, top);
    var g' := ThrottleSays(g, below, top, observed, r);
    SameDefers(g, g', below, top, Top(g'));
  }
}
