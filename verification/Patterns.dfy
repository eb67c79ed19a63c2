// Which callbacks panic makes no difference to anything that goroutines share: locks,
// counters, tokens, the registry, clients, results and the callbacks made.
module Patterns {
  import opened Basics
  import opened Protocol
  import opened Frames
  import opened Positions
  import opened Deliveries
  import opened Unwinding
  import opened Unwound
  import opened Recovery

  // A position but for whether the last callback panicked.
  function CalmSafe(sa: SafeAt): SafeAt {
    match sa
    case SafeTold(_) => SafeTold(false)
    case SafeCatching(_) => SafeCatching(false)
    case SafeCaught(_) => SafeCaught(false)
    case _ => sa
  }

  function CalmSpot(at: Spot): Spot {
    match at
    case RefusalTold(sa) => RefusalTold(CalmSafe(sa))
    case GrantTold(sa) => GrantTold(CalmSafe(sa))
    case CompleteTold(out, sa) => CompleteTold(out, CalmSafe(sa))
    case _ => at
  }

  function CalmStop(at: Stop): Stop {
    match at
    case TellIn(cb, es, sa) => TellIn(cb, es, CalmSafe(sa))
    case _ => at
  }

  function CalmWhere(w: Where): Where {
    match w
    case RunAt(at) => RunAt(CalmSpot(at))
    case TellAt(stop) => TellAt(CalmStop(stop))
  }

  function Calmed(w: Option<Where>): Option<Where> { if w.Some? then Some(CalmWhere(w.value)) else None }

  // The reply a goroutine gets when it is this callback's turn to panic, or not.
  function Instead(i: Option<Instr>, r: Reply, raise: bool): Reply {
    match i
    case Some(Tell(_)) => if raise then Raise else Calm
    case _ => r
  }

  lemma SameHead(observed: bool, w: Where, w2: Where)
    requires CalmWhere(w) == CalmWhere(w2)
    ensures WhereHead(observed, w) == WhereHead(observed, w2)
  {
  }

  lemma TouchInstead(s: State, t: CallId, th: Thread, i: Option<Instr>, job: Job, r: Reply, s': State, raise: bool)
    requires Touches(s, t, th, i, job, r, s')
    ensures Touches(s, t, th, i, job, Instead(i, r, raise), s')
  {
  }

  lemma SpotInstead(observed: bool, at: Spot, at2: Spot, r: Reply, raise: bool)
    requires CalmSpot(at) == CalmSpot(at2)
    ensures var r2 := Instead(HeadAt(observed, at), r, raise);
      var next, next2 := NextSpot(observed, at, r), NextSpot(observed, at2, r2);
      next.Some? == next2.Some? && (next.Some? ==> CalmSpot(next.value) == CalmSpot(next2.value))
  {
  }

  lemma StopInstead(todo: Next, at: Stop, at2: Stop, r: Reply, raise: bool)
    requires CalmStop(at) == CalmStop(at2)
    ensures var r2 := Instead(StopHead(at), r, raise);
      var next, next2 := NextStop(todo, at, r), NextStop(todo, at2, r2);
      next.Some? == next2.Some? && (next.Some? ==> CalmStop(next.value) == CalmStop(next2.value))
  {
  }

  lemma NextInstead(observed: bool, job: Job, w: Where, w2: Where, r: Reply, raise: bool)
    requires CalmWhere(w) == CalmWhere(w2)
    ensures Calmed(NextWhere(observed, job, w, r)) ==
      Calmed(NextWhere(observed, job, w2, Instead(WhereHead(observed, w), r, raise)))
  {
    match w
    case RunAt(at) => SpotInstead(observed, at, w2.at, r, raise);
    case TellAt(stop) => if job.InNotify? { StopInstead(job.next, stop, w2.stop, r, raise); }
  }

  // What every goroutine is doing is the same.
  ghost predicate Alike(gs: map<CallId, Goroutine>, ws: map<CallId, Where>,
                        gs2: map<CallId, Goroutine>, ws2: map<CallId, Where>) {
    && gs2.Keys == gs.Keys && ws.Keys == gs.Keys && ws2.Keys == gs.Keys
    && forall t :: t in gs ==> gs2[t].job == gs[t].job && CalmWhere(ws2[t]) == CalmWhere(ws[t])
  }

  // The same in all but which of the callbacks made have panicked.
  ghost predicate Twins(f: Fine, ws: map<CallId, Where>, f2: Fine, ws2: map<CallId, Where>) {
    f2.s == f.s && Stood(f, ws) && Stood(f2, ws2) && Alike(f.gs, ws, f2.gs, ws2)
  }

  // A goroutine that makes a callback panics exactly when told to.
  ghost predicate Obeys(f: Fine, f': Fine, raise: bool) {
    forall t :: t in f.gs && t in f'.gs && f'.gs[t] != f.gs[t] && Head(f.gs[t]).Some? && Head(f.gs[t]).value.Tell? ==>
      (f'.gs[t].panic == if raise then Some(FromObserver) else None)
  }

  // Positions after a step of the rest of the system, which may have begun a goroutine.
  function Begun(f: Fine, ws: map<CallId, Where>, t: CallId, f': Fine): map<CallId, Where> {
    if f'.gs == f.gs || t !in f'.s.threads then ws else ws[t := StartsAt(f'.s.threads[t].pc)]
  }

  lemma PlainStood(f: Fine, ws: map<CallId, Where>, t: CallId, a: Action, f': Fine)
    requires Stood(f, ws) && Plainly(f, t, a, f')
    ensures Stood(f', Begun(f, ws, t, f'))
  {
    if f'.gs == f.gs {
      PlainKeeps(f, ws, t, a, f');
    } else {
      PlainSpawns(f, ws, t, a, f');
    }
  }

  // What a step of the rest of the system begins does not depend on the goroutines there are.
  lemma SpawnedAlike(gs: map<CallId, Goroutine>, gs2: map<CallId, Goroutine>, t: CallId, a: Action, s': State)
    requires gs.Keys == gs2.Keys
    ensures var was, now, was2, now2 := gs, Spawned(gs, t, a, s'), gs2, Spawned(gs2, t, a, s');
      || (now == was && now2 == was2)
      || (t !in was && t in now && now == was[t := now[t]] && now2 == was2[t := now[t]])
  {
  }

  lemma AlikeMore(gs: map<CallId, Goroutine>, ws: map<CallId, Where>, gs2: map<CallId, Goroutine>,
                  ws2: map<CallId, Where>, t: CallId, g: Goroutine, w: Where, g2: Goroutine, w2: Where)
    requires Alike(gs, ws, gs2, ws2) && g2.job == g.job && CalmWhere(w2) == CalmWhere(w)
    ensures Alike(gs[t := g], ws[t := w], gs2[t := g2], ws2[t := w2])
  {
  }

  lemma AlikeLess(gs: map<CallId, Goroutine>, ws: map<CallId, Where>, gs2: map<CallId, Goroutine>,
                  ws2: map<CallId, Where>, t: CallId)
    requires Alike(gs, ws, gs2, ws2)
    ensures Alike(gs - {t}, ws - {t}, gs2 - {t}, ws2 - {t})
  {
  }

  lemma PlainTwins(f: Fine, ws: map<CallId, Where>, f2: Fine, ws2: map<CallId, Where>, t: CallId, a: Action, f': Fine,
                   raise: bool) returns (ws': map<CallId, Where>, f2': Fine, ws2': map<CallId, Where>)
    requires Twins(f, ws, f2, ws2) && Plainly(f, t, a, f')
    ensures FineStep(f2, f2') && Twins(f', ws', f2', ws2') && Obeys(f2, f2', raise)
  {
    f2' := Fine(f'.s, Spawned(f2.gs, t, a, f'.s));
    assert Plainly(f2, t, a, f2');
    PlainStood(f, ws, t, a, f');
    PlainStood(f2, ws2, t, a, f2');
    ws', ws2' := Begun(f, ws, t, f'), Begun(f2, ws2, t, f2');
    PlainAlike(f, ws, f2, ws2, t, a, f', f2');
  }

  lemma PlainAlike(f: Fine, ws: map<CallId, Where>, f2: Fine, ws2: map<CallId, Where>, t: CallId, a: Action, f': Fine,
                   f2': Fine)
    requires Alike(f.gs, ws, f2.gs, ws2) && f2'.s == f'.s
    requires f'.gs == Spawned(f.gs, t, a, f'.s) && f2'.gs == Spawned(f2.gs, t, a, f'.s)
    ensures Alike(f'.gs, Begun(f, ws, t, f'), f2'.gs, Begun(f2, ws2, t, f2'))
    ensures forall u :: u in f2.gs ==> u in f2'.gs && f2'.gs[u] == f2.gs[u]
  {
    SpawnedAlike(f.gs, f2.gs, t, a, f'.s);
    if f'.gs != f.gs {
      var g, w := f'.gs[t], StartsAt(f'.s.threads[t].pc);
      assert t in f2'.gs && t !in f2.gs;
      AlikeMore(f.gs, ws, f2.gs, ws2, t, g, w, g, w);
    }
  }

  lemma SameLabel(job: Job, w: Where, w2: Where)
    requires CalmWhere(w) == CalmWhere(w2)
    ensures Label(job, w) == Label(job, w2)
  {
  }

  // When a goroutine is at its end, and what its call goes on with.
  lemma EndsWhen(g: Goroutine, observed: bool, w: Where, r: Reply)
    requires g.stack != [] && Stands(observed, g, w) && Replies(observed, w, r)
    ensures var g', next := Exec(g, observed, r), NextWhere(observed, g.job, w, r);
      && g'.job == g.job && (next.None? <==> g'.stack == [])
      && (next.None? ==> Final(g') == Label(g.job, w))
  {
    match w
    case RunAt(at) =>
      if NextSpot(observed, at, r).Some? { RunStands(g, observed, at, r); } else { RunEnds(g, observed, at, r); }
    case TellAt(at) =>
      if NextStop(g.job.next, at, r).Some? { TellStands(g, observed, at, r); } else { TellEnds(g, observed, at, r); }
  }

  lemma MarchedOn(f: Fine, ws: map<CallId, Where>, f2: Fine, ws2: map<CallId, Where>, t: CallId, r: Reply, f': Fine,
                  r2: Reply, w: Where, w2: Where)
    requires Twins(f, ws, f2, ws2) && Goes(f, t, r, f') && t in f2.gs && f2.gs[t].stack != []
    requires CalmWhere(w) == CalmWhere(w2)
    requires var g, g2 := Exec(f.gs[t], f.s.observed, r), Exec(f2.gs[t], f.s.observed, r2);
      g.stack != [] && g2.stack != [] && g2.job == g.job
    ensures var f2' := Marched(f2, t, r2, Data(f, f'));
      f2'.s == f'.s && Alike(f'.gs, ws[t := w], f2'.gs, ws2[t := w2])
  {
    AlikeMore(f.gs, ws, f2.gs, ws2, t, Exec(f.gs[t], f.s.observed, r), w, Exec(f2.gs[t], f.s.observed, r2), w2);
  }

  lemma MarchedOut(f: Fine, ws: map<CallId, Where>, f2: Fine, ws2: map<CallId, Where>, t: CallId, r: Reply, f': Fine,
                   r2: Reply)
    requires Twins(f, ws, f2, ws2) && Goes(f, t, r, f') && t in f2.gs && f2.gs[t].stack != []
    requires var g, g2 := Exec(f.gs[t], f.s.observed, r), Exec(f2.gs[t], f.s.observed, r2);
      g.stack == [] && g2.stack == [] && Final(g2) == Final(g)
    ensures var f2' := Marched(f2, t, r2, Data(f, f'));
      f2'.s == f'.s && Alike(f'.gs, ws - {t}, f2'.gs, ws2 - {t})
  {
    AlikeLess(f.gs, ws, f2.gs, ws2, t);
  }

  // The same step with another reply, in a state that differs only in which callbacks have panicked.
  lemma MarchedAlike(f: Fine, ws: map<CallId, Where>, f2: Fine, ws2: map<CallId, Where>, t: CallId, r: Reply, f': Fine,
                     r2: Reply, next: Option<Where>, next2: Option<Where>)
    requires Twins(f, ws, f2, ws2) && Goes(f, t, r, f') && t in f2.gs && f2.gs[t].stack != []
    requires Calmed(next) == Calmed(next2)
    requires var g, g2 := Exec(f.gs[t], f.s.observed, r), Exec(f2.gs[t], f.s.observed, r2);
      && g2.job == g.job && (next.None? <==> g.stack == []) && (next2.None? <==> g2.stack == [])
      && (next.None? ==> Final(g2) == Final(g))
    ensures var f2' := Marched(f2, t, r2, Data(f, f'));
      f2'.s == f'.s && Alike(f'.gs, Marks(ws, t, next), f2'.gs, Marks(ws2, t, next2))
  {
    if next.Some? {
      MarchedOn(f, ws, f2, ws2, t, r, f', r2, next.value, next2.value);
    } else {
      MarchedOut(f, ws, f2, ws2, t, r, f', r2);
    }
  }

  lemma EndsAlike(f: Fine, ws: map<CallId, Where>, f2: Fine, ws2: map<CallId, Where>, t: CallId, r: Reply, r2: Reply)
    requires Twins(f, ws, f2, ws2) && t in f.gs && f.gs[t].stack != [] && f2.gs[t].stack != []
    requires Replies(f.s.observed, ws[t], r) && Replies(f.s.observed, ws2[t], r2)
    ensures var next := NextWhere(f.s.observed, f.gs[t].job, ws[t], r);
      var next2 := NextWhere(f.s.observed, f2.gs[t].job, ws2[t], r2);
      var g, g2 := Exec(f.gs[t], f.s.observed, r), Exec(f2.gs[t], f.s.observed, r2);
      && g2.job == g.job && (next.None? <==> g.stack == []) && (next2.None? <==> g2.stack == [])
      && (next.None? && next2.None? ==> Final(g2) == Final(g))
  {
    EndsWhen(f.gs[t], f.s.observed, ws[t], r);
    EndsWhen(f2.gs[t], f.s.observed, ws2[t], r2);
    SameLabel(f.gs[t].job, ws[t], ws2[t]);
  }

  lemma GoesTwins(f: Fine, ws: map<CallId, Where>, f2: Fine, ws2: map<CallId, Where>, t: CallId, r: Reply, f': Fine,
                  raise: bool) returns (ws': map<CallId, Where>, f2': Fine, ws2': map<CallId, Where>)
    requires Twins(f, ws, f2, ws2) && Goes(f, t, r, f')
    ensures FineStep(f2, f2') && Twins(f', ws', f2', ws2') && Obeys(f2, f2', raise)
  {
    var head, data := WhereHead(f.s.observed, ws[t]), Data(f, f');
    var r2 := Instead(head, r, raise);
    Marches(f, ws, t, r, f');
    SameHead(f.s.observed, ws[t], ws2[t]);
    TouchInstead(f.s, t, f.s.threads[t], head, f.gs[t].job, r, data, raise);
    StandsSomewhere(f2, ws2, t);
    CanMarch(f2, ws2, t, r2, data);
    f2' := Marched(f2, t, r2, data);
    Marches(f2, ws2, t, r2, f2');
    NextInstead(f.s.observed, f.gs[t].job, ws[t], ws2[t], r, raise);
    EndsAlike(f, ws, f2, ws2, t, r, r2);
    MarchedAlike(f, ws, f2, ws2, t, r, f', r2, NextWhere(f.s.observed, f.gs[t].job, ws[t], r),
                 NextWhere(f.s.observed, f2.gs[t].job, ws2[t], r2));
    ws', ws2' := Onward(f, ws, t, r), Onward(f2, ws2, t, r2);
    GoesObeys(f2, ws2, t, r, data, raise);
  }

  lemma GoesObeys(f: Fine, ws: map<CallId, Where>, t: CallId, r: Reply, data: State, raise: bool)
    requires Stood(f, ws) && t in f.gs && t in ws && t in f.s.threads && f.gs[t].stack != []
    ensures Obeys(f, Marched(f, t, Instead(WhereHead(f.s.observed, ws[t]), r, raise), data), raise)
  {
    StandsSomewhere(f, ws, t);
  }

  // Callbacks panic by the number of the step that makes them.
  ghost predicate Pattern(fr: seq<Fine>, raises: nat -> bool) {
    forall i, j :: 0 <= i < j < |fr| && j == i + 1 ==> Obeys(fr[i], fr[j], raises(i))
  }

  lemma PatternMore(fr: seq<Fine>, f: Fine, raises: nat -> bool)
    requires |fr| > 0 && Pattern(fr, raises) && Obeys(fr[|fr| - 1], f, raises(|fr| - 1))
    ensures Pattern(fr + [f], raises)
  {
    var more := fr + [f];
    forall i, j | 0 <= i < j < |more| && j == i + 1 ensures Obeys(more[i], more[j], raises(i)) {
      if j < |fr| {
        assert Obeys(fr[i], fr[j], raises(i));
      }
    }
  }

  // The same shared states, and goroutines of the same calls.
  ghost predicate Abreast(fr: seq<Fine>, fr2: seq<Fine>) {
    |fr2| == |fr| && forall i :: 0 <= i < |fr| ==> fr2[i].s == fr[i].s && fr2[i].gs.Keys == fr[i].gs.Keys
  }

  lemma AbreastMore(fr: seq<Fine>, fr2: seq<Fine>, f: Fine, f2: Fine)
    requires Abreast(fr, fr2) && f2.s == f.s && f2.gs.Keys == f.gs.Keys
    ensures Abreast(fr + [f], fr2 + [f2])
  {
    var more, more2 := fr + [f], fr2 + [f2];
    forall i | 0 <= i < |more| ensures more2[i].s == more[i].s && more2[i].gs.Keys == more[i].gs.Keys {
      if i < |fr| {
        assert more[i] == fr[i] && more2[i] == fr2[i];
      }
    }
  }

  // The same run but for which callbacks panic, up to goroutines at ws and ws2.
  ghost predicate Twinned(fr: seq<Fine>, fr2: seq<Fine>, raises: nat -> bool,
                          ws: map<CallId, Where>, ws2: map<CallId, Where>) {
    && |fr2| == |fr| > 0 && Twins(fr[|fr| - 1], ws, fr2[|fr2| - 1], ws2)
    && FineRun(fr2) && Pattern(fr2, raises) && Abreast(fr, fr2)
  }

  lemma FineMore(fr: seq<Fine>, f: Fine)
    requires FineRun(fr) && FineStep(fr[|fr| - 1], f)
    ensures FineRun(fr + [f])
  {
  }

  lemma TwinsMore(fr: seq<Fine>, fr2: seq<Fine>, raises: nat -> bool, ws: map<CallId, Where>, ws2: map<CallId, Where>,
                  f: Fine, f2: Fine, ws': map<CallId, Where>, ws2': map<CallId, Where>)
    requires Twinned(fr, fr2, raises, ws, ws2) && FineStep(fr2[|fr2| - 1], f2) && Twins(f, ws', f2, ws2')
    requires Obeys(fr2[|fr2| - 1], f2, raises(|fr2| - 1))
    ensures Twinned(fr + [f], fr2 + [f2], raises, ws', ws2')
  {
    FineMore(fr2, f2);
    PatternMore(fr2, f2, raises);
    AbreastMore(fr, fr2, f, f2);
  }

  lemma StepTwins(f: Fine, ws: map<CallId, Where>, f2: Fine, ws2: map<CallId, Where>, f': Fine, raise: bool)
      returns (ws': map<CallId, Where>, f2': Fine, ws2': map<CallId, Where>)
    requires Twins(f, ws, f2, ws2) && FineStep(f, f')
    ensures FineStep(f2, f2') && Twins(f', ws', f2', ws2') && Obeys(f2, f2', raise)
  {
    if t, a :| Plainly(f, t, a, f') {
      ws', f2', ws2' := PlainTwins(f, ws, f2, ws2, t, a, f', raise);
    } else {
      var t, r :| Goes(f, t, r, f');
      ws', f2', ws2' := GoesTwins(f, ws, f2, ws2, t, r, f', raise);
    }
  }

  lemma {:induction false} TwinRun(fr: seq<Fine>, raises: nat -> bool)
      returns (fr2: seq<Fine>, ws: map<CallId, Where>, ws2: map<CallId, Where>)
    requires FineRun(fr)
    ensures Twinned(fr, fr2, raises, ws, ws2)
    decreases |fr|
  {
    var k := |fr| - 1;
    if k == 0 {
      fr2, ws, ws2 := fr, map[], map[];
    } else {
      var init, was, was2 := TwinRun(fr[..k], raises);
      var f2;
      ws, f2, ws2 := StepTwins(fr[k - 1], was, init[k - 1], was2, fr[k], raises(k - 1));
      fr2 := init + [f2];
      TwinsMore(fr[..k], init, raises, was, was2, fr[k], f2, ws, ws2);
      assert fr[..k] + [fr[k]] == fr;
    }
  }

  // Whichever callbacks panic in a run: had others panicked, there would be a run with
  // the same states, step for step, and at its end every goroutine where it is in this one.
  lemma PanicsDoNotMatter(fr: seq<Fine>, raises: nat -> bool)
      returns (fr2: seq<Fine>, ws: map<CallId, Where>, ws2: map<CallId, Where>)
    requires FineRun(fr)
    ensures FineRun(fr2) && Pattern(fr2, raises) && Abreast(fr, fr2)
    ensures Twins(fr[|fr| - 1], ws, fr2[|fr2| - 1], ws2)
  {
    fr2, ws, ws2 := TwinRun(fr, raises);
  }
}
