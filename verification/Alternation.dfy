// For each name the delivered lifecycle callbacks strictly alternate:
// registered, removed, registered, and so on.
module Alternation {
  import opened Basics
  import opened Registry
  import opened Protocol
  import opened Callbacks
  import opened Histories

  function OfName(cbs: seq<Callback>, n: Name): seq<Callback> {
    if cbs == [] then []
    else OfName(cbs[..|cbs| - 1], n) + if cbs[|cbs| - 1].name == n then [cbs[|cbs| - 1]] else []
  }

  ghost predicate Alternates(cbs: seq<Callback>) {
    forall i :: 0 <= i < |cbs| ==> (if i % 2 == 0 then cbs[i].SourceRegistered? else cbs[i].SourceRemoved?)
  }

  lemma {:induction false} OfNameConcat(a: seq<Callback>, b: seq<Callback>, n: Name)
    ensures OfName(a + b, n) == OfName(a, n) + OfName(b, n)
  {
    if b == [] {
      assert a + b == a;
    } else {
      OfNameConcat(a, b[..|b| - 1], n);
      assert (a + b)[..|a + b| - 1] == a + b[..|b| - 1];
    }
  }

  // A batch removal reports each of its names once.
  lemma {:induction false} RemovalsOfName(order: seq<Name>, n: Name)
    requires forall i, j :: 0 <= i < j < |order| ==> order[i] != order[j]
    ensures OfName(Removals(order), n) == if n in order then [SourceRemoved(n)] else []
  {
    if order != [] {
      var init, last := order[..|order| - 1], order[|order| - 1];
      RemovalsOfName(init, n);
      assert Removals(order)[..|order| - 1] == Removals(init);
      assert order == init + [last];
    }
  }

  lemma ChangesOfName(r: Reg, ev: Event, n: Name)
    requires Legal(r, ev.op, ev.res)
    ensures OfName(Changes(ev.op, ev.res), n)
         == if Opens(ev, n) then [SourceRegistered(n)] else if Drops(ev, n) then [SourceRemoved(n)] else []
  {
    if ev.res.RemovedAll? {
      RemovalsOfName(ev.res.order, n);
    }
  }

  lemma AppendAlternates(a: seq<Callback>, cb: Callback)
    requires Alternates(a)
    requires if |a| % 2 == 0 then cb.SourceRegistered? else cb.SourceRemoved?
    ensures Alternates(a + [cb])
  {
  }

  // The mutation log alternates, and ends with a registration exactly while the name is present.
  lemma {:induction false} MutationsAlternate(h: History, n: Name)
    requires LegalHistory(h)
    ensures Alternates(OfName(Mutations(h), n))
    ensures |OfName(Mutations(h), n)| % 2 == if n in Replay(h).entries then 1 else 0
  {
    if h != [] {
      var init, ev := h[..|h| - 1], h[|h| - 1];
      MutationsAlternate(init, n);
      var a := OfName(Mutations(init), n);
      OfNameConcat(Mutations(init), Changes(ev.op, ev.res), n);
      ChangesOfName(Replay(init), ev, n);
      PresenceStep(Replay(init), ev, n);
      assert Mutations(h) == Mutations(init) + Changes(ev.op, ev.res);
      assert Replay(h) == After(Replay(init), ev.op, ev.res);
      MoreOfName(a, ev, n, OfName(Mutations(h), n), n in Replay(init).entries, n in Replay(h).entries);
    }
  }

  lemma MoreOfName(a: seq<Callback>, ev: Event, n: Name, b: seq<Callback>, was: bool, now: bool)
    requires Alternates(a) && |a| % 2 == if was then 1 else 0
    requires b == a + if Opens(ev, n) then [SourceRegistered(n)] else if Drops(ev, n) then [SourceRemoved(n)] else []
    requires if Opens(ev, n) then !was && now else if Drops(ev, n) then was && !now else now == was
    ensures Alternates(b) && |b| % 2 == if now then 1 else 0
  {
    if Opens(ev, n) {
      AppendAlternates(a, SourceRegistered(n));
    } else if Drops(ev, n) {
      AppendAlternates(a, SourceRemoved(n));
    } else {
      assert b == a;
    }
  }

  lemma PrefixAlternates(a: seq<Callback>, b: seq<Callback>, n: Name)
    requires Alternates(OfName(a + b, n))
    ensures Alternates(OfName(a, n))
  {
    OfNameConcat(a, b, n);
    forall i | 0 <= i < |OfName(a, n)|
      ensures if i % 2 == 0 then OfName(a, n)[i].SourceRegistered? else OfName(a, n)[i].SourceRemoved?
    {
      assert OfName(a, n)[i] == OfName(a + b, n)[i];
    }
  }

  // Registrations minus removals.
  function Net(cbs: seq<Callback>): int {
    if cbs == [] then 0
    else Net(cbs[..|cbs| - 1]) + match cbs[|cbs| - 1]
                                 case SourceRegistered(_) => 1
                                 case SourceRemoved(_) => -1
                                 case _ => 0
  }

  lemma {:induction false} NetConcat(a: seq<Callback>, b: seq<Callback>)
    ensures Net(a + b) == Net(a) + Net(b)
  {
    if b == [] {
      assert a + b == a;
    } else {
      NetConcat(a, b[..|b| - 1]);
      assert (a + b)[..|a + b| - 1] == a + b[..|b| - 1];
    }
  }

  lemma {:induction false} NetRemovals(order: seq<Name>)
    ensures Net(Removals(order)) == -|order|
  {
    if order != [] {
      var init := order[..|order| - 1];
      NetRemovals(init);
      assert Removals(order)[..|order| - 1] == Removals(init);
    }
  }

  lemma {:induction false} EnumerationSize(order: seq<Name>, names: set<Name>)
    requires Enumerates(order, names)
    ensures |order| == |names|
  {
    if order != [] {
      var init, last := order[..|order| - 1], order[|order| - 1];
      assert order == init + [last];
      EnumerationSize(init, names - {last});
    } else {
      assert names == {};
    }
  }

  lemma NetStep(r: Reg, ev: Event)
    requires Legal(r, ev.op, ev.res)
    ensures Net(Changes(ev.op, ev.res)) == |After(r, ev.op, ev.res).entries| - |r.entries|
  {
    match ev.res
    case RemovedAll(_, order) =>
      NetRemovals(order);
      EnumerationSize(order, r.entries.Keys);
      assert |r.entries.Keys| == |r.entries|;
    case Removed(_) => RemoveSize(r.entries, ev.op.name);
    case Registered(e) => AddSize(r.entries, ev.op.name, e);
    case _ =>
  }

  lemma AddSize(m: map<Name, EntryId>, n: Name, e: EntryId)
    requires n !in m
    ensures |m[n := e]| == |m| + 1
  {
    assert m[n := e].Keys == m.Keys + {n};
    assert |m[n := e].Keys| == |m[n := e]| && |m.Keys| == |m|;
  }

  // Registrations minus removals in the mutation log is the number of sources.
  lemma {:induction false} NetIsSize(h: History)
    requires LegalHistory(h)
    ensures Net(Mutations(h)) == |Replay(h).entries|
  {
    if h != [] {
      var init, ev := h[..|h| - 1], h[|h| - 1];
      NetIsSize(init);
      NetStep(Replay(init), ev);
      NetConcat(Mutations(init), Changes(ev.op, ev.res));
      assert Replay(h) == After(Replay(init), ev.op, ev.res);
    }
  }

  lemma RemoveSize(m: map<Name, EntryId>, n: Name)
    requires n in m
    ensures |m - {n}| == |m| - 1
  {
    assert (m - {n}).Keys == m.Keys - {n};
    assert |(m - {n}).Keys| == |m - {n}| && |m.Keys| == |m|;
  }
}
