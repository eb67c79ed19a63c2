// Observers whose panics never reach the operation they observe, and the fan-out to several.
module Observing {
  import opened Protocol

  // An Observer: it records what it is told and may panic at any callback.
  class Observer {
    const panicsAt: Callback -> bool
    var seen: seq<Callback>

    constructor (panicsAt: Callback -> bool)
      ensures seen == [] && this.panicsAt == panicsAt
    {
      this.panicsAt := panicsAt;
      seen := [];
    }

    method Observe(cb: Callback) returns (panicked: bool)
      modifies this
      ensures seen == old(seen) + [cb] && panicked == panicsAt(cb)
    {
      seen := seen + [cb];
      panicked := panicsAt(cb);
    }
  }

  // safeObserve. Its deferred recover runs whether or not the observer panics; `raised`:
  // whether a panic leaves safeObserve.
  method SafeObserve(o: Observer, cb: Callback) returns (raised: bool)
    modifies o
    ensures o.seen == old(o.seen) + [cb] && !raised
  {
    raised := o.Observe(cb);
    var recovered := raised;
    if recovered {
      raised := false;
    }
  }

  function Times(members: seq<Observer>, o: Observer): nat {
    if members == [] then 0
    else Times(members[..|members| - 1], o) + if members[|members| - 1] == o then 1 else 0
  }

  function Repeat(cb: Callback, n: nat): seq<Callback> {
    if n == 0 then [] else Repeat(cb, n - 1) + [cb]
  }

  // MultiObserver: every member is told, whichever members panic; a member listed
  // twice is told twice.
  method MultiObserve(members: seq<Observer>, cb: Callback)
    modifies members
    ensures forall o :: o in members ==> o.seen == old(o.seen) + Repeat(cb, Times(members, o))
  {
    for i := 0 to |members|
      invariant forall o :: o in members ==> o.seen == old(o.seen) + Repeat(cb, Times(members[..i], o))
    {
      var m := members[i];
      var _ := SafeObserve(m, cb);
      assert members[..i + 1] == members[..i] + [m];
    }
    assert members[..|members|] == members;
  }

  // Each of these callbacks, n times over.
  function Each(cbs: seq<Callback>, n: nat): seq<Callback> {
    if cbs == [] then [] else Each(cbs[..|cbs| - 1], n) + Repeat(cbs[|cbs| - 1], n)
  }

  // A run of callbacks through the fan-out: each member hears the whole run, in order,
  // every callback as often as the member is listed.
  method MultiObserveAll(members: seq<Observer>, cbs: seq<Callback>)
    modifies members
    ensures forall o :: o in members ==> o.seen == old(o.seen) + Each(cbs, Times(members, o))
  {
    for k := 0 to |cbs|
      invariant forall o :: o in members ==> o.seen == old(o.seen) + Each(cbs[..k], Times(members, o))
    {
      MultiObserve(members, cbs[k]);
      assert cbs[..k + 1][..k] == cbs[..k];
    }
    assert cbs[..|cbs|] == cbs;
  }

  // A member listed once hears exactly the run.
  lemma {:induction false} EachOnce(cbs: seq<Callback>)
    ensures Each(cbs, 1) == cbs
  {
    if cbs != [] {
      var init, last := cbs[..|cbs| - 1], cbs[|cbs| - 1];
      EachOnce(init);
      assert Repeat(last, 1) == [last];
      assert cbs == init + [last];
    }
  }

  lemma {:induction false} ListedOnce(members: seq<Observer>, o: Observer)
    requires forall i, j :: 0 <= i < j < |members| ==> members[i] != members[j]
    ensures Times(members, o) == if o in members then 1 else 0
  {
    if members != [] {
      var init, last := members[..|members| - 1], members[|members| - 1];
      ListedOnce(init, o);
      assert members == init + [last];
    }
  }
}
