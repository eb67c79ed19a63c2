// What holds for every legal history of the atomic registry.
module Histories {
  import opened Basics
  import opened Registry

  // Consequences of legality for the registry reached.
  ghost predicate Sound(r: Reg) {
    && (r.closed ==> r.entries == map[])
    && (forall n :: n in r.entries ==> r.entries[n] in r.issued)
    && (forall m, n :: m in r.entries && n in r.entries && r.entries[m] == r.entries[n] ==> m == n)
  }

  lemma {:induction false} LegalSound(h: History)
    requires LegalHistory(h)
    ensures Sound(Replay(h))
  {
    if h != [] {
      LegalSound(h[..|h| - 1]);
    }
  }

  // One more operation: closed stays closed, and an identity gone from the map never returns.
  lemma AfterKeeps(r: Reg, op: Op, res: Result)
    requires Sound(r) && Legal(r, op, res)
    ensures r.closed ==> After(r, op, res).closed
    ensures r.issued <= After(r, op, res).issued
    ensures forall e :: e in r.issued && e !in r.entries.Values ==> e !in After(r, op, res).entries.Values
  {
  }

  lemma {:induction false} PrefixLegal(h: History, i: nat)
    requires LegalHistory(h) && i <= |h|
    ensures LegalHistory(h[..i])
    ensures i < |h| ==> Legal(Replay(h[..i]), h[i].op, h[i].res)
    ensures i < |h| ==> Replay(h[..i + 1]) == After(Replay(h[..i]), h[i].op, h[i].res)
  {
    if i == |h| {
      assert h[..i] == h;
    } else if i == |h| - 1 {
      assert h[..i + 1] == h;
    } else {
      var init := h[..|h| - 1];
      PrefixLegal(init, i);
      assert init[..i] == h[..i];
      assert init[..i + 1] == h[..i + 1];
    }
  }

  lemma {:induction false} GoneForGood(h: History, i: nat, j: nat)
    requires LegalHistory(h) && i <= j <= |h|
    ensures Replay(h[..i]).closed ==> Replay(h[..j]).closed
    ensures Replay(h[..i]).issued <= Replay(h[..j]).issued
    ensures forall e :: e in Replay(h[..i]).issued && e !in Replay(h[..i]).entries.Values
                     ==> e !in Replay(h[..j]).entries.Values
    decreases j
  {
    if i < j {
      GoneForGood(h, i, j - 1);
      PrefixLegal(h, j - 1);
      LegalSound(h[..j - 1]);
      AfterKeeps(Replay(h[..j - 1]), h[j - 1].op, h[j - 1].res);
    }
  }

  // Terminal close: nothing registers after a RemoveAll.
  lemma ClosedIsTerminal(h: History, i: nat, j: nat)
    requires LegalHistory(h) && i < j < |h| && h[i].res.RemovedAll?
    ensures !h[j].res.Registered? && Replay(h[..j]).entries == map[]
    ensures h[j].op.Register? && h[j].op.name != "" ==> h[j].res == Closed || h[j].res == OpenFailed
  {
    PrefixLegal(h, i);
    PrefixLegal(h, j);
    GoneForGood(h, i + 1, j);
    LegalSound(h[..j]);
  }

  predicate Outs(ev: Event, e: EntryId) {
    match ev.res
    case Removed(x) => x == e
    case RemovedAll(batch, _) => e in batch
    case _ => false
  }

  // Source identity: once an entry has left the map no Run is admitted to it
  // again, whatever has been registered under its name since.
  lemma RemovedNeverAdmits(h: History, i: nat, j: nat, e: EntryId)
    requires LegalHistory(h) && i < j < |h| && Outs(h[i], e)
    ensures h[j].res != Admitted(e) && h[j].res != Registered(e)
    ensures h[j].op.AcquireSource? && h[j].op.entry == Some(e) ==> h[j].res == NotFound
  {
    PrefixLegal(h, i);
    LegalSound(h[..i]);
    PrefixLegal(h, j);
    var r := Replay(h[..i]);
    assert e in r.issued && e !in Replay(h[..i + 1]).entries.Values by {
      if h[i].res.Removed? {
        assert e == r.entries[h[i].op.name];
      }
    }
    GoneForGood(h, i + 1, j);
    LegalSound(h[..j]);
  }

  predicate Opens(ev: Event, n: Name) { ev.op.Register? && ev.op.name == n && ev.res.Registered? }

  predicate Drops(ev: Event, n: Name) {
    (ev.res.Removed? && ev.op.Remove? && ev.op.name == n) || (ev.res.RemovedAll? && n in ev.res.order)
  }

  function OpenCount(h: History, n: Name): nat {
    if h == [] then 0 else OpenCount(h[..|h| - 1], n) + if Opens(h[|h| - 1], n) then 1 else 0
  }

  function DropCount(h: History, n: Name): nat {
    if h == [] then 0 else DropCount(h[..|h| - 1], n) + if Drops(h[|h| - 1], n) then 1 else 0
  }

  lemma PresenceStep(r: Reg, ev: Event, n: Name)
    requires Legal(r, ev.op, ev.res)
    ensures Opens(ev, n) ==> n !in r.entries && n in After(r, ev.op, ev.res).entries
    ensures Drops(ev, n) ==> n !in After(r, ev.op, ev.res).entries && n in r.entries
    ensures !Opens(ev, n) && !Drops(ev, n) ==> (n in After(r, ev.op, ev.res).entries <==> n in r.entries)
  {
  }

  // No double open: registrations of a name minus its removals is 1 while it is present, else 0.
  lemma {:induction false} OpenBalance(h: History, n: Name)
    requires LegalHistory(h)
    ensures OpenCount(h, n) - DropCount(h, n) == if n in Replay(h).entries then 1 else 0
  {
    if h != [] {
      OpenBalance(h[..|h| - 1], n);
      PresenceStep(Replay(h[..|h| - 1]), h[|h| - 1], n);
    }
  }

  // How often a name was opened among h[i..j].
  function OpensBetween(h: History, i: nat, j: nat, n: Name): nat
    requires i <= j <= |h|
    decreases j
  {
    if i == j then 0 else OpensBetween(h, i, j - 1, n) + if Opens(h[j - 1], n) then 1 else 0
  }

  lemma {:induction false} Stays(h: History, i: nat, j: nat, n: Name)
    requires LegalHistory(h) && i <= j <= |h|
    requires forall k :: i <= k < j ==> !Drops(h[k], n)
    requires n !in Replay(h[..i]).entries
    ensures OpensBetween(h, i, j, n) == if n in Replay(h[..j]).entries then 1 else 0
    decreases j
  {
    if i < j {
      Stays(h, i, j - 1, n);
      PrefixLegal(h, j - 1);
      PresenceStep(Replay(h[..j - 1]), h[j - 1], n);
    }
  }

  lemma {:induction false} StaysPresent(h: History, i: nat, j: nat, n: Name)
    requires LegalHistory(h) && i <= j <= |h| && n in Replay(h[..i]).entries
    requires forall k :: i <= k < j ==> !Drops(h[k], n)
    ensures n in Replay(h[..j]).entries
    decreases j
  {
    if i < j {
      StaysPresent(h, i, j - 1, n);
      PrefixLegal(h, j - 1);
      PresenceStep(Replay(h[..j - 1]), h[j - 1], n);
    }
  }

  // Overlapping registers of an absent name, none removed meanwhile: exactly one
  // succeeds as soon as one of them got past its driver's Open.
  lemma ExactlyOneOpens(h: History, i: nat, j: nat, k: nat, n: Name)
    requires LegalHistory(h) && i <= k < j <= |h| && n !in Replay(h[..i]).entries
    requires forall l :: i <= l < j ==> !Drops(h[l], n)
    requires h[k].op.Register? && h[k].op.name == n && (h[k].res.Registered? || h[k].res.AlreadyRegistered?)
    ensures OpensBetween(h, i, j, n) == 1
  {
    PrefixLegal(h, k);
    StaysPresent(h, k + 1, j, n);
    Stays(h, i, j, n);
  }

  lemma {:induction false} StaysAbsent(h: History, i: nat, j: nat, n: Name)
    requires LegalHistory(h) && i <= j <= |h| && n !in Replay(h[..i]).entries
    requires forall k :: i <= k < j ==> !Opens(h[k], n)
    ensures n !in Replay(h[..j]).entries
    decreases j
  {
    if i < j {
      StaysAbsent(h, i, j - 1, n);
      PrefixLegal(h, j - 1);
      PresenceStep(Replay(h[..j - 1]), h[j - 1], n);
    }
  }

  // Safe removal: after a name is removed no Run of it is admitted until it is registered again.
  lemma SafeRemoval(h: History, i: nat, j: nat, n: Name)
    requires LegalHistory(h) && i < j < |h| && Drops(h[i], n)
    requires forall k :: i < k < j ==> !Opens(h[k], n)
    ensures h[j].op == Acquire(n) ==> h[j].res == NotFound
    ensures h[j].op.AcquireSource? && h[j].op.name == n ==> h[j].res == NotFound
  {
    PrefixLegal(h, i);
    PresenceStep(Replay(h[..i]), h[i], n);
    StaysAbsent(h, i + 1, j, n);
    PrefixLegal(h, j);
  }

  // The last register of a name that is in the map published the entry behind it.
  lemma {:induction false} LatestRegister(h: History, n: Name) returns (i: nat)
    requires LegalHistory(h) && n in Replay(h).entries
    ensures i < |h| && Opens(h[i], n) && h[i].res.entry == Replay(h).entries[n]
    ensures forall k :: i < k < |h| ==> !Opens(h[k], n) && !Drops(h[k], n)
  {
    var init, last := h[..|h| - 1], h[|h| - 1];
    PresenceStep(Replay(init), last, n);
    if Opens(last, n) {
      i := |h| - 1;
    } else {
      i := LatestRegister(init, n);
    }
  }

  // Visibility: a Run by name is admitted to the entry of the latest successful
  // register of that name, and only while it has not been removed since.
  lemma Visibility(h: History, j: nat, n: Name) returns (i: nat)
    requires LegalHistory(h) && j < |h| && h[j].op == Acquire(n) && h[j].res.Admitted?
    ensures i < j && Opens(h[i], n) && h[i].res.entry == h[j].res.entry
    ensures forall k :: i < k < j ==> !Opens(h[k], n) && !Drops(h[k], n)
  {
    PrefixLegal(h, j);
    i := LatestRegister(h[..j], n);
  }
}
