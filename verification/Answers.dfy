// The registry told by its history alone: what every answer means in terms of the
// operations before it, without any state.
module Answers {
  import opened Basics
  import opened Registry
  import opened Histories

  // The event takes this name out.
  predicate TakesOut(ev: Event, n: Name) {
    ev.op.RemoveAll? || (ev.op.Remove? && ev.op.name == n && ev.res.Removed?)
  }

  // The i-th event, a successful register of n, is what n means before the k-th.
  ghost predicate Put(h: History, i: int, k: int, n: Name, e: EntryId) {
    && 0 <= i < k <= |h| && h[i].op.Register? && h[i].op.name == n && h[i].res == Registered(e)
    && forall j :: i < j < k ==> !TakesOut(h[j], n)
  }

  ghost predicate Means(h: History, k: int, n: Name, e: EntryId) { exists i :: Put(h, i, k, n, e) }

  ghost predicate Present(h: History, k: int, n: Name) { exists e: EntryId :: Means(h, k, n, e) }

  ghost predicate ClosedBefore(h: History, k: int)
    requires k <= |h|
  {
    exists j :: 0 <= j < k && h[j].op.RemoveAll?
  }

  ghost predicate PublishedBefore(h: History, k: int, e: EntryId)
    requires k <= |h|
  {
    exists j :: 0 <= j < k && h[j].op.Register? && h[j].res == Registered(e)
  }

  // One more event.
  lemma MeansMore(h: History, k: nat, n: Name, e: EntryId)
    requires k < |h|
    ensures Means(h, k + 1, n, e) <==>
      (h[k].op.Register? && h[k].op.name == n && h[k].res == Registered(e)) || (Means(h, k, n, e) && !TakesOut(h[k], n))
  {
    if h[k].op.Register? && h[k].op.name == n && h[k].res == Registered(e) {
      assert Put(h, k, k + 1, n, e);
    }
    if Means(h, k, n, e) && !TakesOut(h[k], n) {
      var i :| Put(h, i, k, n, e);
      assert Put(h, i, k + 1, n, e);
    }
    var m := k + 1;
    if i :| Put(h, i, m, n, e) {
      assert i < k ==> Put(h, i, k, n, e);
    }
  }

  // The state the registry is in.
  ghost predicate Tells(h: History, k: int, r: Reg)
    requires k <= |h|
  {
    && (forall n, e: EntryId :: Means(h, k, n, e) <==> n in r.entries && r.entries[n] == e)
    && (r.closed <==> ClosedBefore(h, k))
    && (forall e: EntryId :: e in r.issued <==> PublishedBefore(h, k, e))
  }

  lemma TellsStart(h: History)
    ensures Tells(h, 0, NEW)
  {
    forall n, e: EntryId ensures !Means(h, 0, n, e) {
    }
  }

  lemma MapMore(r: Reg, ev: Event, n: Name, e: EntryId)
    requires Legal(r, ev.op, ev.res)
    ensures (n in After(r, ev.op, ev.res).entries && After(r, ev.op, ev.res).entries[n] == e) <==>
      || (ev.op.Register? && ev.op.name == n && ev.res == Registered(e))
      || (n in r.entries && r.entries[n] == e && !TakesOut(ev, n))
  {
  }

  lemma FlagsMore(h: History, k: nat, r: Reg)
    requires k < |h| && Tells(h, k, r) && Legal(r, h[k].op, h[k].res)
    ensures After(r, h[k].op, h[k].res).closed <==> ClosedBefore(h, k + 1)
    ensures forall e: EntryId :: e in After(r, h[k].op, h[k].res).issued <==> PublishedBefore(h, k + 1, e)
  {
    assert ClosedBefore(h, k + 1) <==> ClosedBefore(h, k) || h[k].op.RemoveAll?;
    forall e: EntryId
      ensures PublishedBefore(h, k + 1, e) <==>
        PublishedBefore(h, k, e) || (h[k].op.Register? && h[k].res == Registered(e))
    {
    }
  }

  lemma TellsMore(h: History, k: nat, r: Reg)
    requires k < |h| && Tells(h, k, r) && Legal(r, h[k].op, h[k].res)
    ensures Tells(h, k + 1, After(r, h[k].op, h[k].res))
  {
    var now := After(r, h[k].op, h[k].res);
    var m := k + 1;
    FlagsMore(h, k, r);
    forall n, e: EntryId ensures Means(h, m, n, e) <==> n in now.entries && now.entries[n] == e {
      MeansMore(h, k, n, e);
      MapMore(r, h[k], n, e);
    }
  }

  lemma {:induction false} TellsAt(h: History, k: nat)
    requires LegalHistory(h) && k <= |h|
    ensures Tells(h, k, Replay(h[..k]))
  {
    if k == 0 {
      assert h[..0] == [];
      TellsStart(h);
    } else {
      TellsAt(h, k - 1);
      PrefixLegal(h, k - 1);
      TellsMore(h, k - 1, Replay(h[..k - 1]));
    }
  }

  // What the k-th operation may answer after those before it.
  ghost predicate Follows(h: History, k: int)
    requires 0 <= k < |h|
  {
    var res := h[k].res;
    match h[k].op
    case Register(n, _) =>
      if n == "" then res == NameRequired
      else if res.OpenFailed? then true
      else if ClosedBefore(h, k) then res == Closed
      else if Present(h, k, n) then res == AlreadyRegistered
      else res.Registered? && !PublishedBefore(h, k, res.entry)
    case Remove(n, expected) =>
      if Present(h, k, n) && (expected.None? || Means(h, k, n, expected.value))
      then res.Removed? && Means(h, k, n, res.entry)
      else res == if expected.Some? then Superseded else NotFound
    case RemoveAll =>
      && res.RemovedAll? && (forall e: EntryId :: e in res.batch <==> exists n :: Means(h, k, n, e))
      && (forall n :: n in res.order <==> Present(h, k, n))
      && (forall i, j :: 0 <= i < j < |res.order| ==> res.order[i] != res.order[j])
    case Acquire(n) => if Present(h, k, n) then res.Admitted? && Means(h, k, n, res.entry) else res == NotFound
    case AcquireSource(n, e) =>
      res == if e.Some? && Means(h, k, n, e.value) then Admitted(e.value) else NotFound
    case Snapshot(n) =>
      && res.Found? && (res.found.None? <==> !Present(h, k, n))
      && (res.found.Some? ==> Means(h, k, n, res.found.value))
    case List =>
      res.Listed? && forall n, e: EntryId :: Means(h, k, n, e) <==> n in res.sources && res.sources[n] == e
  }

  lemma PresentIs(h: History, k: nat, r: Reg)
    requires k <= |h| && Tells(h, k, r)
    ensures forall n :: Present(h, k, n) <==> n in r.entries
    ensures forall n :: n in r.entries ==> Means(h, k, n, r.entries[n])
  {
    forall n | n in r.entries ensures Present(h, k, n) {
      assert Means(h, k, n, r.entries[n]);
    }
  }

  lemma BatchIs(h: History, k: nat, r: Reg)
    requires k <= |h| && Tells(h, k, r)
    ensures forall e: EntryId :: e in r.entries.Values <==> exists n :: Means(h, k, n, e)
  {
    forall e: EntryId ensures e in r.entries.Values <==> exists n :: Means(h, k, n, e) {
      if e in r.entries.Values {
        var n :| n in r.entries && r.entries[n] == e;
        assert Means(h, k, n, e);
      }
    }
  }

  lemma LegalFollows(h: History, k: nat, r: Reg)
    requires k < |h| && Tells(h, k, r)
    ensures Legal(r, h[k].op, h[k].res) <==> Follows(h, k)
  {
    PresentIs(h, k, r);
    BatchIs(h, k, r);
    if h[k].op.RemoveAll? {
      AllOut(h, k, r);
    } else if h[k].op.List? {
      AllListed(h, k, r);
    }
  }

  lemma AllOut(h: History, k: nat, r: Reg)
    requires k < |h| && Tells(h, k, r) && h[k].op.RemoveAll?
    requires forall n :: Present(h, k, n) <==> n in r.entries
    requires forall e: EntryId :: e in r.entries.Values <==> exists n :: Means(h, k, n, e)
    ensures Legal(r, h[k].op, h[k].res) <==> Follows(h, k)
  {
  }

  lemma AllListed(h: History, k: nat, r: Reg)
    requires k < |h| && Tells(h, k, r) && h[k].op.List?
    ensures Legal(r, h[k].op, h[k].res) <==> Follows(h, k)
  {
    if Follows(h, k) {
      assert forall n :: n in r.entries ==> Means(h, k, n, r.entries[n]);
      assert forall n :: n in h[k].res.sources ==> Means(h, k, n, h[k].res.sources[n]);
      assert h[k].res.sources == r.entries;
    }
  }

  // A history is legal exactly when each answer is the one its past calls for.
  lemma {:induction false} LegalIsFollowing(h: History)
    ensures LegalHistory(h) <==> forall k :: 0 <= k < |h| ==> Follows(h, k)
  {
    if h != [] {
      var n := |h| - 1;
      var init := h[..n];
      LegalIsFollowing(init);
      forall k | 0 <= k < n ensures Follows(init, k) <==> Follows(h, k) {
        SamePast(h, n, k);
      }
      if LegalHistory(init) {
        TellsAt(init, n);
        assert init[..n] == init;
        SameTells(h, n, Replay(init));
        LegalFollows(h, n, Replay(init));
      }
    }
  }

  lemma SameMeans(h: History, n: nat, k: nat, x: Name, e: EntryId)
    requires k <= n <= |h|
    ensures Means(h[..n], k, x, e) <==> Means(h, k, x, e)
  {
    if i :| Put(h[..n], i, k, x, e) {
      assert forall j :: i < j < k ==> h[..n][j] == h[j];
      assert Put(h, i, k, x, e);
    }
    if i :| Put(h, i, k, x, e) {
      assert forall j :: i < j < k ==> h[..n][j] == h[j];
      assert Put(h[..n], i, k, x, e);
    }
  }

  lemma SameFlags(h: History, n: nat, k: nat)
    requires k <= n <= |h|
    ensures ClosedBefore(h[..n], k) <==> ClosedBefore(h, k)
    ensures forall e: EntryId :: PublishedBefore(h[..n], k, e) <==> PublishedBefore(h, k, e)
  {
    assert forall j :: 0 <= j < k ==> h[..n][j] == h[j];
  }

  lemma SameTells(h: History, n: nat, r: Reg)
    requires n <= |h| && Tells(h[..n], n, r)
    ensures Tells(h, n, r)
  {
    SameFlags(h, n, n);
    forall x, e: EntryId ensures Means(h, n, x, e) <==> Means(h[..n], n, x, e) {
      SameMeans(h, n, n, x, e);
    }
  }

  lemma SamePast(h: History, n: nat, k: nat)
    requires k < n <= |h|
    ensures Follows(h[..n], k) <==> Follows(h, k)
  {
    SameFlags(h, n, k);
    forall x, e: EntryId ensures Means(h[..n], k, x, e) <==> Means(h, k, x, e) {
      SameMeans(h, n, k, x, e);
    }
    forall x ensures Present(h[..n], k, x) <==> Present(h, k, x) {
    }
    assert h[..n][k] == h[k];
    SameAnswer(h[..n], h, k);
  }

  lemma SameAnswer(g: History, h: History, k: nat)
    requires k < |g| && k < |h| && g[k] == h[k]
    requires ClosedBefore(g, k) <==> ClosedBefore(h, k)
    requires forall e: EntryId :: PublishedBefore(g, k, e) <==> PublishedBefore(h, k, e)
    requires forall x, e: EntryId :: Means(g, k, x, e) <==> Means(h, k, x, e)
    requires forall x :: Present(g, k, x) <==> Present(h, k, x)
    ensures Follows(g, k) <==> Follows(h, k)
  {
  }
}
