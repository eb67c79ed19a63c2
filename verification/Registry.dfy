// The atomic registry: what each Directory operation means when it happens at
// a single instant, and what follows for every sequence of such operations.
module Registry {
  import opened Basics

  datatype Op =
    | Register(name: Name, cfg: Config)
    | Remove(name: Name, expected: Option<EntryId>)  // None: the public, name-based Remove
    | RemoveAll
    | Acquire(name: Name)                            // admission of Executor.Run
    | AcquireSource(name: Name, entry: Option<EntryId>)  // admission of Source.Run
    | Snapshot(name: Name)                           // NewSource
    | List                                           // Sources

  datatype Result =
    | Registered(entry: EntryId)
    | NameRequired
    | Closed
    | AlreadyRegistered
    | OpenFailed
    | Removed(entry: EntryId)
    | NotFound
    | Superseded              // identity-checked removal found another entry, or none
    | RemovedAll(batch: set<EntryId>, order: seq<Name>)
    | Admitted(entry: EntryId)
    | Found(found: Option<EntryId>)
    | Listed(sources: map<Name, EntryId>)

  // `issued` remembers every identity ever published: a pointer is never reused
  // while someone still holds it.
  datatype Reg = Reg(entries: map<Name, EntryId>, closed: bool, issued: set<EntryId>)

  const NEW := Reg(map[], false, {})

  function Lookup(m: map<Name, EntryId>, n: Name): Option<EntryId> {
    if n in m then Some(m[n]) else None
  }

  ghost predicate Enumerates(order: seq<Name>, names: set<Name>) {
    && (forall i, j :: 0 <= i < j < |order| ==> order[i] != order[j])
    && (forall n :: n in order <==> n in names)
  }

  // Whether `res` is an answer the registry may give to `op` in state `r`.
  ghost predicate Legal(r: Reg, op: Op, res: Result) {
    match op
    case Register(n, _) =>
      if n == "" then res == NameRequired
      else if res.OpenFailed? then true
      else if r.closed then res == Closed
      else if n in r.entries then res == AlreadyRegistered
      else res.Registered? && res.entry !in r.issued
    case Remove(n, expected) =>
      if n in r.entries && (expected.None? || expected.value == r.entries[n])
      then res == Removed(r.entries[n])
      else res == if expected.Some? then Superseded else NotFound
    case RemoveAll =>
      res.RemovedAll? && res.batch == r.entries.Values && Enumerates(res.order, r.entries.Keys)
    case Acquire(n) =>
      res == if n in r.entries then Admitted(r.entries[n]) else NotFound
    case AcquireSource(n, e) =>
      res == if e.Some? && Lookup(r.entries, n) == e then Admitted(e.value) else NotFound
    case Snapshot(n) => res == Found(Lookup(r.entries, n))
    case List => res == Listed(r.entries)
  }

  function After(r: Reg, op: Op, res: Result): Reg {
    match (op, res)
    case (Register(n, _), Registered(e)) => Reg(r.entries[n := e], r.closed, r.issued + {e})
    case (Remove(n, _), Removed(_)) => r.(entries := r.entries - {n})
    case (RemoveAll, _) => Reg(map[], true, r.issued)
    case _ => r
  }

  datatype Event = Event(call: CallId, op: Op, res: Result)

  type History = seq<Event>

  function Replay(h: History): Reg {
    if h == [] then NEW
    else var last := h[|h| - 1]; After(Replay(h[..|h| - 1]), last.op, last.res)
  }

  ghost predicate LegalHistory(h: History) {
    h == [] ||
    (var last := h[|h| - 1];
     LegalHistory(h[..|h| - 1]) && Legal(Replay(h[..|h| - 1]), last.op, last.res))
  }

  lemma Extend(h: History, ev: Event)
    ensures Replay(h + [ev]) == After(Replay(h), ev.op, ev.res)
    ensures LegalHistory(h + [ev]) <==> LegalHistory(h) && Legal(Replay(h), ev.op, ev.res)
  {
    assert (h + [ev])[..|h|] == h;
  }

  // How often call t has taken effect, and its latest effect.
  function Effects(h: History, t: CallId): nat {
    if h == [] then 0
    else Effects(h[..|h| - 1], t) + if h[|h| - 1].call == t then 1 else 0
  }

  function LastOf(h: History, t: CallId): Option<Event> {
    if h == [] then None
    else if h[|h| - 1].call == t then Some(h[|h| - 1])
    else LastOf(h[..|h| - 1], t)
  }

  lemma ExtendEffects(h: History, ev: Event, t: CallId)
    ensures Effects(h + [ev], t) == Effects(h, t) + if ev.call == t then 1 else 0
    ensures LastOf(h + [ev], t) == if ev.call == t then Some(ev) else LastOf(h, t)
  {
    assert (h + [ev])[..|h|] == h;
  }
}
