// The Directory as one goroutine's calls see it. Each method says which atomic operation
// of the registry it is, and what it does to clients and to the observer. Other goroutines'
// Runs may be inside entries, and their registers under way: where the source waits for
// them, they come to their end.
module Directories {
  import opened Basics
  import opened Registry
  import opened Protocol
  import opened Throttling
  import opened Observing
  import opened Driving
  import opened Sorting

  class DirectoryEntry {
    const client: ClientId
    const driver: string
    const maxConcurrency: int
    const throttle: Throttle
    var inFlight: nat  // the WaitGroup's counter

    constructor (client: ClientId, cfg: Config)
      ensures this.client == client && Fits(cfg) && fresh(throttle) && Still()
    {
      this.client, driver, maxConcurrency, inFlight := client, cfg.driver, cfg.limit, 0;
      throttle := new Throttle(cfg.limit);
    }

    // What the configuration asked for.
    predicate Fits(cfg: Config) {
      driver == cfg.driver && maxConcurrency == cfg.limit && throttle.capacity == Capacity(cfg.limit)
    }

    // As many Runs inside, at least, as there are tokens out of the channel.
    predicate Sound()
      reads this, throttle
    {
      throttle.tokens <= throttle.capacity && throttle.capacity - throttle.tokens <= inFlight
    }

    // And one more that holds no token yet.
    predicate Admitted()
      reads this, throttle
    {
      throttle.tokens <= throttle.capacity && throttle.capacity - throttle.tokens < inFlight
    }

    // A Run of another goroutine comes to its end; one that holds a token, if there is one.
    method OneLeaves()
      requires Sound() && inFlight > 0
      modifies this`inFlight, throttle
      ensures Sound() && inFlight == old(inFlight) - 1
      ensures throttle.tokens == if old(throttle.tokens) < throttle.capacity then old(throttle.tokens) + 1
                                 else old(throttle.tokens)
    {
      if throttle.tokens < throttle.capacity {
        throttle.Release();
      }
      inFlight := inFlight - 1;
    }

    // wg.Wait: over when every Run inside has come to its end.
    method Wait()
      requires Sound()
      modifies this`inFlight, throttle
      ensures Still()
    {
      while inFlight > 0
        invariant Sound()
      {
        OneLeaves();
      }
    }

    // No Run is inside, and every token is in the channel.
    predicate Still()
      reads this, throttle
    {
      inFlight == 0 && throttle.tokens == throttle.capacity
    }
  }

  datatype SourceInfo = SourceInfo(name: Name, driver: string, maxConcurrency: int)

  class Directory {
    var entries: map<Name, DirectoryEntry>
    var closed: bool
    var openings: nat
    var opening: set<ClientId>  // opened by registers of other goroutines that are not back at mu yet
    const driver: DriverRegistry
    const observer: Observer?
    const pool: ClientPool
    ghost var known: set<DirectoryEntry>  // every entry ever published here

    constructor (driver: DriverRegistry, observer: Observer?, pool: ClientPool)
      ensures Valid() && View() == NEW && known == {} && openings == 0
      ensures this.driver == driver && this.observer == observer && this.pool == pool
    {
      this.driver, this.observer, this.pool := driver, observer, pool;
      entries, closed, openings, opening, known := map[], false, 0, {}, {};
    }

    ghost function Throttles(): set<Throttle>
      reads this`known
    {
      Gates(known)
    }

    // The entries, and all there have been.
    ghost predicate Tidy()
      reads this`entries, this`closed, this`known
    {
      && (forall n :: n in entries ==> entries[n] in known)
      && Apart(entries)
      && (forall e, f :: e in known && f in known && e != f ==> e.client != f.client && e.throttle != f.throttle)
      && (closed ==> entries == map[])
    }

    ghost predicate Within()
      reads this`known, pool
    {
      forall e :: e in known ==> e.client < pool.issued
    }

    ghost predicate Shape()
      reads this`entries, this`closed, this`known, this`openings, this`opening, pool
    {
      Tidy() && Within() && |opening| <= openings
    }

    ghost predicate Sound()
      reads this`known, known, Throttles()
    {
      forall e :: e in known ==> e.Sound()
    }

    // A Run has just been admitted to an entry.
    ghost predicate Inside(entry: DirectoryEntry)
      reads this`known, known, Throttles()
    {
      entry in known && entry.Admitted() && forall e :: e in known && e != entry ==> e.Sound()
    }

    // Kept by every method. Runs may be inside any entry, and registers under way.
    ghost predicate Valid()
      reads this`entries, this`closed, this`known, this`openings, this`opening, pool, known, Throttles()
    {
      Shape() && Sound()
    }

    static ghost predicate Apart(m: map<Name, DirectoryEntry>) {
      forall n, k :: n in m && k in m && n != k ==>
        m[n].client != m[k].client && m[n].throttle != m[k].throttle
    }

    // The entry a removal is about to take, and its throttle.
    ghost function Leaving(name: Name, expected: DirectoryEntry?): set<DirectoryEntry>
      reads this`entries
    {
      if name in entries && (expected == null || entries[name] == expected) then {entries[name]} else {}
    }

    // The entry that admission by identity would admit to.
    ghost function Admitting(name: Name, expected: DirectoryEntry?): set<DirectoryEntry>
      reads this`entries
    {
      if expected != null && name in entries && entries[name] == expected then {expected} else {}
    }

    static ghost function Gates(es: set<DirectoryEntry>): set<Throttle> {
      set e | e in es :: e.throttle
    }

    static ghost function Heads(m: map<Name, DirectoryEntry>): set<DirectoryEntry> {
      set n | n in m :: m[n]
    }

    // An entry goes by its client: drivers never return the same client twice.
    ghost function View(): Reg
      reads this`entries, this`closed, this`known
    {
      Reg(Ids(entries), closed, Clients(known))
    }

    static ghost function Clients(es: set<DirectoryEntry>): set<ClientId> {
      set e | e in es :: e.client
    }

    static lemma OneClient(es: set<DirectoryEntry>, e: DirectoryEntry)
      ensures Clients(es + {e}) == Clients(es) + {e.client}
    {
    }

    static function Ids(m: map<Name, DirectoryEntry>): map<Name, ClientId> {
      map n | n in m :: m[n].client
    }

    // What the observer has been told, if there is one.
    ghost function Seen(): seq<Callback>
      reads this, observer
    {
      if observer == null then [] else observer.seen
    }

    ghost function Heard(cbs: seq<Callback>): seq<Callback> {
      if observer == null then [] else cbs
    }

    lemma HeardMore(was: seq<Callback>, a: seq<Callback>, b: seq<Callback>)
      ensures was + Heard(a) + Heard(b) == was + Heard(a + b)
    {
    }

    // A callback, if there is an observer; `raised`: whether a panic comes out of it.
    method Tell(cb: Callback) returns (raised: bool)
      modifies observer
      ensures Seen() == old(Seen()) + Heard([cb]) && !raised
    {
      raised := false;
      if observer != null {
        raised := SafeObserve(observer, cb);
      }
    }

    // The first critical section of register: refusals, and the promise that RemoveAll waits for.
    method BeginRegister(name: Name) returns (refused: Option<Result>)
      requires name != ""
      modifies this`openings, driver
      ensures refused == if closed then Some(Closed) else if name in entries then Some(AlreadyRegistered) else None
      ensures openings == old(openings) + if refused.None? then 1 else 0
      ensures driver.frozen == (old(driver.frozen) || refused.None?) && driver.builders == old(driver.builders)
    {
      if closed {
        return Some(Closed);
      }
      if name in entries {
        return Some(AlreadyRegistered);
      }
      driver.Freeze();
      openings := openings + 1;
      return None;
    }

    static lemma PutIds(m: map<Name, DirectoryEntry>, name: Name, e: DirectoryEntry)
      ensures Ids(m[name := e]) == Ids(m)[name := e.client]
    {
    }

    method Insert(name: Name, e: DirectoryEntry)
      requires Shape() && !closed && name !in entries && e !in known
      requires e.client < pool.issued && e.client !in View().issued
      requires forall f :: f in known ==> f.throttle != e.throttle
      modifies this`entries, this`known
      ensures Shape() && known == old(known) + {e} && entries == old(entries)[name := e]
      ensures View() == Reg(old(View()).entries[name := e.client], false, old(View()).issued + {e.client})
    {
      assert forall f :: f in known ==> f.client in Clients(known);
      OneClient(known, e);
      PutIds(entries, name, e);
      entries := entries[name := e];
      known := known + {e};
    }

    // The second: whatever has happened to the name meanwhile, the client is
    // published or closed, never both and never neither.
    method Publish(name: Name, cfg: Config, client: ClientId) returns (res: Result, entry: DirectoryEntry?)
      requires Shape() && name != "" && client < pool.issued && client !in View().issued
      modifies this`entries, this`known, pool, observer
      ensures Shape() && old(known) <= known && (old(Sound()) ==> Sound())
      ensures Legal(old(View()), Op.Register(name, cfg), res) && !res.OpenFailed?
      ensures View() == After(old(View()), Op.Register(name, cfg), res)
      ensures res.Registered? ==>
        entry != null && fresh(entry) && fresh(entry.throttle) && entry.Still() &&
        res.entry == entry.client == client && known == old(known) + {entry} &&
        entries == old(entries)[name := entry] && entry.Fits(cfg)
      ensures !res.Registered? ==> entry == null && entries == old(entries) && known == old(known)
      ensures pool.closes == old(pool.closes) + if res.Registered? then multiset{} else multiset{client}
      ensures pool.issued == old(pool.issued)
      ensures Seen() == old(Seen()) + Heard(if res.Registered? then [SourceRegistered(name)] else [])
    {
      if closed {
        pool.Close(client);
        return Closed, null;
      }
      if name in entries {
        pool.Close(client);
        return AlreadyRegistered, null;
      }
      var e := new DirectoryEntry(client, cfg);
      Insert(name, e);
      var _ := Tell(SourceRegistered(name));
      res, entry := Registered(client), e;
    }

    // What is left of a register that comes back to mu alone: it publishes, and leaves the openings.
    method PublishOpened(name: Name, cfg: Config, client: ClientId) returns (res: Result, entry: DirectoryEntry?)
      requires Shape() && name != "" && client < pool.issued && client !in View().issued
      requires !closed && name !in entries && |opening| < openings
      modifies this`entries, this`known, this`openings, pool, observer
      ensures Shape() && openings == old(openings) - 1 && (old(Sound()) ==> Sound())
      ensures res == Registered(client) && entry != null && fresh(entry) && fresh(entry.throttle)
      ensures View() == After(old(View()), Op.Register(name, cfg), res)
      ensures entry.client == client && entry.Fits(cfg) && entry.Still()
      ensures entries == old(entries)[name := entry] && known == old(known) + {entry}
      ensures pool.closes == old(pool.closes) && pool.issued == old(pool.issued)
      ensures Seen() == old(Seen()) + Heard([SourceRegistered(name)])
    {
      res, entry := Publish(name, cfg, client);
      openings := openings - 1;
    }

    // From the driver's Open, outside every lock, to the deferred openings.Done.
    method OpenAndPublish(name: Name, cfg: Config) returns (res: Result, entry: DirectoryEntry?)
      requires Shape() && name != "" && !closed && name !in entries && |opening| < openings
      modifies this`entries, this`known, this`openings, pool, observer
      ensures Shape() && openings == old(openings) - 1 && (old(Sound()) ==> Sound())
      ensures res == if driver.Opens(cfg) then Registered(old(pool.issued)) else OpenFailed
      ensures View() == After(old(View()), Op.Register(name, cfg), res)
      ensures if res.Registered?
        then entry != null && fresh(entry) && fresh(entry.throttle) && entry.client == old(pool.issued)
          && entry.Still() && entry.Fits(cfg) && entries == old(entries)[name := entry] && known == old(known) + {entry}
        else entry == null && entries == old(entries) && known == old(known)
      ensures pool.closes == old(pool.closes)
      ensures pool.issued == old(pool.issued) + if res.Registered? then 1 else 0
      ensures Seen() == old(Seen()) + Heard(if res.Registered? then [SourceRegistered(name)] else [])
    {
      var client := driver.Open(cfg, pool);
      if client.None? {
        res, entry := OpenFailed, null;
        openings := openings - 1;
      } else {
        res, entry := PublishOpened(name, cfg, client.value);
      }
    }

    method Register(name: Name, cfg: Config) returns (res: Result, entry: DirectoryEntry?)
      requires Valid()
      modifies this`entries, this`known, this`openings, driver, pool, observer
      ensures Valid() && openings == old(openings) && old(known) <= known
      ensures Legal(old(View()), Op.Register(name, cfg), res)
      ensures View() == After(old(View()), Op.Register(name, cfg), res)
      ensures res.OpenFailed? <==> name != "" && !closed && name !in old(entries) && !driver.Opens(cfg)
      ensures res == if name == "" then NameRequired else if closed then Closed
                     else if name in old(entries) then AlreadyRegistered
                     else if cfg.driver !in driver.builders then OpenFailed
                     else if driver.builders[cfg.driver](cfg) then Registered(old(pool.issued)) else OpenFailed
      ensures res.Registered? ==>
        && entry != null && entry.driver == cfg.driver && entry.maxConcurrency == cfg.limit
        && entry.inFlight == 0 && entry.throttle.capacity == entry.throttle.tokens
        && entry.throttle.capacity == if cfg.limit > 0 then cfg.limit else 0
      ensures if res.Registered?
        then entry != null && fresh(entry) && fresh(entry.throttle) && res.entry == entry.client == old(pool.issued)
          && entry.Fits(cfg) && entries == old(entries)[name := entry] && known == old(known) + {entry}
        else entry == null && entries == old(entries) && known == old(known)
      ensures pool.closes == old(pool.closes)
      ensures pool.issued == old(pool.issued) + if res.Registered? then 1 else 0
      ensures driver.builders == old(driver.builders)
      ensures driver.frozen == (old(driver.frozen) || res.Registered? || res.OpenFailed?)
      ensures Seen() == old(Seen()) + Heard(if res.Registered? then [SourceRegistered(name)] else [])
    {
      if name == "" {
        return NameRequired, null;
      }
      var refused := BeginRegister(name);
      if refused.Some? {
        return refused.value, null;
      }
      res, entry := OpenAndPublish(name, cfg);
    }

    // The identity Registry.Remove compares with.
    ghost function Expected(expected: DirectoryEntry?): Option<EntryId> {
      if expected == null then None else Some(expected.client)
    }

    method Delete(name: Name)
      requires Shape()
      modifies this`entries
      ensures Shape() && entries == old(entries) - {name}
      ensures View() == old(View()).(entries := old(View()).entries - {name})
    {
      entries := entries - {name};
      assert Ids(entries) == Ids(old(entries)) - {name};
    }

    // wg.Wait and closeClient.
    method Drain(entry: DirectoryEntry)
      requires Valid() && entry in known
      modifies entry`inFlight, entry.throttle, pool
      ensures Valid() && entry.Still()
      ensures pool.closes == old(pool.closes) + multiset{entry.client} && pool.issued == old(pool.issued)
    {
      entry.Wait();
      pool.Close(entry.client);
    }

    // The critical section of removeEntry, and its callback.
    method TakeOut(name: Name) returns (entry: DirectoryEntry)
      requires Valid() && name in entries
      modifies this`entries, observer
      ensures Valid() && entry == old(entries)[name] && entry in known && entries == old(entries) - {name}
      ensures View() == old(View()).(entries := old(View()).entries - {name})
      ensures Seen() == old(Seen()) + Heard([SourceRemoved(name)])
    {
      entry := entries[name];
      Delete(name);
      var _ := Tell(SourceRemoved(name));
    }

    // removeEntry; Remove passes null.
    method RemoveEntry(name: Name, expected: DirectoryEntry?) returns (res: Result)
      requires Valid() && (expected != null ==> expected in known)
      modifies this`entries, pool, observer, Leaving(name, expected)`inFlight, Gates(Leaving(name, expected))
      ensures Valid()
      ensures Legal(old(View()), Op.Remove(name, Expected(expected)), res)
      ensures View() == After(old(View()), Op.Remove(name, Expected(expected)), res)
      ensures entries == if res.Removed? then old(entries) - {name} else old(entries)
      ensures res == if name in old(entries) && (expected == null || old(entries)[name] == expected)
                     then Removed(old(entries)[name].client)
                     else if expected == null then NotFound else Superseded
      ensures res.Removed? ==> name in old(entries) && old(entries)[name].Still()
      ensures pool.closes == old(pool.closes) + if res.Removed? then multiset{res.entry} else multiset{}
      ensures pool.issued == old(pool.issued)
      ensures Seen() == old(Seen()) + Heard(if res.Removed? then [SourceRemoved(name)] else [])
    {
      if name !in entries || (expected != null && entries[name] != expected) {
        return if expected != null then Superseded else NotFound;
      }
      var entry := TakeOut(name);
      Drain(entry);
      return Removed(entry.client);
    }

    // One callback for each name, in the order given.
    method NotifyRemoved(names: seq<Name>)
      modifies observer
      ensures Seen() == old(Seen()) + Heard(Removals(names))
    {
      for i := 0 to |names|
        invariant Seen() == old(Seen()) + Heard(Removals(names[..i]))
      {
        var _ := Tell(SourceRemoved(names[i]));
        assert Removals(names[..i + 1]) == Removals(names[..i]) + [SourceRemoved(names[i])];
      }
      assert names[..|names|] == names;
    }

    // A map's names in whatever order it yields them.
    static method Enumerate(m: map<Name, DirectoryEntry>) returns (order: seq<Name>)
      ensures Enumerates(order, m.Keys)
    {
      var todo := m.Keys;
      order := [];
      while todo != {}
        invariant todo <= m.Keys && Enumerates(order, m.Keys - todo)
        decreases todo
      {
        var n :| n in todo;
        order := order + [n];
        todo := todo - {n};
      }
    }

    method CloseNext(taken: map<Name, DirectoryEntry>, order: seq<Name>, i: nat)
      requires Valid() && Apart(taken) && forall n :: n in taken ==> taken[n] in known
      requires Enumerates(order, taken.Keys) && i < |order| && StillAt(taken, order[..i])
      modifies pool, Heads(taken)`inFlight, Gates(Heads(taken))
      ensures Valid() && StillAt(taken, order[..i + 1]) && pool.issued == old(pool.issued)
      ensures order[i] in taken && pool.closes == old(pool.closes) + multiset{taken[order[i]].client}
      ensures multiset(ClientsOf(taken, order[..i + 1])) ==
        multiset(ClientsOf(taken, order[..i])) + multiset{taken[order[i]].client}
    {
      NextClient(taken, order, i);
      Drain(taken[order[i]]);
    }

    // Waits for each taken entry and closes it, in this order.
    method CloseEach(taken: map<Name, DirectoryEntry>, order: seq<Name>)
      requires Valid() && Apart(taken) && (forall n :: n in taken ==> taken[n] in known)
      requires Enumerates(order, taken.Keys)
      modifies pool, Heads(taken)`inFlight, Gates(Heads(taken))
      ensures Valid() && StillAt(taken, order) && pool.issued == old(pool.issued)
      ensures pool.closes == old(pool.closes) + multiset(ClientsOf(taken, order))
    {
      var i := 0;
      while i < |order|
        invariant 0 <= i <= |order| && pool.issued == old(pool.issued)
        invariant Valid() && StillAt(taken, order[..i])
        invariant pool.closes == old(pool.closes) + multiset(ClientsOf(taken, order[..i]))
      {
        CloseNext(taken, order, i);
        i := i + 1;
      }
      assert order[..i] == order;
    }

    method CloseAll(taken: map<Name, DirectoryEntry>)
      requires Valid() && Apart(taken) && forall n :: n in taken ==> taken[n] in known
      modifies pool, Heads(taken)`inFlight, Gates(Heads(taken))
      ensures Valid() && forall n :: n in taken ==> taken[n].Still()
      ensures pool.closes == old(pool.closes) + multiset(Ids(taken).Values) && pool.issued == old(pool.issued)
    {
      var order := Enumerate(taken);
      CloseEach(taken, order);
      AllClients(taken, order);
    }

    ghost predicate StillAt(taken: map<Name, DirectoryEntry>, names: seq<Name>)
      reads Heads(taken), Gates(Heads(taken))
    {
      forall n :: n in names && n in taken ==> taken[n].Still()
    }

    static ghost function ClientsOf(m: map<Name, DirectoryEntry>, names: seq<Name>): set<ClientId> {
      set n | n in names && n in m :: m[n].client
    }

    static lemma NextClient(m: map<Name, DirectoryEntry>, order: seq<Name>, i: nat)
      requires Enumerates(order, m.Keys) && i < |order|
      requires Apart(m)
      ensures order[..i + 1] == order[..i] + [order[i]]
      ensures order[i] in m && m[order[i]].client !in ClientsOf(m, order[..i])
      ensures ClientsOf(m, order[..i + 1]) == ClientsOf(m, order[..i]) + {m[order[i]].client}
    {
      assert order[i] in order;
      assert order[..i + 1] == order[..i] + [order[i]];
    }

    static lemma AllClients(m: map<Name, DirectoryEntry>, order: seq<Name>)
      requires Enumerates(order, m.Keys)
      ensures ClientsOf(m, order) == Ids(m).Values
    {
      forall n | n in m ensures m[n].client in ClientsOf(m, order) && m[n].client in Ids(m).Values {
        assert n in order;
        assert Ids(m)[n] == m[n].client;
      }
    }

    // The critical section of RemoveAll.
    method Swap() returns (taken: map<Name, DirectoryEntry>)
      requires Shape()
      modifies this`entries, this`closed
      ensures Shape() && taken == old(entries) && Apart(taken) && taken.Keys == old(View()).entries.Keys
      ensures forall n :: n in taken ==> taken[n] in known
      ensures View() == Reg(map[], true, old(View()).issued)
    {
      closed := true;
      taken := entries;
      entries := map[];
      assert Ids(taken).Keys == taken.Keys;
      assert Ids(entries) == map[];
    }

    // openings.Wait: over when every register under way is back. Each of them, whether it
    // has opened its client already or only now, finds the Directory closed and closes it.
    method WaitOpenings()
      requires closed && |opening| <= openings
      modifies this`openings, this`opening, pool
      ensures openings == 0 && opening == {} && old(pool.issued) <= pool.issued
      ensures pool.closes == old(pool.closes) + multiset(old(opening)) + Issued(old(pool.issued), pool.issued)
    {
      ghost var still, first, was := opening, pool.issued, pool.closes;
      while openings > 0
        invariant |opening| <= openings && opening <= still && first <= pool.issued
        invariant pool.closes == was + multiset(still - opening) + Issued(first, pool.issued)
      {
        OneRegisterBack(still, first, was);
      }
    }

    method OneRegisterBack(ghost still: set<ClientId>, ghost first: nat, ghost was: multiset<ClientId>)
      requires openings > 0 && |opening| <= openings && opening <= still && first <= pool.issued
      requires pool.closes == was + multiset(still - opening) + Issued(first, pool.issued)
      modifies this`openings, this`opening, pool
      ensures openings == old(openings) - 1 && |opening| <= openings && opening <= still && first <= pool.issued
      ensures pool.closes == was + multiset(still - opening) + Issued(first, pool.issued)
    {
      openings := openings - 1;
      if opening != {} {
        var c :| c in opening;
        OneBack(still, opening, c);
        opening := opening - {c};
        pool.Close(c);
      } else if * {
        var c := pool.Open();
        pool.Close(c);
      }
    }

    static lemma OneBack(still: set<ClientId>, left: set<ClientId>, c: ClientId)
      requires left <= still && c in left
      ensures multiset(still - (left - {c})) == multiset(still - left) + multiset{c}
    {
      assert still - (left - {c}) == (still - left) + {c};
    }

    // What RemoveAll waits for.
    method DrainAll(taken: map<Name, DirectoryEntry>)
      requires Valid() && closed && Apart(taken) && forall n :: n in taken ==> taken[n] in known
      modifies pool, this`openings, this`opening, Heads(taken)`inFlight, Gates(Heads(taken))
      ensures Valid() && openings == 0 && old(pool.issued) <= pool.issued
      ensures forall n :: n in taken ==> taken[n].Still()
      ensures pool.closes == old(pool.closes) + multiset(Ids(taken).Values) + multiset(old(opening))
                             + Issued(old(pool.issued), pool.issued)
    {
      CloseAll(taken);
      WaitOpenings();
    }

    method RemoveAll() returns (res: Result)
      requires Valid()
      modifies this`entries, this`closed, this`openings, this`opening, pool, observer
      modifies Heads(entries)`inFlight, Gates(Heads(entries))
      ensures Valid() && openings == 0
      ensures Legal(old(View()), Op.RemoveAll, res) && View() == After(old(View()), Op.RemoveAll, res)
      ensures forall n :: n in old(entries) ==> old(entries)[n].Still()
      ensures old(pool.issued) <= pool.issued
      ensures pool.closes == old(pool.closes) + multiset(res.batch) + multiset(old(opening))
                             + Issued(old(pool.issued), pool.issued)
      ensures Seen() == old(Seen()) + Heard(Removals(res.order))
    {
      var taken := Swap();
      var names := Enumerate(taken);
      NotifyRemoved(names);
      DrainAll(taken);
      res := RemovedAll(Ids(taken).Values, names);
    }

    // Sources: what it lists, sorted by name, is settled by the registry alone.
    method Sources() returns (infos: seq<SourceInfo>)
      requires Valid()
      ensures Lists(entries, infos)
      ensures |infos| == |InOrder(entries.Keys)|
      ensures forall k :: 0 <= k < |infos| ==>
        InOrder(entries.Keys)[k] in entries && infos[k] == InfoOf(entries, InOrder(entries.Keys)[k])
    {
      var names := Sorted(entries.Keys);
      infos := [];
      for i := 0 to |names|
        invariant |infos| == i
        invariant forall k :: 0 <= k < i ==> names[k] in entries && infos[k] == InfoOf(entries, names[k])
      {
        assert names[i] in names;
        infos := infos + [InfoOf(entries, names[i])];
      }
      AllInfos(entries, names, infos);
    }

    // One info for each name, in the order of the names.
    static ghost predicate Lists(m: map<Name, DirectoryEntry>, infos: seq<SourceInfo>) {
      && (forall i, j :: 0 <= i < j < |infos| ==> Before(infos[i].name, infos[j].name))
      && (forall n :: n in m <==> exists k :: 0 <= k < |infos| && infos[k].name == n)
      && (forall k :: 0 <= k < |infos| && infos[k].name in m ==>
            var e := m[infos[k].name]; infos[k].driver == e.driver && infos[k].maxConcurrency == e.maxConcurrency)
    }

    static lemma AllInfos(m: map<Name, DirectoryEntry>, names: seq<Name>, infos: seq<SourceInfo>)
      requires Ascending(names) && |infos| == |names| && forall n :: n in names <==> n in m
      requires forall k :: 0 <= k < |names| ==> names[k] in m && infos[k] == InfoOf(m, names[k])
      ensures Lists(m, infos)
    {
      forall n | n in m ensures exists k :: 0 <= k < |infos| && infos[k].name == n {
        assert n in names;
        var k :| 0 <= k < |names| && names[k] == n;
        assert infos[k].name == n;
      }
    }

    static function InfoOf(m: map<Name, DirectoryEntry>, name: Name): SourceInfo
      requires name in m
    {
      SourceInfo(name, m[name].driver, m[name].maxConcurrency)
    }

    method SourceEntry(name: Name) returns (entry: DirectoryEntry?)
      requires Valid()
      ensures entry != null ==> entry in known
      ensures Legal(View(), Op.Snapshot(name), Found(Expected(entry)))
    {
      entry := if name in entries then entries[name] else null;
    }

    // Admission by name: a live lookup.
    method Acquire(name: Name) returns (entry: DirectoryEntry?)
      requires Shape()
      modifies Leaving(name, null)`inFlight
      ensures entry == if name in entries then entries[name] else null
      ensures entry != null ==> entry.inFlight == old(entry.inFlight) + 1
      ensures entry != null && old(Sound()) ==> Inside(entry)
      ensures Legal(View(), Op.Acquire(name), if entry == null then NotFound else Admitted(entry.client))
    {
      if name !in entries {
        return null;
      }
      entry := entries[name];
      entry.inFlight := entry.inFlight + 1;
    }

    // Admission by identity: of the entry the Source captured and of no other.
    method AcquireSource(name: Name, expected: DirectoryEntry?) returns (entry: DirectoryEntry?)
      requires Shape() && (expected != null ==> expected in known)
      modifies Admitting(name, expected)`inFlight
      ensures entry == if expected != null && name in entries && entries[name] == expected then expected else null
      ensures entry != null ==> entry.inFlight == old(entry.inFlight) + 1
      ensures entry != null && old(Sound()) ==> Inside(entry)
      ensures Legal(View(), Op.AcquireSource(name, Expected(expected)),
                    if entry == null then NotFound else Admitted(entry.client))
    {
      if name !in entries || expected == null || entries[name] != expected {
        return null;
      }
      entry := entries[name];
      entry.inFlight := entry.inFlight + 1;
    }
  }
}
