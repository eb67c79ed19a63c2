// Configure when nothing runs beside it: all of the configuration or nothing of it,
// in whatever order the map yields its names.
module Adapters {
  import opened Basics
  import opened Protocol
  import opened Driving
  import opened Directories

  // What decides whether a source can be published.
  datatype Moment = Moment(entries: map<Name, DirectoryEntry>, closed: bool, builders: map<string, Builder>) {
    ghost predicate Opens(name: Name, cfg: Config) {
      name != "" && !closed && name !in entries && Supports(builders, cfg)
    }

    ghost predicate OpensAll(cfg: map<Name, Config>) {
      "" !in cfg && forall n :: n in cfg ==> Opens(n, cfg[n])
    }
  }

  datatype OpenedSource = OpenedSource(name: Name, entry: DirectoryEntry)

  class Adapter {
    const directory: Directory

    constructor (directory: Directory)
      ensures this.directory == directory
    {
      this.directory := directory;
    }

    ghost predicate Ready()
      reads directory`entries, directory`closed, directory`known, directory`openings, directory`opening
      reads directory.pool, directory.known, directory.Throttles()
    {
      directory.Valid()
    }

    ghost function Now(): Moment
      reads directory`entries, directory`closed, directory.driver
    {
      Moment(directory.entries, directory.closed, directory.driver.builders)
    }

    // Neither closing nor driver registration has come between.
    ghost predicate Same(was: Moment)
      reads directory`closed, directory.driver
    {
      directory.closed == was.closed && directory.driver.builders == was.builders
    }

    method Withdraw(name: Name, entry: DirectoryEntry)
      requires Ready() && name in directory.entries && directory.entries[name] == entry
      modifies directory`entries, directory.pool, directory.observer, entry`inFlight, entry.throttle
      ensures Ready()
      ensures directory.entries == old(directory.entries) - {name}
      ensures directory.pool.closes == old(directory.pool.closes) + multiset{entry.client}
      ensures directory.pool.issued == old(directory.pool.issued)
      ensures directory.Seen() == old(directory.Seen()) + directory.Heard([SourceRemoved(name)])
    {
      var _ := directory.RemoveEntry(name, entry);
    }

    static ghost predicate Without(all: map<Name, DirectoryEntry>, gone: set<Name>, rest: map<Name, DirectoryEntry>) {
      && (forall n :: n in rest <==> n in all && n !in gone)
      && (forall n :: n in rest ==> rest[n] == all[n])
    }

    static ghost function Names(published: seq<OpenedSource>): set<Name> {
      if published == [] then {}
      else Names(published[..|published| - 1]) + {published[|published| - 1].name}
    }

    static ghost function ClientsOf(published: seq<OpenedSource>): multiset<ClientId> {
      if published == [] then multiset{}
      else ClientsOf(published[..|published| - 1]) + multiset{published[|published| - 1].entry.client}
    }

    // What this call has published still stands, each under a name of its own.
    static ghost predicate Standing(entries: map<Name, DirectoryEntry>, published: seq<OpenedSource>) {
      published == [] ||
      (var init, last := published[..|published| - 1], published[|published| - 1];
       Standing(entries, init) && last.name in entries && entries[last.name] == last.entry && last.name !in Names(init))
    }

    static lemma {:induction false} StandingUpTo(entries: map<Name, DirectoryEntry>,
                                                 published: seq<OpenedSource>, i: nat)
      requires Standing(entries, published) && i <= |published|
      ensures Standing(entries, published[..i])
    {
      if i < |published| {
        StandingUpTo(entries, published[..|published| - 1], i);
        assert published[..|published| - 1][..i] == published[..i];
      } else {
        assert published[..i] == published;
      }
    }

    static lemma {:induction false} StandingPut(entries: map<Name, DirectoryEntry>,
                                                published: seq<OpenedSource>, name: Name, entry: DirectoryEntry)
      requires Standing(entries, published) && name !in Names(published)
      ensures Standing(entries[name := entry], published)
    {
      if published != [] {
        StandingPut(entries, published[..|published| - 1], name, entry);
      }
    }

    static lemma {:induction false} StandingIn(entries: map<Name, DirectoryEntry>, published: seq<OpenedSource>)
      requires Standing(entries, published)
      ensures Names(published) <= entries.Keys
    {
      if published != [] {
        StandingIn(entries, published[..|published| - 1]);
      }
    }

    static lemma NextPublished(entries: map<Name, DirectoryEntry>, published: seq<OpenedSource>, i: nat)
      requires Standing(entries, published) && i < |published|
      ensures published[i].name in entries && published[i].name !in Names(published[..i])
      ensures entries[published[i].name] == published[i].entry
      ensures Names(published[..i + 1]) == Names(published[..i]) + {published[i].name}
      ensures ClientsOf(published[..i + 1]) == ClientsOf(published[..i]) + multiset{published[i].entry.client}
    {
      StandingUpTo(entries, published, i + 1);
      assert published[..i + 1][..i] == published[..i];
    }

    static ghost function Opened(published: seq<OpenedSource>): set<DirectoryEntry> {
      set p | p in published :: p.entry
    }

    // This part of what was published is taken back, and its clients are closed.
    static ghost predicate TakenBack(was: map<Name, DirectoryEntry>, closed: multiset<ClientId>,
                                  part: seq<OpenedSource>, entries: map<Name, DirectoryEntry>,
                                  closes: multiset<ClientId>) {
      Without(was, Names(part), entries) && closes == closed + ClientsOf(part)
    }

    static lemma OneMoreTaken(was: map<Name, DirectoryEntry>, closed: multiset<ClientId>,
                              published: seq<OpenedSource>, i: nat, entries: map<Name, DirectoryEntry>,
                              closes: multiset<ClientId>)
      requires Standing(was, published) && i < |published|
      requires TakenBack(was, closed, published[..i], entries, closes)
      ensures published[i].name in entries && entries[published[i].name] == published[i].entry
      ensures TakenBack(was, closed, published[..i + 1], entries - {published[i].name},
                        closes + multiset{published[i].entry.client})
    {
      NextPublished(was, published, i);
    }

    // The names in the order in which they were published.
    static function InTurn(published: seq<OpenedSource>): seq<Name> {
      seq(|published|, i requires 0 <= i < |published| => published[i].name)
    }

    static function Registrations(names: seq<Name>): seq<Callback> {
      seq(|names|, i requires 0 <= i < |names| => SourceRegistered(names[i]))
    }

    // What the observer has heard since.
    ghost predicate HeardSince(was: seq<Callback>, cbs: seq<Callback>)
      reads directory, directory.observer
    {
      directory.Seen() == was + directory.Heard(cbs)
    }

    // One more has been taken back, or published.
    lemma HeardRemoval(was: seq<Callback>, published: seq<OpenedSource>, i: nat)
      requires i < |published|
      ensures was + directory.Heard(Removals(InTurn(published[..i])))
                  + directory.Heard([SourceRemoved(published[i].name)])
        == was + directory.Heard(Removals(InTurn(published[..i + 1])))
    {
      directory.HeardMore(was, Removals(InTurn(published[..i])), [SourceRemoved(published[i].name)]);
      assert Removals(InTurn(published[..i + 1])) ==
        Removals(InTurn(published[..i])) + [SourceRemoved(published[i].name)];
    }

    lemma HeardRegistration(was: seq<Callback>, published: seq<OpenedSource>, p: OpenedSource)
      ensures was + directory.Heard(Registrations(InTurn(published))) + directory.Heard([SourceRegistered(p.name)])
        == was + directory.Heard(Registrations(InTurn(published + [p])))
    {
      directory.HeardMore(was, Registrations(InTurn(published)), [SourceRegistered(p.name)]);
      assert Registrations(InTurn(published + [p])) == Registrations(InTurn(published)) + [SourceRegistered(p.name)];
    }

    // One turn of the rollback.
    method TakeBack(ghost was: map<Name, DirectoryEntry>, ghost closed: multiset<ClientId>,
                    ghost seen: seq<Callback>, published: seq<OpenedSource>, i: nat)
      requires Ready() && Standing(was, published) && i < |published|
      requires HeardSince(seen, Removals(InTurn(published[..i])))
      requires TakenBack(was, closed, published[..i], directory.entries, directory.pool.closes)
      modifies directory`entries, directory.pool, directory.observer
      modifies Opened(published)`inFlight, Directory.Gates(Opened(published))
      ensures Ready()
      ensures TakenBack(was, closed, published[..i + 1], directory.entries, directory.pool.closes)
      ensures directory.pool.issued == old(directory.pool.issued)
      ensures HeardSince(seen, Removals(InTurn(published[..i + 1])))
    {
      HeardRemoval(seen, published, i);
      OneMoreTaken(was, closed, published, i, directory.entries, directory.pool.closes);
      Withdraw(published[i].name, published[i].entry);
    }

    method Rollback(published: seq<OpenedSource>)
      requires Ready() && Standing(directory.entries, published)
      modifies directory`entries, directory.pool, directory.observer
      modifies Opened(published)`inFlight, Directory.Gates(Opened(published))
      ensures Ready()
      ensures Without(old(directory.entries), Names(published), directory.entries)
      ensures directory.pool.closes == old(directory.pool.closes) + ClientsOf(published)
      ensures directory.pool.issued == old(directory.pool.issued)
      ensures directory.Seen() == old(directory.Seen()) + directory.Heard(Removals(InTurn(published)))
    {
      ghost var was, closed, seen := directory.entries, directory.pool.closes, directory.Seen();
      var i := 0;
      assert published[..0] == [];
      while i < |published|
        invariant 0 <= i <= |published| && Ready()
        invariant TakenBack(was, closed, published[..i], directory.entries, directory.pool.closes)
        invariant directory.pool.issued == old(directory.pool.issued)
        invariant HeardSince(seen, Removals(InTurn(published[..i])))
      {
        TakeBack(was, closed, seen, published, i);
        i := i + 1;
      }
      assert published[..i] == published;
    }

    // register, as Configure uses it.
    method Attempt(name: Name, cfg: Config) returns (entry: DirectoryEntry?)
      requires Ready()
      modifies directory, directory.driver, directory.pool, directory.observer
      ensures Ready()
      ensures entry != null <==> old(Now()).Opens(name, cfg)
      ensures entry != null ==>
        entry.client == old(directory.pool.issued) && entry.Fits(cfg) && fresh(entry) && fresh(entry.throttle)
      ensures Same(old(Now()))
      ensures directory.entries ==
        if entry == null then old(directory.entries) else old(directory.entries)[name := entry]
      ensures directory.pool.issued == old(directory.pool.issued) + if entry == null then 0 else 1
      ensures directory.pool.closes == old(directory.pool.closes)
      ensures directory.Seen() ==
        old(directory.Seen()) + directory.Heard(if entry == null then [] else [SourceRegistered(name)])
    {
      var res;
      res, entry := directory.Register(name, cfg);
    }

    // The clients behind what was published are those opened from `first` on.
    static ghost predicate Accounted(published: seq<OpenedSource>, first: nat, next: nat) {
      first <= next && ClientsOf(published) == Issued(first, next)
    }

    // Half way through: the names done so far could be opened, they are published
    // as configured, and nothing else has changed.
    static ghost predicate Halfway(was: Moment, now: map<Name, DirectoryEntry>, cfg: map<Name, Config>,
                                   todo: map<Name, Config>, published: seq<OpenedSource>) {
      && Standing(now, published)
      && Without(now, Names(published), was.entries)
      && Sifted(was, now, cfg, todo, Names(published))
    }

    static ghost predicate Sifted(was: Moment, now: map<Name, DirectoryEntry>, cfg: map<Name, Config>,
                                  todo: map<Name, Config>, names: set<Name>) {
      && (forall n :: n in todo ==> n in cfg && todo[n] == cfg[n])
      && (forall n :: n in names <==> n in cfg && n !in todo)
      && (forall n :: n in names ==> n in now && now[n].Fits(cfg[n]) && was.Opens(n, cfg[n]))
    }

    method Undo(ghost was: Moment, ghost seen: seq<Callback>, ghost cfg: map<Name, Config>,
                ghost todo: map<Name, Config>, published: seq<OpenedSource>)
      requires HeardSince(seen, Registrations(InTurn(published)))
      requires Ready() && Halfway(was, directory.entries, cfg, todo, published)
      modifies directory`entries, directory.pool, directory.observer
      modifies Opened(published)`inFlight, Directory.Gates(Opened(published))
      ensures Ready() && directory.entries == was.entries
      ensures directory.pool.closes == old(directory.pool.closes) + ClientsOf(published)
      ensures directory.pool.issued == old(directory.pool.issued)
      ensures HeardSince(seen, Registrations(InTurn(published)) + Removals(InTurn(published)))
    {
      directory.HeardMore(seen, Registrations(InTurn(published)), Removals(InTurn(published)));
      ghost var now := directory.entries;
      Rollback(published);
      Undone(was, now, directory.entries, Names(published));
    }

    static lemma Undone(was: Moment, now: map<Name, DirectoryEntry>, rest: map<Name, DirectoryEntry>, names: set<Name>)
      requires Without(now, names, was.entries) && Without(now, names, rest)
      ensures rest == was.entries
    {
    }

    static lemma OneMore(was: Moment, now: map<Name, DirectoryEntry>, cfg: map<Name, Config>,
                         todo: map<Name, Config>, published: seq<OpenedSource>,
                         name: Name, entry: DirectoryEntry)
      requires Halfway(was, now, cfg, todo, published) && name in todo && name !in now
      requires entry.Fits(todo[name]) && was.Opens(name, todo[name])
      ensures Halfway(was, now[name := entry], cfg, todo - {name}, published + [OpenedSource(name, entry)])
    {
      MoreNames(published, name, entry);
      OneMoreStanding(now, published, name, entry);
      OneMoreSifted(was, now, cfg, todo, Names(published), name, entry);
    }

    static lemma OneMoreStanding(now: map<Name, DirectoryEntry>, published: seq<OpenedSource>,
                                 name: Name, entry: DirectoryEntry)
      requires Standing(now, published) && name !in now
      ensures Standing(now[name := entry], published + [OpenedSource(name, entry)])
    {
      StandingIn(now, published);
      StandingPut(now, published, name, entry);
      assert (published + [OpenedSource(name, entry)])[..|published|] == published;
    }

    static lemma OneMoreSifted(was: Moment, now: map<Name, DirectoryEntry>, cfg: map<Name, Config>,
                               todo: map<Name, Config>, names: set<Name>, name: Name, entry: DirectoryEntry)
      requires Without(now, names, was.entries) && Sifted(was, now, cfg, todo, names) && name in todo && name !in now
      requires entry.Fits(todo[name]) && was.Opens(name, todo[name])
      ensures Without(now[name := entry], names + {name}, was.entries)
      ensures Sifted(was, now[name := entry], cfg, todo - {name}, names + {name})
    {
    }

    static lemma MoreNames(published: seq<OpenedSource>, name: Name, entry: DirectoryEntry)
      ensures Names(published + [OpenedSource(name, entry)]) == Names(published) + {name}
      ensures ClientsOf(published + [OpenedSource(name, entry)]) == ClientsOf(published) + multiset{entry.client}
    {
      assert (published + [OpenedSource(name, entry)])[..|published|] == published;
    }

    static lemma NotYet(was: Moment, now: Moment, cfg: map<Name, Config>, todo: map<Name, Config>,
                        published: seq<OpenedSource>, name: Name)
      requires Halfway(was, now.entries, cfg, todo, published) && name in todo
      requires now.closed == was.closed && now.builders == was.builders
      ensures now.Opens(name, todo[name]) ==> was.Opens(name, todo[name]) && name !in now.entries
      ensures !now.Opens(name, todo[name]) ==> !was.OpensAll(cfg)
    {
    }

    static lemma OneMoreClient(published: seq<OpenedSource>, name: Name, entry: DirectoryEntry, first: nat)
      requires Accounted(published, first, entry.client)
      ensures Accounted(published + [OpenedSource(name, entry)], first, entry.client + 1)
    {
      MoreNames(published, name, entry);
    }

    // One turn of the loop.
    method Advance(ghost was: Moment, ghost seen: seq<Callback>, ghost cfg: map<Name, Config>,
                   todo: map<Name, Config>, ghost published: seq<OpenedSource>, name: Name)
        returns (entry: DirectoryEntry?)
      requires Ready() && Halfway(was, directory.entries, cfg, todo, published) && name in todo
      requires Same(was) && HeardSince(seen, Registrations(InTurn(published)))
      modifies directory, directory.driver, directory.pool, directory.observer
      ensures Ready() && Same(was)
      ensures entry == null ==> !was.OpensAll(cfg)
      ensures entry == null ==>
        directory.entries == old(directory.entries) && directory.pool.issued == old(directory.pool.issued)
      ensures entry != null ==>
        && Halfway(was, directory.entries, cfg, todo - {name}, published + [OpenedSource(name, entry)])
        && entry.client == old(directory.pool.issued) && directory.pool.issued == entry.client + 1
        && fresh(entry) && fresh(entry.throttle)
      ensures directory.pool.closes == old(directory.pool.closes)
      ensures HeardSince(seen, Registrations(InTurn(
        if entry == null then published else published + [OpenedSource(name, entry)])))
    {
      NotYet(was, Now(), cfg, todo, published, name);
      ghost var before := directory.entries;
      entry := Attempt(name, todo[name]);
      if entry != null {
        HeardRegistration(seen, published, OpenedSource(name, entry));
        OneMore(was, before, cfg, todo, published, name, entry);
      }
    }

    static lemma NoneDone(was: Moment, cfg: map<Name, Config>)
      ensures Halfway(was, was.entries, cfg, cfg, [])
    {
    }

    static lemma AllDone(was: Moment, now: map<Name, DirectoryEntry>, cfg: map<Name, Config>,
                         published: seq<OpenedSource>)
      requires Halfway(was, now, cfg, map[], published) && "" !in cfg
      ensures Configured(was, now, cfg) && was.OpensAll(cfg)
    {
      StandingIn(now, published);
    }

    // The old sources as they were, and exactly the configured ones besides.
    static ghost predicate Configured(was: Moment, now: map<Name, DirectoryEntry>, cfg: map<Name, Config>) {
      && now.Keys == was.entries.Keys + cfg.Keys
      && (forall n :: n in was.entries ==> now[n] == was.entries[n])
      && (forall n :: n in cfg ==> now[n].Fits(cfg[n]))
    }

    static lemma {:induction false} TurnsDistinct(entries: map<Name, DirectoryEntry>, published: seq<OpenedSource>)
      requires Standing(entries, published)
      ensures forall n :: n in InTurn(published) <==> n in Names(published)
      ensures forall i, j :: 0 <= i < j < |published| ==> InTurn(published)[i] != InTurn(published)[j]
    {
      if published != [] {
        var init := published[..|published| - 1];
        TurnsDistinct(entries, init);
        assert InTurn(published) == InTurn(init) + [published[|published| - 1].name];
        assert forall i :: 0 <= i < |init| ==> InTurn(init)[i] in InTurn(init);
      }
    }

    // Names of the configuration, each once; with `all`, all of them.
    static ghost predicate Turns(turns: seq<Name>, cfg: map<Name, Config>, all: bool) {
      && (forall i, j :: 0 <= i < j < |turns| ==> turns[i] != turns[j])
      && (forall n :: n in turns ==> n in cfg)
      && (all ==> forall n :: n in cfg ==> n in turns)
    }

    static lemma TurnsTaken(was: Moment, now: map<Name, DirectoryEntry>, cfg: map<Name, Config>,
                            todo: map<Name, Config>, published: seq<OpenedSource>)
      requires Halfway(was, now, cfg, todo, published)
      ensures Turns(InTurn(published), cfg, todo == map[])
    {
      TurnsDistinct(now, published);
    }

    // The loop: source after source, up to the first that cannot be opened.
    method PublishAll(ghost was: Moment, cfg: map<Name, Config>)
        returns (ok: bool, published: seq<OpenedSource>, ghost todo: map<Name, Config>)
      requires Ready() && was == Now()
      modifies directory, directory.driver, directory.pool, directory.observer
      ensures Ready() && Same(was) && Halfway(was, directory.entries, cfg, todo, published)
      ensures if ok then todo == map[] else !was.OpensAll(cfg)
      ensures forall p :: p in published ==> fresh(p.entry) && fresh(p.entry.throttle)
      ensures directory.pool.closes == old(directory.pool.closes)
      ensures Accounted(published, old(directory.pool.issued), directory.pool.issued)
      ensures HeardSince(old(directory.Seen()), Registrations(InTurn(published)))
    {
      ghost var first, seen := directory.pool.issued, directory.Seen();
      var rest := cfg;
      ok, published, todo := true, [], rest;
      NoneDone(was, cfg);
      assert HeardSince(seen, Registrations(InTurn(published)));
      while rest != map[]
        invariant Ready() && Same(was) && Halfway(was, directory.entries, cfg, rest, published)
        invariant directory.pool.closes == old(directory.pool.closes)
        invariant Accounted(published, first, directory.pool.issued)
        invariant HeardSince(seen, Registrations(InTurn(published)))
        invariant forall p :: p in published ==> fresh(p.entry) && fresh(p.entry.throttle)
        decreases rest.Keys
      {
        var name :| name in rest;
        var entry := Advance(was, seen, cfg, rest, published, name);
        if entry == null {
          return false, published, rest;
        }
        OneMoreClient(published, name, entry, first);
        published := published + [OpenedSource(name, entry)];
        rest := rest - {name};
      }
      todo := rest;
    }

    method PublishOrUndo(cfg: map<Name, Config>) returns (ok: bool, ghost turns: seq<Name>)
      requires Ready() && "" !in cfg
      modifies directory, directory.driver, directory.pool, directory.observer
      ensures Ready() && directory.closed == old(directory.closed)
      ensures ok <==> old(Now()).OpensAll(cfg)
      ensures ok ==>
        Configured(old(Now()), directory.entries, cfg) && directory.pool.closes == old(directory.pool.closes)
      ensures !ok ==>
        && directory.entries == old(directory.entries)
        && directory.pool.closes ==
           old(directory.pool.closes) + Issued(old(directory.pool.issued), directory.pool.issued)
      ensures Turns(turns, cfg, ok)
      ensures ok ==> HeardSince(old(directory.Seen()), Registrations(turns))
      ensures !ok ==> HeardSince(old(directory.Seen()), Registrations(turns) + Removals(turns))
    {
      ghost var was, seen := Now(), directory.Seen();
      var published;
      ghost var todo;
      ok, published, todo := PublishAll(was, cfg);
      turns := InTurn(published);
      TurnsTaken(was, directory.entries, cfg, todo, published);
      if !ok {
        Undo(was, seen, cfg, todo, published);
        return;
      }
      AllDone(was, directory.entries, cfg, published);
    }

    // `turns`: the names published, in turn.
    method Configure(cfg: map<Name, Config>) returns (ok: bool, ghost turns: seq<Name>)
      requires Ready()
      modifies directory, directory.driver, directory.pool, directory.observer
      ensures Ready() && directory.closed == old(directory.closed)
      ensures ok <==> old(Now()).OpensAll(cfg)
      ensures ok <==> "" !in cfg && forall n :: n in cfg ==>
        && !old(directory.closed) && n !in old(directory.entries)
        && cfg[n].driver in old(directory.driver.builders)
        && old(directory.driver.builders)[cfg[n].driver](cfg[n])
      ensures ok ==>
        Configured(old(Now()), directory.entries, cfg) && directory.pool.closes == old(directory.pool.closes)
      ensures ok ==>
        && directory.entries.Keys == old(directory.entries).Keys + cfg.Keys
        && (forall n :: n in old(directory.entries) ==> directory.entries[n] == old(directory.entries)[n])
        && (forall n :: n in cfg ==> var e := directory.entries[n];
              && e.driver == cfg[n].driver && e.maxConcurrency == cfg[n].limit
              && e.throttle.capacity == if cfg[n].limit > 0 then cfg[n].limit else 0)
      ensures !ok ==>
        && directory.entries == old(directory.entries)
        && directory.pool.closes ==
           old(directory.pool.closes) + Issued(old(directory.pool.issued), directory.pool.issued)
      ensures Turns(turns, cfg, ok)
      ensures ok ==> HeardSince(old(directory.Seen()), Registrations(turns))
      ensures !ok ==> HeardSince(old(directory.Seen()), Registrations(turns) + Removals(turns))
    {
      if "" in cfg {
        return false, [];
      }
      ok, turns := PublishOrUndo(cfg);
    }
  }
}
