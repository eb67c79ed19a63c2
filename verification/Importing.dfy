// The import block of a generated file: every package once, in order, under a
// name that means it and nothing else.
module Importing {
  import opened Basics
  import opened Sorting
  import opened Aliases

  datatype Backend = Backend(name: string, path: Path, pkgName: string)

  datatype BackendView = BackendView(name: string, path: Path, alias: Alias)

  datatype ImportView = ImportView(path: Path, alias: Alias)

  // Whether a type of this package is written without a qualifier.
  predicate Plain(own: Path, pkg: Option<Package>) { pkg.None? || pkg.value.path == own }

  predicate AllNamed(met: seq<Option<Package>>) {
    forall i :: 0 <= i < |met| && met[i].Some? ==> Named(met[i].value.name, met[i].value.path)
  }

  // The packages parseInterface meets, in the order it meets them. What it wrote
  // for each of them stays true to the end.
  method ParseImports(own: Path, met: seq<Option<Package>>) returns (imports: map<Path, Alias>, aliases: seq<Alias>)
    requires AllNamed(met)
    ensures Tidy(imports)
    ensures forall p :: p in imports <==> exists i :: 0 <= i < |met| && !Plain(own, met[i]) && met[i].value.path == p
    ensures |aliases| == |met|
    ensures forall i :: 0 <= i < |met| ==>
      aliases[i] == if Plain(own, met[i]) then "" else imports[met[i].value.path]
  {
    var table := new ImportTable();
    aliases := [];
    for n := 0 to |met|
      invariant fresh(table) && Sound(table.imports, table.used) && |aliases| == n
      invariant forall p :: p in table.imports <==>
        exists i :: 0 <= i < n && !Plain(own, met[i]) && met[i].value.path == p
      invariant forall i :: 0 <= i < n ==>
        aliases[i] == if Plain(own, met[i]) then "" else table.imports[met[i].value.path]
    {
      var alias := table.Qualify(own, met[n]);
      aliases := aliases + [alias];
    }
    imports := table.imports;
    SoundTidy(imports, table.used);
  }

  // The backends whose names come up for the first time.
  function FirstByName(backends: seq<Backend>): seq<Backend> {
    if backends == [] then []
    else
      var first, last := FirstByName(backends[..|backends| - 1]), backends[|backends| - 1];
      if last.name in NamesOf(first) then first else first + [last]
  }

  function NamesOf(backends: seq<Backend>): seq<string> {
    seq(|backends|, i requires 0 <= i < |backends| => backends[i].name)
  }

  // What `alias` means in a file with this import block.
  predicate Binds(block: seq<ImportView>, alias: Alias, path: Path) {
    (alias in RESERVED && RESERVED[alias] == path) || ImportView(path, alias) in block
  }

  // No two packages of the block share a name, and none takes a reserved one.
  ghost predicate Clear(block: seq<ImportView>) {
    && (forall i, j :: 0 <= i < j < |block| ==> block[i].alias != block[j].alias)
    && (forall i :: 0 <= i < |block| ==> block[i].alias !in RESERVED)
  }

  function PathsOf(block: seq<ImportView>): seq<Path> {
    seq(|block|, i requires 0 <= i < |block| => block[i].path)
  }

  lemma BindsOne(block: seq<ImportView>, alias: Alias, p: Path, q: Path)
    requires Clear(block) && Binds(block, alias, p) && Binds(block, alias, q)
    ensures p == q
  {
    if ImportView(p, alias) in block && ImportView(q, alias) in block {
      var i :| 0 <= i < |block| && block[i] == ImportView(p, alias);
      var j :| 0 <= j < |block| && block[j] == ImportView(q, alias);
      assert i == j;
    }
  }

  ghost predicate Seeded(domain: map<Path, Alias>, todo: map<Path, Alias>, imports: map<Path, Alias>) {
    && (forall p :: p in todo ==> p in domain && todo[p] == domain[p])
    && (forall p :: p in imports <==> p == DBSTORE || (p in domain && p !in todo))
    && (forall p :: p in imports ==> imports[p] == if p in domain then domain[p] else "dbstore")
  }

  // The table buildView starts from, filled in whatever order the map yields.
  method Seed(domain: map<Path, Alias>) returns (table: ImportTable)
    requires Tidy(domain)
    ensures fresh(table) && Sound(table.imports, table.used) && table.Now() == SeedOf(domain)
  {
    table := new ImportTable();
    table.imports := map[DBSTORE := "dbstore"];
    var todo := domain;
    assert DBSTORE in domain ==> domain[DBSTORE] in RESERVED;
    while todo != map[]
      invariant fresh(table) && Sound(table.imports, table.used) && Seeded(domain, todo, table.imports)
      invariant forall a :: a in table.used ==> a in RESERVED || a in domain.Values
      decreases todo.Keys
    {
      var p :| p in todo;
      assert domain[p] in domain.Values;
      SeedOne(domain, todo, table.imports, table.used, p);
      table.imports := table.imports[p := todo[p]];
      table.used := table.used[todo[p] := p];
      todo := todo - {p};
    }
    SeedDone(domain, table.imports, table.used);
  }

  // The same table, said at once.
  ghost function SeedOf(domain: map<Path, Alias>): Table {
    Table(map[DBSTORE := "dbstore"] + domain,
          RESERVED + map a | a in domain.Values :: PathOf(domain, a))
  }

  ghost function PathOf(domain: map<Path, Alias>, alias: Alias): Path
    requires alias in domain.Values
  {
    var p :| p in domain && domain[p] == alias;
    p
  }

  lemma SeedDone(domain: map<Path, Alias>, imports: map<Path, Alias>, used: map<Alias, Path>)
    requires Tidy(domain) && Sound(imports, used) && Seeded(domain, map[], imports)
    requires forall a :: a in used ==> a in RESERVED || a in domain.Values
    ensures Table(imports, used) == SeedOf(domain)
  {
    assert imports == map[DBSTORE := "dbstore"] + domain;
    SeedUsed(domain, imports, used);
  }

  lemma SeedUsed(domain: map<Path, Alias>, imports: map<Path, Alias>, used: map<Alias, Path>)
    requires Tidy(domain) && Sound(imports, used) && Seeded(domain, map[], imports)
    requires forall a :: a in used ==> a in RESERVED || a in domain.Values
    ensures used == SeedOf(domain).used
  {
    var seed := SeedOf(domain).used;
    forall a ensures (a in used <==> a in seed) && (a in used ==> used[a] == seed[a]) {
      SeedUsedAt(domain, imports, used, a);
    }
  }

  lemma SeedUsedAt(domain: map<Path, Alias>, imports: map<Path, Alias>, used: map<Alias, Path>, a: Alias)
    requires Tidy(domain) && Sound(imports, used) && Seeded(domain, map[], imports)
    requires a in used ==> a in RESERVED || a in domain.Values
    ensures var seed := SeedOf(domain).used; (a in used <==> a in seed) && (a in used ==> used[a] == seed[a])
  {
    if a in domain.Values {
      assert PathOf(domain, a) in imports;
    }
  }

  lemma SeedOne(domain: map<Path, Alias>, todo: map<Path, Alias>, imports: map<Path, Alias>,
                used: map<Alias, Path>, p: Path)
    requires Tidy(domain) && Sound(imports, used) && Seeded(domain, todo, imports) && p in todo
    ensures Sound(imports[p := todo[p]], used[todo[p] := p])
    ensures Seeded(domain, todo - {p}, imports[p := todo[p]])
  {
    SoundPut(imports, used, p, todo[p]);
  }

  // The backends' packages join the table; a name seen before is passed over.
  method AddBackends(table: ImportTable, backends: seq<Backend>) returns (views: seq<BackendView>)
    requires Sound(table.imports, table.used)
    requires forall i :: 0 <= i < |backends| ==> Named(backends[i].pkgName, backends[i].path)
    modifies table
    ensures Sound(table.imports, table.used)
    ensures table.Now() == GrownBy(old(table.Now()), backends) && views == ViewsOf(old(table.Now()), backends)
  {
    views := [];
    var seen := {};
    for n := 0 to |backends|
      invariant Sound(table.imports, table.used)
      invariant forall x :: x in seen <==> x in NamesOf(FirstByName(backends[..n]))
      invariant table.Now() == GrownBy(old(table.Now()), backends[..n])
      invariant views == ViewsOf(old(table.Now()), backends[..n])
    {
      var b := backends[n];
      assert backends[..n + 1][..n] == backends[..n];
      if b.name !in seen {
        seen := seen + {b.name};
        var alias := table.Import(b.pkgName, b.path);
        views := views + [BackendView(b.name, b.path, alias)];
        MoreNames(FirstByName(backends[..n]), b);
      }
    }
    assert backends[..|backends|] == backends;
  }

  // What the backends' packages do to the table, and what is shown of them.
  lemma {:induction false} AllShown(t: Table, backends: seq<Backend>)
    requires Sound(t.imports, t.used)
    requires forall i :: 0 <= i < |backends| ==> Named(backends[i].pkgName, backends[i].path)
    ensures Shown(backends, ViewsOf(t, backends), GrownBy(t, backends).imports)
    ensures Sound(GrownBy(t, backends).imports, GrownBy(t, backends).used)
    ensures forall p :: p in GrownBy(t, backends).imports <==> p in t.imports || p in ViewPaths(ViewsOf(t, backends))
    ensures forall p :: p in t.imports ==> GrownBy(t, backends).imports[p] == t.imports[p]
  {
    if backends != [] {
      var init, last := backends[..|backends| - 1], backends[|backends| - 1];
      AllShown(t, init);
      assert backends == init + [last];
      if last.name !in NamesOf(FirstByName(init)) {
        OneShown(GrownBy(t, init), init, ViewsOf(t, init), last);
      }
    }
  }

  lemma OneShown(t: Table, init: seq<Backend>, views: seq<BackendView>, last: Backend)
    requires Sound(t.imports, t.used) && Shown(init, views, t.imports) && Named(last.pkgName, last.path)
    requires last.name !in NamesOf(FirstByName(init))
    ensures var grown := Grown(t, last.pkgName, last.path);
      var more := views + [BackendView(last.name, last.path, AliasIn(grown, last.path))];
      && Sound(grown.imports, grown.used) && Shown(init + [last], more, grown.imports)
      && (forall p :: p in grown.imports <==> p in t.imports || p == last.path)
      && (forall p :: p in t.imports ==> grown.imports[p] == t.imports[p])
      && (forall p :: p in ViewPaths(more) <==> p in ViewPaths(views) || p == last.path)
  {
    GrownSound(t, last.pkgName, last.path);
    MorePaths(views, BackendView(last.name, last.path, AliasIn(Grown(t, last.pkgName, last.path), last.path)));
    assert (init + [last])[..|init|] == init;
  }

  ghost function GrownBy(t: Table, backends: seq<Backend>): Table {
    if backends == [] then t
    else
      var before, last := GrownBy(t, backends[..|backends| - 1]), backends[|backends| - 1];
      if last.name in NamesOf(FirstByName(backends[..|backends| - 1])) then before
      else Grown(before, last.pkgName, last.path)
  }

  ghost function ViewsOf(t: Table, backends: seq<Backend>): seq<BackendView> {
    if backends == [] then []
    else
      var init, last := backends[..|backends| - 1], backends[|backends| - 1];
      if last.name in NamesOf(FirstByName(init)) then ViewsOf(t, init)
      else
        var grown := Grown(GrownBy(t, init), last.pkgName, last.path);
        ViewsOf(t, init) + [BackendView(last.name, last.path, AliasIn(grown, last.path))]
  }

  function AliasIn(t: Table, path: Path): Alias { if path in t.imports then t.imports[path] else "" }

  function ViewPaths(views: seq<BackendView>): seq<Path> {
    seq(|views|, i requires 0 <= i < |views| => views[i].path)
  }

  lemma MorePaths(views: seq<BackendView>, v: BackendView)
    ensures forall p :: p in ViewPaths(views + [v]) <==> p in ViewPaths(views) || p == v.path
  {
    assert ViewPaths(views + [v]) == ViewPaths(views) + [v.path];
  }

  lemma MoreNames(backends: seq<Backend>, b: Backend)
    ensures forall x :: x in NamesOf(backends + [b]) <==> x in NamesOf(backends) || x == b.name
  {
    assert NamesOf(backends + [b]) == NamesOf(backends) + [b.name];
  }

  // One view for each backend name, first come first served, with the alias of its package.
  ghost predicate Shown(backends: seq<Backend>, views: seq<BackendView>, imports: map<Path, Alias>) {
    var first := FirstByName(backends);
    && |views| == |first|
    && forall i :: 0 <= i < |views| ==>
      && views[i].name == first[i].name && views[i].path == first[i].path
      && views[i].path in imports && views[i].alias == imports[views[i].path]
  }

  // The table as an import block, sorted by path, and the part of it that the
  // interface itself brought in.
  method List(imports: map<Path, Alias>, ghost used: map<Alias, Path>, domain: map<Path, Alias>)
      returns (block: seq<ImportView>, domainBlock: seq<ImportView>)
    requires Sound(imports, used)
    ensures Clear(block) && Ascending(PathsOf(block))
    ensures forall p :: p in PathsOf(block) <==> p in imports && !Reserves(p)
    ensures forall p :: p in imports ==> Binds(block, imports[p], p)
    ensures block == BlockOf(imports) && Part(block, domain, domainBlock)
  {
    SoundTidy(imports, used);
    var paths := Sorted(set p | p in imports && !Reserves(p));
    block, domainBlock := [], [];
    for n := 0 to |paths|
      invariant |block| == n
      invariant forall i :: 0 <= i < n ==> paths[i] in imports && block[i] == ImportView(paths[i], imports[paths[i]])
      invariant Part(block, domain, domainBlock)
    {
      assert paths[n] in paths;
      var iv := ImportView(paths[n], imports[paths[n]]);
      PartMore(block, domain, domainBlock, iv);
      block := block + [iv];
      if paths[n] in domain {
        domainBlock := domainBlock + [iv];
      }
    }
    assert PathsOf(block) == paths;
    Lists(imports, paths, block);
    BlockIs(imports, paths, block);
  }

  // The same block, said at once.
  ghost function BlockOf(imports: map<Path, Alias>): seq<ImportView> {
    var paths := InOrder(set p | p in imports && !Reserves(p));
    seq(|paths|, i requires 0 <= i < |paths| =>
      ImportView(paths[i], if paths[i] in imports then imports[paths[i]] else ""))
  }

  lemma BlockIs(imports: map<Path, Alias>, paths: seq<Path>, block: seq<ImportView>)
    requires paths == InOrder(set p | p in imports && !Reserves(p)) && |block| == |paths|
    requires forall i :: 0 <= i < |paths| ==> paths[i] in imports && block[i] == ImportView(paths[i], imports[paths[i]])
    ensures block == BlockOf(imports)
  {
  }

  // The views whose path the interface brought in, in the same order.
  ghost predicate Part(block: seq<ImportView>, domain: map<Path, Alias>, part: seq<ImportView>) {
    part == Chosen(block, domain)
  }

  function Chosen(block: seq<ImportView>, domain: map<Path, Alias>): seq<ImportView> {
    if block == [] then []
    else
      var init, last := Chosen(block[..|block| - 1], domain), block[|block| - 1];
      if last.path in domain then init + [last] else init
  }

  lemma PartMore(block: seq<ImportView>, domain: map<Path, Alias>, part: seq<ImportView>, iv: ImportView)
    requires Part(block, domain, part)
    ensures Part(block + [iv], domain, part + if iv.path in domain then [iv] else [])
  {
    assert (block + [iv])[..|block|] == block;
  }

  lemma Lists(imports: map<Path, Alias>, paths: seq<Path>, block: seq<ImportView>)
    requires Tidy(imports) && Ascending(paths) && |block| == |paths|
    requires forall p :: p in paths <==> p in imports && !Reserves(p)
    requires forall i :: 0 <= i < |paths| ==> paths[i] in imports && block[i] == ImportView(paths[i], imports[paths[i]])
    ensures Clear(block) && forall p :: p in imports ==> Binds(block, imports[p], p)
  {
    forall i, j | 0 <= i < j < |block| ensures block[i].alias != block[j].alias {
      OneWay(paths[i], paths[j]);
    }
    forall i | 0 <= i < |block| ensures block[i].alias !in RESERVED {
      assert paths[i] in paths;
    }
    forall p | p in imports && !Reserves(p) ensures ImportView(p, imports[p]) in block {
      var i :| 0 <= i < |paths| && paths[i] == p;
      assert block[i] == ImportView(p, imports[p]);
    }
  }

  // buildView's import table. `domain` is what ParseImports returns.
  method BuildImports(domain: map<Path, Alias>, backends: seq<Backend>)
      returns (views: seq<BackendView>, block: seq<ImportView>, domainBlock: seq<ImportView>)
    requires Tidy(domain)
    requires forall i :: 0 <= i < |backends| ==> Named(backends[i].pkgName, backends[i].path)
    ensures Clear(block) && Ascending(PathsOf(block)) && Part(block, domain, domainBlock)
    ensures views == ViewsOf(SeedOf(domain), backends)
    ensures block == BlockOf(GrownBy(SeedOf(domain), backends).imports)
    ensures |views| == |FirstByName(backends)|
    ensures forall i :: 0 <= i < |views| ==>
      && views[i].name == FirstByName(backends)[i].name && views[i].path == FirstByName(backends)[i].path
      && Binds(block, views[i].alias, views[i].path)
    ensures forall p :: p in domain ==> Binds(block, domain[p], p)
    ensures forall p :: p in PathsOf(block) <==> !Reserves(p) && (p in domain || p in ViewPaths(views))
  {
    var table := Seed(domain);
    AllShown(table.Now(), backends);
    views := AddBackends(table, backends);
    block, domainBlock := List(table.imports, table.used, domain);
  }
}
