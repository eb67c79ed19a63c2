// Import aliases: the names a generated file gives the packages it imports.
module Aliases {
  import opened Basics
  import opened Numerals

  type Path = string
  type Alias = string

  const CONTEXT: Path := "context"
  const DBSTORE: Path := "github.com/loykin/dbstore"

  // The names every generated file uses for itself.
  const RESERVED: map<Alias, Path> := map["context" := CONTEXT, "dbstore" := DBSTORE]

  // A package as go/types shows it.
  datatype Package = Package(name: string, path: Path)

  // The packages behind the reserved names do go by those names.
  predicate Named(name: string, path: Path) {
    (path == CONTEXT ==> name == "context") && (path == DBSTORE ==> name == "dbstore")
  }

  // name, name2, name3, ...
  function Candidate(preferred: string, k: nat): Alias {
    if k == 0 then preferred else preferred + Decimal(k + 1)
  }

  predicate Free(used: map<Alias, Path>, alias: Alias, path: Path) {
    alias !in used || used[alias] == path
  }

  // The first candidate that is free, and it is among the first |used| + 1.
  ghost predicate FirstFree(used: map<Alias, Path>, preferred: string, path: Path, alias: Alias, k: nat) {
    && k <= |used| && alias == Candidate(preferred, k) && Free(used, alias, path)
    && forall j: nat :: j < k ==> !Free(used, Candidate(preferred, j), path)
  }

  // The name with the least number from 2 on that is not another package's; without a
  // number it is one's.
  ghost predicate Numbered(used: map<Alias, Path>, preferred: string, path: Path, alias: Alias, i: nat) {
    && i >= 2 && alias == preferred + Decimal(i)
    && preferred in used && used[preferred] != path
    && forall j: nat :: 2 <= j < i ==> preferred + Decimal(j) in used && used[preferred + Decimal(j)] != path
  }

  lemma CandidatesDiffer(preferred: string, j: nat, k: nat)
    requires Candidate(preferred, j) == Candidate(preferred, k)
    ensures j == k
  {
    var n := |preferred|;
    if j > 0 && k > 0 {
      assert Candidate(preferred, j)[n..] == Decimal(j + 1) && Candidate(preferred, k)[n..] == Decimal(k + 1);
      DecimalInjective(j + 1, k + 1);
    }
  }

  ghost function Tried(preferred: string, k: nat): set<Alias> {
    if k == 0 then {} else Tried(preferred, k - 1) + {Candidate(preferred, k - 1)}
  }

  lemma {:induction false} TriedSize(preferred: string, k: nat, used: map<Alias, Path>)
    requires forall j: nat :: j < k ==> Candidate(preferred, j) in used
    ensures |Tried(preferred, k)| == k && Tried(preferred, k) <= used.Keys
    ensures forall a :: a in Tried(preferred, k) ==> exists j: nat :: j < k && a == Candidate(preferred, j)
  {
    if k > 0 {
      TriedSize(preferred, k - 1, used);
      if Candidate(preferred, k - 1) in Tried(preferred, k - 1) {
        var j: nat :| j < k - 1 && Candidate(preferred, k - 1) == Candidate(preferred, j);
        CandidatesDiffer(preferred, j, k - 1);
      }
    }
  }

  // A finite table cannot hold every candidate.
  lemma Pigeonhole(used: map<Alias, Path>, preferred: string, path: Path, k: nat)
    requires forall j: nat :: j < k ==> !Free(used, Candidate(preferred, j), path)
    ensures k <= |used|
  {
    TriedSize(preferred, k, used);
    SubsetSize(Tried(preferred, k), used.Keys);
  }

  lemma SomeFree(used: map<Alias, Path>, preferred: string, path: Path)
    ensures exists k: nat :: FirstFree(used, preferred, path, Candidate(preferred, k), k)
  {
    var k: nat := 0;
    while !Free(used, Candidate(preferred, k), path)
      invariant forall j: nat :: j < k ==> !Free(used, Candidate(preferred, j), path)
      decreases |used| - k
    {
      Pigeonhole(used, preferred, path, k + 1);
      k := k + 1;
    }
    Pigeonhole(used, preferred, path, k);
    assert FirstFree(used, preferred, path, Candidate(preferred, k), k);
  }

  // The alias the search settles on.
  ghost function Pick(used: map<Alias, Path>, preferred: string, path: Path): (alias: Alias)
    ensures Free(used, alias, path) && exists k: nat :: FirstFree(used, preferred, path, alias, k)
  {
    SomeFree(used, preferred, path);
    var k: nat :| FirstFree(used, preferred, path, Candidate(preferred, k), k);
    Candidate(preferred, k)
  }

  lemma PickOne(used: map<Alias, Path>, preferred: string, path: Path, alias: Alias, k: nat)
    requires FirstFree(used, preferred, path, alias, k)
    ensures alias == Pick(used, preferred, path)
  {
    var other := Pick(used, preferred, path);
    var j: nat :| FirstFree(used, preferred, path, other, j);
    assert Free(used, Candidate(preferred, j), path) && Free(used, Candidate(preferred, k), path);
    assert j == k;
  }

  // imports: path to alias; used: alias to path.
  ghost predicate Sound(imports: map<Path, Alias>, used: map<Alias, Path>) {
    && (forall a :: a in RESERVED ==> a in used && used[a] == RESERVED[a])
    && (forall p :: p in imports ==> imports[p] in used && used[imports[p]] == p)
    && (forall p :: p in imports && Reserves(p) ==> imports[p] in RESERVED && RESERVED[imports[p]] == p)
  }

  predicate Reserves(path: Path) { path == CONTEXT || path == DBSTORE }

  lemma SoundPut(imports: map<Path, Alias>, used: map<Alias, Path>, path: Path, alias: Alias)
    requires Sound(imports, used)
    requires forall q :: q in imports && imports[q] == alias ==> q == path
    requires alias in RESERVED ==> RESERVED[alias] == path
    requires Reserves(path) ==> alias in RESERVED
    ensures Sound(imports[path := alias], used[alias := path])
  {
  }

  // No alias for two paths, and no reserved name for another path.
  ghost predicate Tidy(imports: map<Path, Alias>) {
    && (forall p, q :: p in imports && q in imports && imports[p] == imports[q] ==> p == q)
    && (forall p :: p in imports && imports[p] in RESERVED ==> p == RESERVED[imports[p]])
    && (forall p :: p in imports && Reserves(p) ==> imports[p] in RESERVED && RESERVED[imports[p]] == p)
  }

  // Both sides of an import table, and what one more import makes of them.
  datatype Table = Table(imports: map<Path, Alias>, used: map<Alias, Path>)

  ghost function Grown(t: Table, name: string, path: Path): Table {
    if path in t.imports then t
    else
      var alias := Pick(t.used, name, path);
      Table(t.imports[path := alias], t.used[alias := path])
  }

  lemma GrownSound(t: Table, name: string, path: Path)
    requires Sound(t.imports, t.used) && Named(name, path)
    ensures Sound(Grown(t, name, path).imports, Grown(t, name, path).used)
  {
    if path !in t.imports {
      var alias := Pick(t.used, name, path);
      var k: nat :| FirstFree(t.used, name, path, alias, k);
      assert k > 0 ==> !Free(t.used, Candidate(name, 0), path);
      SoundPut(t.imports, t.used, path, alias);
    }
  }

  class ImportTable {
    var imports: map<Path, Alias>
    var used: map<Alias, Path>

    ghost function Now(): Table
      reads this
    {
      Table(imports, used)
    }

    constructor ()
      ensures imports == map[] && used == RESERVED && Sound(imports, used)
    {
      imports, used := map[], RESERVED;
    }

    // uniqueImportAlias. The loop has no bound of its own.
    method UniqueAlias(preferred: string, path: Path) returns (alias: Alias)
      modifies this`used
      ensures alias == Pick(old(used), preferred, path)
      ensures alias !in old(used) || old(used)[alias] == path
      ensures alias == preferred || exists i: nat :: Numbered(old(used), preferred, path, alias, i)
      ensures used == old(used)[alias := path]
    {
      if preferred !in used || used[preferred] == path {
        PickOne(used, preferred, path, preferred, 0);
        used := used[preferred := path];
        return preferred;
      }
      var i := 2;
      while true
        invariant i >= 2 && used == old(used)
        invariant forall j: nat :: j < i - 1 ==> !Free(used, Candidate(preferred, j), path)
        decreases |used| + 1 - i
      {
        Pigeonhole(used, preferred, path, i - 1);
        var candidate := preferred + Decimal(i);
        if candidate !in used || used[candidate] == path {
          PickOne(used, preferred, path, candidate, i - 1);
          assert Numbered(old(used), preferred, path, candidate, i) by {
            forall j: nat | 2 <= j < i ensures !Free(used, preferred + Decimal(j), path) {
              assert Candidate(preferred, j - 1) == preferred + Decimal(j);
            }
            assert !Free(used, Candidate(preferred, 0), path);
          }
          used := used[candidate := path];
          return candidate;
        }
        i := i + 1;
      }
    }

    // A path that has no alias yet gets one.
    method Import(name: string, path: Path) returns (alias: Alias)
      requires Sound(imports, used) && Named(name, path)
      modifies this
      ensures Sound(imports, used) && path in imports && imports[path] == alias
      ensures Now() == Grown(old(Now()), name, path)
    {
      if path in imports {
        return imports[path];
      }
      GrownSound(Now(), name, path);
      alias := UniqueAlias(name, path);
      imports := imports[path := alias];
    }

    // The qualifier closure: the interface's own package and builtins need no alias.
    method Qualify(own: Path, pkg: Option<Package>) returns (alias: Alias)
      requires Sound(imports, used) && (pkg.Some? ==> Named(pkg.value.name, pkg.value.path))
      modifies this
      ensures Sound(imports, used)
      ensures pkg.None? || pkg.value.path == own ==> alias == "" && imports == old(imports)
      ensures pkg.Some? && pkg.value.path != own ==>
        && pkg.value.path in imports && imports[pkg.value.path] == alias
        && imports == if pkg.value.path in old(imports) then old(imports) else old(imports)[pkg.value.path := alias]
    {
      if pkg.None? || pkg.value.path == own {
        return "";
      }
      alias := Import(pkg.value.name, pkg.value.path);
    }
  }

  lemma SoundTidy(imports: map<Path, Alias>, used: map<Alias, Path>)
    requires Sound(imports, used)
    ensures Tidy(imports)
  {
  }
}
