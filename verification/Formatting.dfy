// What render makes of an import block: format.Source sorts each run of successive
// import lines by path and name and drops a line that equals the next.
module Formatting {
  import opened Sorting
  import opened Aliases
  import opened Importing

  predicate LineBefore(a: ImportView, b: ImportView) {
    Before(a.path, b.path) || (a.path == b.path && Before(a.alias, b.alias))
  }

  // The sort is stable: a line goes behind its equals.
  function Placed(run: seq<ImportView>, iv: ImportView): seq<ImportView> {
    if run == [] then [iv]
    else if LineBefore(iv, run[|run| - 1]) then Placed(run[..|run| - 1], iv) + [run[|run| - 1]]
    else run + [iv]
  }

  function SortLines(run: seq<ImportView>): seq<ImportView> {
    if run == [] then [] else Placed(SortLines(run[..|run| - 1]), run[|run| - 1])
  }

  function Collapse(run: seq<ImportView>): seq<ImportView> {
    if |run| <= 1 then run
    else if run[0] == run[1] then Collapse(run[1..])
    else [run[0]] + Collapse(run[1..])
  }

  function Formatted(run: seq<ImportView>): seq<ImportView> { Collapse(SortLines(run)) }

  predicate InLine(run: seq<ImportView>) {
    forall i, j :: 0 <= i < j < |run| ==> !LineBefore(run[j], run[i])
  }

  predicate Rising(run: seq<ImportView>) {
    forall i, j :: 0 <= i < j < |run| ==> LineBefore(run[i], run[j])
  }

  lemma LineOneWay(a: ImportView, b: ImportView)
    ensures !LineBefore(a, a)
    ensures LineBefore(a, b) ==> !LineBefore(b, a)
    ensures a != b ==> LineBefore(a, b) || LineBefore(b, a)
  {
    OneWay(a.path, a.path);
    OneWay(a.alias, a.alias);
    OneWay(a.path, b.path);
    OneWay(a.alias, b.alias);
  }

  lemma LineTransitive(a: ImportView, b: ImportView, c: ImportView)
    requires LineBefore(a, b) && LineBefore(b, c)
    ensures LineBefore(a, c)
  {
    if Before(a.path, b.path) && Before(b.path, c.path) {
      Transitive(a.path, b.path, c.path);
    } else if a.path == b.path == c.path {
      Transitive(a.alias, b.alias, c.alias);
    }
  }

  lemma {:induction false} PlacedKeeps(run: seq<ImportView>, iv: ImportView)
    requires InLine(run)
    ensures InLine(Placed(run, iv))
    ensures forall x :: x in Placed(run, iv) <==> x == iv || x in run
  {
    if run != [] {
      var init, last := run[..|run| - 1], run[|run| - 1];
      assert run == init + [last];
      if LineBefore(iv, last) {
        PlacedKeeps(init, iv);
        forall x | x in Placed(init, iv) ensures !LineBefore(last, x) {
          LineOneWay(iv, last);
        }
      } else {
        forall x | x in init ensures !LineBefore(iv, x) {
          NotBefore(x, last, iv);
        }
      }
    }
  }

  lemma NotBefore(x: ImportView, last: ImportView, iv: ImportView)
    requires !LineBefore(last, x) && !LineBefore(iv, last)
    ensures !LineBefore(iv, x)
  {
    LineOneWay(x, last);
    LineOneWay(last, iv);
    if LineBefore(iv, x) {
      if x != last { LineTransitive(iv, x, last); }
    }
  }

  lemma {:induction false} SortKeeps(run: seq<ImportView>)
    ensures InLine(SortLines(run))
    ensures forall x :: x in SortLines(run) <==> x in run
  {
    if run != [] {
      var init, last := run[..|run| - 1], run[|run| - 1];
      SortKeeps(init);
      PlacedKeeps(SortLines(init), last);
      assert run == init + [last];
    }
  }

  lemma {:induction false} CollapseKeeps(run: seq<ImportView>)
    requires InLine(run)
    ensures Rising(Collapse(run))
    ensures forall x :: x in Collapse(run) <==> x in run
  {
    if |run| > 1 {
      CollapseKeeps(run[1..]);
      assert run == [run[0]] + run[1..];
      if run[0] == run[1] {
        assert run[1] in run[1..];
      } else {
        forall x | x in run[1..] ensures LineBefore(run[0], x) {
          Behind(run, x);
        }
      }
    }
  }

  // In a sorted run the first line, where it is not repeated next, precedes all the others.
  lemma Behind(run: seq<ImportView>, x: ImportView)
    requires InLine(run) && |run| > 1 && run[0] != run[1] && x in run[1..]
    ensures LineBefore(run[0], x)
  {
    var j :| 1 <= j < |run| && run[j] == x;
    LineOneWay(run[0], run[1]);
    LineOneWay(run[1], x);
    if x != run[1] {
      assert !LineBefore(run[j], run[1]);
      LineTransitive(run[0], run[1], x);
    }
  }

  // Formatting keeps every line, and keeps it once.
  lemma FormattedKeeps(run: seq<ImportView>)
    ensures Rising(Formatted(run))
    ensures var lines := Formatted(run); forall i, j :: 0 <= i < j < |lines| ==>
      Before(lines[i].path, lines[j].path)
      || (lines[i].path == lines[j].path && Before(lines[i].alias, lines[j].alias))
    ensures forall x :: x in Formatted(run) <==> x in run
  {
    SortKeeps(run);
    CollapseKeeps(SortLines(run));
  }

  ghost predicate Distinct(block: seq<ImportView>) {
    forall i, j :: 0 <= i < j < |block| ==> block[i].alias != block[j].alias
  }

  // Lines that mean one thing each have different names once they are formatted.
  lemma FormattedDistinct(run: seq<ImportView>)
    requires forall x, y :: x in run && y in run && x.alias == y.alias ==> x == y
    ensures Distinct(Formatted(run))
  {
    FormattedKeeps(run);
    var lines := Formatted(run);
    forall i, j | 0 <= i < j < |lines| ensures lines[i].alias != lines[j].alias {
      LineOneWay(lines[i], lines[j]);
      assert lines[i] in lines && lines[j] in lines;
    }
  }

  const CONTEXT_LINE := ImportView(CONTEXT, "context")

  // The imports of a written backend stub: context on its own, then one run of the
  // backend's package and the packages of the interface.
  function StubImports(v: BackendView, domainBlock: seq<ImportView>): seq<ImportView> {
    [CONTEXT_LINE] + Formatted([ImportView(v.path, v.alias)] + domainBlock)
  }

  // The imports of the generated file: context, then dbstore and the whole block.
  function GenImports(block: seq<ImportView>): seq<ImportView> {
    [CONTEXT_LINE] + Formatted([ImportView(DBSTORE, "dbstore")] + block)
  }

  lemma {:induction false} ChosenIn(block: seq<ImportView>, domain: map<Path, Alias>)
    ensures forall iv :: iv in Chosen(block, domain) <==> iv in block && iv.path in domain
  {
    if block != [] {
      var init := block[..|block| - 1];
      ChosenIn(init, domain);
      assert block == init + [block[|block| - 1]];
    }
  }

  // A line of a run drawn from the block, or one that the block agrees with.
  predicate Agrees(block: seq<ImportView>, iv: ImportView) { Binds(block, iv.alias, iv.path) }

  lemma NoneReserved(block: seq<ImportView>)
    requires forall p :: p in PathsOf(block) ==> !Reserves(p)
    ensures forall iv :: iv in block ==> !Reserves(iv.path)
  {
    forall i | 0 <= i < |block| ensures !Reserves(block[i].path) {
      assert PathsOf(block)[i] in PathsOf(block);
    }
  }

  lemma AgreeingDistinct(block: seq<ImportView>, run: seq<ImportView>)
    requires Clear(block) && forall iv :: iv in run ==> Agrees(block, iv) && iv.path != CONTEXT
    ensures Distinct([CONTEXT_LINE] + Formatted(run))
  {
    forall x, y | x in run && y in run && x.alias == y.alias ensures x == y {
      BindsOne(block, x.alias, x.path, y.path);
    }
    FormattedDistinct(run);
    FormattedKeeps(run);
    forall iv | iv in run ensures iv.alias != "context" {
      if iv.alias == "context" {
        BindsOne(block, iv.alias, iv.path, CONTEXT);
      }
    }
    assert forall i :: 0 <= i < |Formatted(run)| ==> Formatted(run)[i] in run;
  }

  lemma StubLines(block: seq<ImportView>, domain: map<Path, Alias>, v: BackendView)
    ensures forall iv :: iv in StubImports(v, Chosen(block, domain)) <==>
      iv == CONTEXT_LINE || iv == ImportView(v.path, v.alias) || (iv in block && iv.path in domain)
  {
    ChosenIn(block, domain);
    FormattedKeeps([ImportView(v.path, v.alias)] + Chosen(block, domain));
  }

  // A written stub imports what its template lists, each line once, and no two
  // packages share a name, whether or not the interface mentions the backend's own
  // package. The one exception would be a backend whose package is context itself,
  // which resolveBackend refuses.
  lemma StubImportsDistinct(block: seq<ImportView>, domain: map<Path, Alias>, v: BackendView)
    requires Clear(block) && Binds(block, v.alias, v.path)
    requires forall p :: p in PathsOf(block) ==> !Reserves(p)
    ensures Distinct(StubImports(v, Chosen(block, domain))) <==> v.path != CONTEXT
    ensures forall iv :: iv in StubImports(v, Chosen(block, domain)) <==>
      iv == CONTEXT_LINE || iv == ImportView(v.path, v.alias) || (iv in block && iv.path in domain)
  {
    var run := [ImportView(v.path, v.alias)] + Chosen(block, domain);
    ChosenIn(block, domain);
    StubLines(block, domain, v);
    FormattedKeeps(run);
    NoneReserved(block);
    if v.path == CONTEXT {
      ContextTwice(block, v, run);
    } else {
      AgreeingDistinct(block, run);
    }
  }

  // Of the packages the interface mentions a written stub imports every one, under the
  // name its types were written with, but for dbstore itself, which the template forgets.
  lemma StubImportsComplete(block: seq<ImportView>, domain: map<Path, Alias>, v: BackendView, p: Path)
    requires Tidy(domain) && Clear(block) && Binds(block, v.alias, v.path)
    requires forall q :: q in PathsOf(block) ==> !Reserves(q)
    requires p in domain && Binds(block, domain[p], p)
    ensures ImportView(p, domain[p]) in StubImports(v, Chosen(block, domain)) <==> p != DBSTORE || v.path == DBSTORE
  {
    StubLines(block, domain, v);
    NoneReserved(block);
  }

  lemma ContextTwice(block: seq<ImportView>, v: BackendView, run: seq<ImportView>)
    requires v.path == CONTEXT && Binds(block, v.alias, v.path) && ImportView(v.path, v.alias) in Formatted(run)
    requires forall iv :: iv in block ==> iv.path != CONTEXT
    ensures !Distinct([CONTEXT_LINE] + Formatted(run))
  {
    var i :| 0 <= i < |Formatted(run)| && Formatted(run)[i] == ImportView(v.path, v.alias);
    var all := [CONTEXT_LINE] + Formatted(run);
    assert v.alias == "context";
    assert all[0].alias == all[i + 1].alias;
  }

  // The same for the generated file.
  lemma GenImportsDistinct(block: seq<ImportView>)
    requires Clear(block) && forall p :: p in PathsOf(block) ==> !Reserves(p)
    ensures Distinct(GenImports(block))
    ensures forall iv :: iv in GenImports(block) <==>
      iv == CONTEXT_LINE || iv == ImportView(DBSTORE, "dbstore") || iv in block
  {
    var run := [ImportView(DBSTORE, "dbstore")] + block;
    FormattedKeeps(run);
    NoneReserved(block);
    AgreeingDistinct(block, run);
  }
}
