/** cleanup/orphan_files.py: the worklist over imports, and the mapping from dotted names to files. Parsing is
    outside: a file is given by its import statements, or by nothing when it does not parse. */
module OrphanFiles {
  import opened Common
  import opened PyText

  /** A resolved path; `parts` are the segments below the repository root when it lies inside. */
  datatype Path = Path(inRepo: bool, parts: seq<string>)

  /** `import a, b.c` and `from x.y import z`; a relative `from . import z` has no module. */
  datatype Import = Names(names: seq<string>) | From(mod: Option<string>)

  // ----- Dotted names -----

  /** `with_suffix("")`: the last dot counts unless it is the first or last character. */
  function LastDot(s: string): (n: nat)
    ensures n <= |s|
    ensures n > 0 ==> s[n - 1] == '.'
    ensures forall i | n <= i < |s| :: s[i] != '.'
  {
    if s == "" then 0 else if s[|s| - 1] == '.' then |s| else LastDot(s[..|s| - 1])
  }

  function Stem(name: string): string {
    var n := LastDot(name);
    if 1 < n < |name| then name[..n - 1] else name
  }

  /** The dotted name of a file below the root; `__init__.py` stands for its package. */
  function DottedName(p: Path): seq<string> {
    if p.parts == [] then []
    else
      var stem := Stem(p.parts[|p.parts| - 1]);
      p.parts[..|p.parts| - 1] + if stem == "__init__" then [] else [stem]
  }

  predicate Matches(mod: string, p: Path) {
    var parts, rel := Split(mod), DottedName(p);
    p.inRepo && rel != [] && |rel| >= |parts| && rel[|rel| - |parts|..] == parts
  }

  method ModuleToPaths(mod: string, allFiles: set<Path>) returns (candidates: seq<Path>)
    ensures forall p :: p in candidates <==> p in allFiles && Matches(mod, p)
  {
    candidates := [];
    var parts := Split(mod);
    var todo := allFiles;
    while todo != {}
      invariant todo <= allFiles
      invariant forall p :: p in candidates <==> p in allFiles - todo && Matches(mod, p)
      decreases |todo|
    {
      var f :| f in todo;
      todo := todo - {f};
      if !f.inRepo {
        continue;
      }
      var rel := DottedName(f);
      if rel == [] {
        continue;
      }
      if |rel| >= |parts| && rel[|rel| - |parts|..] == parts {
        candidates := candidates + [f];
      }
    }
  }

  function ImportedNames(nodes: seq<Import>): seq<string> {
    if nodes == [] then []
    else
      (match nodes[0]
       case Names(names) => names
       case From(None) => []
       case From(Some(m)) => [m])
      + ImportedNames(nodes[1..])
  }

  function CollectImports(source: Option<seq<Import>>): seq<string> {
    if source.None? then [] else ImportedNames(source.value)
  }

  // ----- Reachability -----

  /** The source tree: all files, the import statements of each, and the files that exist. */
  datatype Tree = Tree(allFiles: set<Path>, source: Path -> Option<seq<Import>>, existing: set<Path>)

  /** Some statement of the file names the module: `import ..., m, ...` or `from m import ...`. */
  ghost predicate Imports(source: Option<seq<Import>>, m: string) {
    source.Some? && exists i | 0 <= i < |source.value| :: Statement(source.value[i], m)
  }

  predicate Statement(node: Import, m: string) {
    node == From(Some(m)) || (node.Names? && m in node.names)
  }

  ghost predicate Edge(t: Tree, f: Path, g: Path) {
    g in t.allFiles && exists m :: Imports(t.source(f), m) && Matches(m, g)
  }

  /** What is collected is exactly what the statements name; a file that does not parse imports nothing. */
  lemma {:induction false} CollectedIff(source: Option<seq<Import>>, m: string)
    ensures m in CollectImports(source) <==> Imports(source, m)
  {
    if source.Some? {
      NamedIff(source.value, m);
    }
  }

  lemma {:induction false} NamedIff(nodes: seq<Import>, m: string)
    ensures m in ImportedNames(nodes) <==> exists i | 0 <= i < |nodes| :: Statement(nodes[i], m)
  {
    if nodes != [] {
      NamedIff(nodes[1..], m);
      if i :| 0 <= i < |nodes[1..]| && Statement(nodes[1..][i], m) {
        assert Statement(nodes[i + 1], m);
      }
      if i :| 0 <= i < |nodes| && Statement(nodes[i], m) {
        assert i > 0 ==> Statement(nodes[1..][i - 1], m);
      }
    }
  }

  lemma EdgeIff(t: Tree, f: Path, g: Path)
    ensures Edge(t, f, g) <==> g in t.allFiles && exists m | m in CollectImports(t.source(f)) :: Matches(m, g)
  {
    hide Matches;
    forall m ensures m in CollectImports(t.source(f)) <==> Imports(t.source(f), m) {
      CollectedIff(t.source(f), m);
    }
  }

  ghost predicate Chain(t: Tree, path: seq<Path>) {
    forall i | 0 <= i < |path| - 1 :: Edge(t, path[i], path[i + 1])
  }

  predicate Root(t: Tree, entryPoints: seq<Path>, f: Path) {
    f in entryPoints && f in t.existing
  }

  /** Some chain of imports leads from an existing entry point to the file. */
  ghost predicate Reachable(t: Tree, entryPoints: seq<Path>, f: Path) {
    exists path: seq<Path> :: path != [] && Root(t, entryPoints, path[0]) && path[|path| - 1] == f && Chain(t, path)
  }

  lemma RootReachable(t: Tree, entryPoints: seq<Path>, f: Path)
    requires Root(t, entryPoints, f)
    ensures Reachable(t, entryPoints, f)
  {
    assert [f][0] == f && Chain(t, [f]);
  }

  lemma {:induction false} EdgeReachable(t: Tree, entryPoints: seq<Path>, f: Path, g: Path)
    requires Reachable(t, entryPoints, f) && Edge(t, f, g)
    ensures Reachable(t, entryPoints, g) && g in t.allFiles
  {
    var path :| path != [] && Root(t, entryPoints, path[0]) && path[|path| - 1] == f && Chain(t, path);
    var longer := path + [g];
    forall i | 0 <= i < |longer| - 1 ensures Edge(t, longer[i], longer[i + 1]) {
      if i < |path| - 1 { assert longer[i] == path[i] && longer[i + 1] == path[i + 1]; }
    }
    assert longer[0] == path[0] && longer[|longer| - 1] == g;
  }

  /** A set that holds the roots and is closed under imports holds everything reachable. */
  lemma {:induction false} ClosedHoldsReachable(t: Tree, entryPoints: seq<Path>, s: set<Path>, f: Path)
    requires forall r | Root(t, entryPoints, r) :: r in s
    requires forall a, b | a in s && Edge(t, a, b) :: b in s
    requires Reachable(t, entryPoints, f)
    ensures f in s
  {
    var path :| path != [] && Root(t, entryPoints, path[0]) && path[|path| - 1] == f && Chain(t, path);
    var i := 0;
    while i < |path| - 1
      invariant 0 <= i < |path| && path[i] in s
    {
      assert Edge(t, path[i], path[i + 1]);
      i := i + 1;
    }
  }

  /** `main` up to printing. Whatever order files are enumerated in, `visited` is exactly the set of files
      reachable from the existing entry points, and the orphans are exactly the unreachable files. */
  method FindOrphans(t: Tree, entryPoints: seq<Path>) returns (orphans: set<Path>, visited: set<Path>)
    ensures forall f :: f in visited <==> Reachable(t, entryPoints, f)
    ensures forall f :: f in orphans <==> f in t.allFiles && !Reachable(t, entryPoints, f)
  {
    hide Reachable, Edge, CollectImports;
    visited := {};
    var queue := ExistingEntryPoints(t, entryPoints);
    forall f | f in queue ensures Reachable(t, entryPoints, f) {
      RootReachable(t, entryPoints, f);
    }
    ghost var universe := t.allFiles + set f | f in entryPoints;
    while queue != []
      invariant visited <= universe && forall f | f in queue :: f in universe
      invariant forall f | f in visited || f in queue :: Reachable(t, entryPoints, f)
      invariant forall r | Root(t, entryPoints, r) :: r in visited || r in queue
      invariant forall a, b | a in visited && Edge(t, a, b) :: b in visited || b in queue
      decreases |universe - visited|, |queue|
    {
      var f := queue[|queue| - 1];
      assert f in queue;
      var rest := queue[..|queue| - 1];
      assert queue == rest + [f];
      queue := rest;
      if f in visited {
        continue;
      }
      assert universe - (visited + {f}) == (universe - visited) - {f};
      visited := visited + {f};
      queue := Targets(t, f, CollectImports(t.source(f)), visited, rest);
      forall g | g in queue ensures g in universe && Reachable(t, entryPoints, g) {
        if g !in rest { EdgeReachable(t, entryPoints, f, g); }
      }
    }
    forall f | Reachable(t, entryPoints, f) ensures f in visited {
      ClosedHoldsReachable(t, entryPoints, visited, f);
    }
    orphans := t.allFiles - visited;
  }

  method ExistingEntryPoints(t: Tree, entryPoints: seq<Path>) returns (queue: seq<Path>)
    ensures forall f :: f in queue <==> Root(t, entryPoints, f)
  {
    queue := [];
    var i := 0;
    while i < |entryPoints|
      invariant i <= |entryPoints|
      invariant forall f :: f in queue <==> Root(t, entryPoints[..i], f)
    {
      if entryPoints[i] in t.existing {
        queue := queue + [entryPoints[i]];
      }
      i := i + 1;
    }
    assert entryPoints[..i] == entryPoints;
  }

  ghost predicate Named(modules: seq<string>, g: Path) {
    exists m | m in modules :: Matches(m, g)
  }

  /** The two inner loops: files that the modules name and that were not visited join the queue. */
  method Targets(t: Tree, f: Path, modules: seq<string>, visited: set<Path>, before: seq<Path>)
        returns (queue: seq<Path>)
    requires modules == CollectImports(t.source(f))
    ensures forall g :: g in queue <==> g in before || (Edge(t, f, g) && g !in visited)
  {
    hide Matches, CollectImports;
    queue := before;
    var i := 0;
    while i < |modules|
      invariant i <= |modules|
      invariant forall g :: g in queue <==> g in before || (g in t.allFiles && g !in visited && Named(modules[..i], g))
    {
      var targets := ModuleToPaths(modules[i], t.allFiles);
      queue := AddUnvisited(targets, visited, queue);
      assert modules[..i + 1] == modules[..i] + [modules[i]];
      assert forall g :: Named(modules[..i + 1], g) <==> Named(modules[..i], g) || Matches(modules[i], g);
      i := i + 1;
    }
    assert modules[..i] == modules;
    forall g ensures Edge(t, f, g) <==> g in t.allFiles && Named(modules, g) {
      EdgeIff(t, f, g);
    }
  }

  method AddUnvisited(targets: seq<Path>, visited: set<Path>, before: seq<Path>) returns (queue: seq<Path>)
    ensures forall g :: g in queue <==> g in before || (g in targets && g !in visited)
  {
    queue := before;
    var j := 0;
    while j < |targets|
      invariant j <= |targets|
      invariant forall g :: g in queue <==> g in before || (g in targets[..j] && g !in visited)
    {
      if targets[j] !in visited {
        queue := queue + [targets[j]];
      }
      j := j + 1;
    }
    assert targets[..j] == targets;
  }

  /** The dotted name of any file, or of any suffix of its segments, finds the file. */
  lemma {:induction false} OwnNameMatches(p: Path, from: nat)
    requires p.inRepo && from < |DottedName(p)| && forall s | s in DottedName(p) :: '.' !in s
    ensures Matches(Join(DottedName(p)[from..]), p)
  {
    var rel := DottedName(p);
    assert forall s | s in rel[from..] :: s in rel;
    SplitJoin(rel[from..]);
    assert rel[|rel| - |rel[from..]|..] == rel[from..];
  }

  /** A name finds a file exactly when it is the dotted name of the file or a part of it behind some dot. */
  lemma {:induction false} MatchesIff(mod: string, p: Path)
    requires forall s | s in DottedName(p) :: '.' !in s
    ensures Matches(mod, p) <==>
              p.inRepo && exists from | 0 <= from < |DottedName(p)| :: mod == Join(DottedName(p)[from..])
  {
    var rel, parts := DottedName(p), Split(mod);
    if Matches(mod, p) {
      SplitParts(mod);
      assert mod == Join(rel[|rel| - |parts|..]);
    }
    if from :| p.inRepo && 0 <= from < |rel| && mod == Join(rel[from..]) {
      OwnNameMatches(p, from);
    }
  }

  /** `a/b/c.py` is a.b.c and `a/b/__init__.py` is a.b; only the last dot of a file name counts. */
  lemma {:induction false} DottedNameMeaning(dirs: seq<string>, stem: string)
    requires stem != "" && stem != "__init__"
    ensures DottedName(Path(true, dirs + [stem + ".py"])) == dirs + [stem]
    ensures DottedName(Path(true, dirs + ["__init__.py"])) == dirs
    ensures DottedName(Path(true, ["__init__.py"])) == []
  {
    PySuffix(stem);
    PySuffix("__init__");
    assert "__init__" + ".py" == "__init__.py";
    assert dirs + [] == dirs && ["__init__.py"][..0] == [];
  }

  lemma PySuffix(stem: string)
    requires stem != ""
    ensures Stem(stem + ".py") == stem
  {
    var name, n := stem + ".py", |stem|;
    assert name[n] == '.' && name[n + 1] == 'p' && name[n + 2] == 'y';
    var d := LastDot(name);
    assert d == n + 1;
    assert name[..n] == stem;
  }

  /** An entry point that exists is reached, and one that does not leads nowhere. */
  lemma {:induction false} EntryPointCounts(t: Tree, entryPoints: seq<Path>, p: Path, f: Path)
    ensures p in entryPoints && p in t.existing ==> Reachable(t, entryPoints, p)
    ensures p !in t.existing ==> (Reachable(t, entryPoints + [p], f) <==> Reachable(t, entryPoints, f))
    ensures (forall e | e in entryPoints :: e !in t.existing) ==> !Reachable(t, entryPoints, f)
  {
    hide Edge;
    if p in entryPoints && p in t.existing {
      RootReachable(t, entryPoints, p);
    }
    if p !in t.existing {
      forall r ensures Root(t, entryPoints + [p], r) <==> Root(t, entryPoints, r) {
      }
    }
  }
}
