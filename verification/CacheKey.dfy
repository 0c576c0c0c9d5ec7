/** `make_cache_key` of platform_sdk/cache.py. A dictionary is the list of its entries in insertion order;
    SHA-256 is an arbitrary function `digest`. */
module CacheKey {
  import opened Common
  import opened Unicode
  import opened Json
  import opened Order

  const FN := Lit("fn")

  // ----- sort_keys -----

  function Insert(f: Field, sorted: seq<Field>): seq<Field> {
    if sorted == [] || !Less(sorted[0].key, f.key) then [f] + sorted else [sorted[0]] + Insert(f, sorted[1..])
  }

  function Sort(fields: seq<Field>): seq<Field> {
    if fields == [] then [] else Insert(fields[0], Sort(fields[1..]))
  }

  /** The value as `sort_keys=True` prints it, with the entries of every dictionary in key order. */
  function Canon(v: Json): Json
    decreases v
  {
    match v
    case Arr(items) => Arr(CanonItems(items))
    case Obj(fields) => Obj(Sort(CanonFields(fields)))
    case _ => v
  }

  function CanonItems(items: seq<Json>): (r: seq<Json>)
    ensures |r| == |items| && forall i | 0 <= i < |r| :: r[i] == Canon(items[i])
    decreases items
  {
    if items == [] then [] else [Canon(items[0])] + CanonItems(items[1..])
  }

  function CanonFields(fields: seq<Field>): (r: seq<Field>)
    ensures |r| == |fields| && forall i | 0 <= i < |r| :: r[i] == Field(fields[i].key, Canon(fields[i].value))
    decreases fields
  {
    if fields == [] then [] else [Field(fields[0].key, Canon(fields[0].value))] + CanonFields(fields[1..])
  }

  // ----- The key -----

  predicate HasKey(fields: seq<Field>, key: Str) {
    exists k | 0 <= k < |fields| :: fields[k].key == key
  }

  /** `{"fn": fn_name, **kwargs}` up to the order of entries: an argument named `fn` takes the place of the
      function name. */
  function Payload(fn: Str, kwargs: seq<Field>): seq<Field> {
    if HasKey(kwargs, FN) then kwargs else [Field(FN, Text(fn))] + kwargs
  }

  function MakeKey(digest: string -> string, fn: Str, kwargs: seq<Field>): string {
    "tool_cache:" + digest(Print(Canon(Obj(Payload(fn, kwargs)))))
  }

  // ----- Equality of Python dictionaries -----

  /** Equal as JSON values: entries are matched by key, whatever their order, and numbers by their literals. */
  ghost predicate Same(v: Json, w: Json)
    decreases v
  {
    match v
    case Arr(items) =>
      w.Arr? && |items| == |w.items| && forall i | 0 <= i < |items| :: Same(items[i], w.items[i])
    case Obj(fields) =>
      && w.Obj? && |fields| == |w.fields|
      && forall i | 0 <= i < |fields| ::
           exists j | 0 <= j < |w.fields| :: fields[i].key == w.fields[j].key
               && Same(fields[i].value, w.fields[j].value)
    case _ => v == w
  }

  ghost predicate DistinctKeys(fields: seq<Field>) {
    forall i, j | 0 <= i < j < |fields| :: fields[i].key != fields[j].key
  }

  /** Every dictionary in the value has distinct keys. */
  ghost predicate Dict(v: Json)
    decreases v
  {
    match v
    case Arr(items) => forall i | 0 <= i < |items| :: Dict(items[i])
    case Obj(fields) => DistinctKeys(fields) && forall i | 0 <= i < |fields| :: Dict(fields[i].value)
    case _ => true
  }

  /** Strictly increasing keys. */
  ghost predicate Sorted(fields: seq<Field>) {
    forall i, j | 0 <= i < j < |fields| :: Less(fields[i].key, fields[j].key)
  }

  lemma {:induction false} InsertPermutes(f: Field, sorted: seq<Field>)
    ensures multiset(Insert(f, sorted)) == multiset{f} + multiset(sorted)
  {
    if !(sorted == [] || !Less(sorted[0].key, f.key)) {
      InsertPermutes(f, sorted[1..]);
      assert sorted == [sorted[0]] + sorted[1..];
    }
  }

  lemma {:induction false} SortPermutes(fields: seq<Field>)
    ensures multiset(Sort(fields)) == multiset(fields)
  {
    if fields != [] {
      SortPermutes(fields[1..]);
      InsertPermutes(fields[0], Sort(fields[1..]));
      assert fields == [fields[0]] + fields[1..];
    }
  }

  lemma {:induction false} SameElements(a: seq<Field>, b: seq<Field>)
    requires multiset(a) == multiset(b)
    ensures |a| == |b| && forall f :: f in a <==> f in b
  {
    assert |multiset(a)| == |a| && |multiset(b)| == |b|;
    assert forall f :: f in a <==> f in multiset(a);
    assert forall f :: f in b <==> f in multiset(b);
  }

  lemma {:induction false} InsertSorted(f: Field, sorted: seq<Field>)
    requires Sorted(sorted) && forall g | g in sorted :: g.key != f.key
    ensures Sorted(Insert(f, sorted))
  {
    if sorted == [] {
    } else if Less(sorted[0].key, f.key) {
      var rest := Insert(f, sorted[1..]);
      InsertSorted(f, sorted[1..]);
      InsertPermutes(f, sorted[1..]);
      forall g | g in rest ensures Less(sorted[0].key, g.key) {
        assert g in multiset(rest);
        assert g == f || g in sorted[1..];
      }
    } else {
      Connected(f.key, sorted[0].key);
      forall i | 0 <= i < |sorted| ensures Less(f.key, sorted[i].key) {
        if i > 0 { Transitive(f.key, sorted[0].key, sorted[i].key); }
      }
    }
  }

  lemma {:induction false} SortSorted(fields: seq<Field>)
    requires DistinctKeys(fields)
    ensures Sorted(Sort(fields))
  {
    if fields != [] {
      SortSorted(fields[1..]);
      SortPermutes(fields[1..]);
      SameElements(Sort(fields[1..]), fields[1..]);
      InsertSorted(fields[0], Sort(fields[1..]));
    }
  }

  /** A set of entries has one sorted order. */
  lemma {:induction false} SortedUnique(a: seq<Field>, b: seq<Field>)
    requires Sorted(a) && Sorted(b) && forall f :: f in a <==> f in b
    ensures a == b
  {
    assert (a != [] ==> a[0] in a) && (b != [] ==> b[0] in b);
    if a != [] {
      HeadsAgree(a, b);
      forall f ensures f in a[1..] <==> f in b[1..] {
        TailElements(a, f);
        TailElements(b, f);
      }
      SortedUnique(a[1..], b[1..]);
      assert a == [a[0]] + a[1..] && b == [b[0]] + b[1..];
    }
  }

  lemma TailElements(a: seq<Field>, f: Field)
    requires Sorted(a) && a != []
    ensures f in a[1..] <==> f in a && f != a[0]
  {
    Irreflexive(a[0].key);
    if f in a[1..] {
      var i :| 0 <= i < |a| - 1 && a[1..][i] == f;
      assert a[i + 1] == f;
    }
  }

  lemma HeadsAgree(a: seq<Field>, b: seq<Field>)
    requires Sorted(a) && Sorted(b) && a != [] && b != [] && forall f :: f in a <==> f in b
    ensures a[0] == b[0]
  {
    assert a[0] in a && b[0] in b;
    var i :| 0 <= i < |b| && b[i] == a[0];
    var j :| 0 <= j < |a| && a[j] == b[0];
    if i > 0 && j > 0 {
      Transitive(a[0].key, b[0].key, a[0].key);
      Irreflexive(a[0].key);
    }
  }

  /** Two sequences of distinct elements, equally long, one inside the other, have the same elements. */
  lemma {:induction false} Pigeonhole(a: seq<Field>, b: seq<Field>)
    requires DistinctKeys(a) && |a| == |b| && forall f | f in a :: f in b
    ensures forall f | f in b :: f in a
  {
    if a != [] {
      assert a[|a| - 1] in a;
      var k :| 0 <= k < |b| && b[k] == a[|a| - 1];
      var a', b' := a[..|a| - 1], b[..k] + b[k + 1..];
      forall f | f in a' ensures f in b' {
        var i :| 0 <= i < |a'| && a'[i] == f;
        assert a[i].key != a[|a| - 1].key && f in a;
        var j :| 0 <= j < |b| && b[j] == f;
        assert f == if j < k then b'[j] else b'[j - 1];
      }
      Pigeonhole(a', b');
      forall f | f in b ensures f in a {
        var j :| 0 <= j < |b| && b[j] == f;
        if j != k {
          assert f == if j < k then b'[j] else b'[j - 1];
          assert f in a';
        }
      }
    } else {
      assert b == [];
    }
  }

  /** Canonical forms agree exactly on equal dictionaries: the printed payload does not depend on the order of
      arguments, at any depth, and depends on everything else. */
  lemma {:induction false} CanonSame(v: Json, w: Json)
    requires Dict(v) && Dict(w)
    ensures Same(v, w) <==> Canon(v) == Canon(w)
    decreases v
  {
    match v
    case Arr(items) =>
      if w.Arr? && |items| == |w.items| {
        forall i | 0 <= i < |items| ensures Same(items[i], w.items[i]) <==> Canon(items[i]) == Canon(w.items[i]) {
          CanonSame(items[i], w.items[i]);
        }
      } else if w.Arr? {
        assert |CanonItems(items)| != |CanonItems(w.items)|;
      }
    case Obj(fields) =>
      if w.Obj? {
        CanonSameFields(fields, w.fields);
      }
    case _ =>
  }

  /** The canonical entries match exactly where the entries do. */
  ghost predicate Matching(fs: seq<Field>, gs: seq<Field>) {
    forall i, j | 0 <= i < |fs| && 0 <= j < |gs| ::
      CanonFields(fs)[i] == CanonFields(gs)[j] <==> fs[i].key == gs[j].key && Same(fs[i].value, gs[j].value)
  }

  lemma {:induction false} CanonSameFields(fs: seq<Field>, gs: seq<Field>)
    requires Dict(Obj(fs)) && Dict(Obj(gs))
    ensures Same(Obj(fs), Obj(gs)) <==> Sort(CanonFields(fs)) == Sort(CanonFields(gs))
    decreases fs
  {
    forall i, j | 0 <= i < |fs| && 0 <= j < |gs|
      ensures CanonFields(fs)[i] == CanonFields(gs)[j] <==> fs[i].key == gs[j].key && Same(fs[i].value, gs[j].value)
    {
      CanonSame(fs[i].value, gs[j].value);
    }
    if Same(Obj(fs), Obj(gs)) {
      SameSorts(fs, gs);
    }
    if Sort(CanonFields(fs)) == Sort(CanonFields(gs)) {
      SortsSame(fs, gs);
    }
  }

  lemma {:induction false} SameSorts(fs: seq<Field>, gs: seq<Field>)
    requires DistinctKeys(fs) && DistinctKeys(gs) && Matching(fs, gs) && Same(Obj(fs), Obj(gs))
    ensures Sort(CanonFields(fs)) == Sort(CanonFields(gs))
  {
    hide Canon, Dict;
    var cf, cg := CanonFields(fs), CanonFields(gs);
    forall f | f in cf ensures f in cg {
      var i :| 0 <= i < |cf| && cf[i] == f;
      var j :| 0 <= j < |gs| && fs[i].key == gs[j].key && Same(fs[i].value, gs[j].value);
      assert cf[i] == cg[j];
    }
    Pigeonhole(cf, cg);
    SortSorted(cf);
    SortSorted(cg);
    SortElements(cf);
    SortElements(cg);
    SortedUnique(Sort(cf), Sort(cg));
  }

  lemma {:induction false} SortsSame(fs: seq<Field>, gs: seq<Field>)
    requires Matching(fs, gs) && Sort(CanonFields(fs)) == Sort(CanonFields(gs))
    ensures Same(Obj(fs), Obj(gs))
  {
    hide Canon, Sort;
    var cf, cg := CanonFields(fs), CanonFields(gs);
    SortElements(cf);
    SortElements(cg);
    forall i | 0 <= i < |fs|
      ensures exists j | 0 <= j < |gs| :: fs[i].key == gs[j].key && Same(fs[i].value, gs[j].value)
    {
      assert cf[i] in cf;
      assert cf[i] in cg;
      var j :| 0 <= j < |cg| && cg[j] == cf[i];
      assert fs[i].key == gs[j].key && Same(fs[i].value, gs[j].value);
    }
  }

  lemma {:induction false} SortElements(fields: seq<Field>)
    ensures |Sort(fields)| == |fields| && forall f :: f in Sort(fields) <==> f in fields
  {
    SortPermutes(fields);
    SameElements(Sort(fields), fields);
  }

  // ----- Keys and calls -----

  /** Arguments that JSON can carry: valid numbers, distinct keys, no two adjacent lone surrogates, and none
      named `fn`. */
  ghost predicate GoodArgs(kwargs: seq<Field>) {
    Valid(Obj(kwargs)) && Dict(Obj(kwargs)) && AllClean(Obj(kwargs)) && !HasKey(kwargs, FN)
  }

  ghost predicate CollisionFree(digest: string -> string) {
    forall a, b :: digest(a) == digest(b) ==> a == b
  }

  lemma {:induction false} CanonKeeps(v: Json)
    ensures Valid(v) ==> Valid(Canon(v))
    ensures AllClean(v) ==> AllClean(Canon(v))
    decreases v
  {
    match v
    case Arr(items) =>
      forall i | 0 <= i < |items|
        ensures (Valid(items[i]) ==> Valid(Canon(items[i]))) && (AllClean(items[i]) ==> AllClean(Canon(items[i])))
      {
        CanonKeeps(items[i]);
      }
    case Obj(fields) =>
      CanonKeepsFields(fields);
    case _ =>
  }

  lemma {:induction false} CanonKeepsFields(fields: seq<Field>)
    ensures Valid(Obj(fields)) ==> Valid(Canon(Obj(fields)))
    ensures AllClean(Obj(fields)) ==> AllClean(Canon(Obj(fields)))
    decreases fields
  {
    var cf := CanonFields(fields);
    forall i | 0 <= i < |fields|
      ensures Valid(fields[i].value) ==> Valid(cf[i].value)
      ensures AllClean(fields[i].value) ==> AllClean(cf[i].value)
    {
      CanonKeeps(fields[i].value);
    }
    SortElements(cf);
    forall f | f in Sort(cf)
      ensures Valid(Obj(fields)) ==> Valid(f.value)
      ensures AllClean(Obj(fields)) ==> Clean(f.key) && AllClean(f.value)
    {
      assert f in cf;
      var i :| 0 <= i < |cf| && cf[i] == f;
    }
    assert forall i | 0 <= i < |Sort(cf)| :: Sort(cf)[i] in Sort(cf);
  }

  lemma {:induction false} PayloadGood(fn: Str, a: seq<Field>)
    requires GoodArgs(a) && Clean(fn)
    ensures var p := Obj(Payload(fn, a)); Valid(p) && Dict(p) && AllClean(p)
  {
    hide Lit;
    var p := Payload(fn, a);
    FnClean();
    assert forall i | 1 <= i < |p| :: p[i] == a[i - 1];
    assert Valid(Text(fn)) && Dict(Text(fn)) && AllClean(Text(fn));
    assert DistinctKeys(p);
  }

  lemma FnClean()
    ensures Clean(FN)
  {
  }

  ghost predicate Matched(f: Field, gs: seq<Field>) {
    exists j | 0 <= j < |gs| :: f.key == gs[j].key && Same(f.value, gs[j].value)
  }

  lemma SameMatched(fs: seq<Field>, gs: seq<Field>)
    ensures Same(Obj(fs), Obj(gs)) <==> |fs| == |gs| && forall i | 0 <= i < |fs| :: Matched(fs[i], gs)
  {
    if Same(Obj(fs), Obj(gs)) {
      forall i | 0 <= i < |fs| ensures Matched(fs[i], gs) {
        var j :| 0 <= j < |gs| && fs[i].key == gs[j].key && Same(fs[i].value, gs[j].value);
      }
    }
    if |fs| == |gs| && forall i | 0 <= i < |fs| :: Matched(fs[i], gs) {
      forall i | 0 <= i < |fs|
        ensures exists j | 0 <= j < |gs| :: fs[i].key == gs[j].key && Same(fs[i].value, gs[j].value)
      {
        assert Matched(fs[i], gs);
      }
    }
  }

  /** One entry in front, under a key that occurs nowhere else, matters only to itself. */
  lemma {:induction false} MatchedBehind(f: Field, g: Field, gs: seq<Field>)
    ensures f.key != g.key ==> (Matched(f, [g] + gs) <==> Matched(f, gs))
    ensures f.key == g.key && f.key !in Keys(gs) ==> (Matched(f, [g] + gs) <==> Same(f.value, g.value))
  {
    var all := [g] + gs;
    if j :| 0 <= j < |gs| && f.key == gs[j].key && Same(f.value, gs[j].value) {
      assert all[j + 1] == gs[j];
    }
    if j :| 0 <= j < |all| && f.key == all[j].key && Same(f.value, all[j].value) {
      if j > 0 {
        assert all[j] == gs[j - 1];
        assert all[j].key in Keys(gs);
      }
    }
    assert all[0] == g;
  }

  function Keys(fields: seq<Field>): set<Str> {
    set f | f in fields :: f.key
  }

  lemma {:induction false} PayloadMatched(f: Str, a: seq<Field>, g: Str, b: seq<Field>)
    requires !HasKey(a, FN) && !HasKey(b, FN)
    ensures Same(Obj([Field(FN, Text(f))] + a), Obj([Field(FN, Text(g))] + b)) <==> f == g && Same(Obj(a), Obj(b))
  {
    hide Lit, Matched;
    var x, y := Field(FN, Text(f)), Field(FN, Text(g));
    var p, q := [x] + a, [y] + b;
    SameMatched(p, q);
    SameMatched(a, b);
    NoKey(a);
    NoKey(b);
    MatchedBehind(x, y, b);
    forall i | 0 <= i < |a| ensures p[i + 1] == a[i] && (Matched(p[i + 1], q) <==> Matched(a[i], b)) {
      assert a[i].key in Keys(a);
      MatchedBehind(a[i], y, b);
    }
    assert p[0] == x;
    assert forall i | 1 <= i < |p| :: p[i] == a[i - 1];
  }

  lemma NoKey(fields: seq<Field>)
    requires !HasKey(fields, FN)
    ensures FN !in Keys(fields)
  {
  }

  lemma {:induction false} PayloadSame(f: Str, a: seq<Field>, g: Str, b: seq<Field>)
    requires GoodArgs(a) && GoodArgs(b)
    ensures Same(Obj(Payload(f, a)), Obj(Payload(g, b))) <==> f == g && Same(Obj(a), Obj(b))
  {
    hide Same, Lit;
    PayloadMatched(f, a, g, b);
  }

  /** Two calls share a cache key if and only if they name the same function with equal arguments. */
  lemma {:induction false} KeysAgreeIff(digest: string -> string, f: Str, a: seq<Field>, g: Str, b: seq<Field>)
    requires CollisionFree(digest) && GoodArgs(a) && GoodArgs(b) && Clean(f) && Clean(g)
    ensures MakeKey(digest, f, a) == MakeKey(digest, g, b) <==> f == g && Same(Obj(a), Obj(b))
  {
    var p, q := Obj(Payload(f, a)), Obj(Payload(g, b));
    PayloadGood(f, a);
    PayloadGood(g, b);
    PayloadSame(f, a, g, b);
    CanonSame(p, q);
    CanonKeeps(p);
    CanonKeeps(q);
    if MakeKey(digest, f, a) == MakeKey(digest, g, b) {
      var x, y := digest(Print(Canon(p))), digest(Print(Canon(q)));
      assert ("tool_cache:" + x)[11..] == x && ("tool_cache:" + y)[11..] == y;
      PrintInjective(Canon(p), Canon(q));
    }
  }

  /** The function name is part of the key if and only if no argument is named `fn`; otherwise two different
      tools called with the same arguments share an entry. */
  lemma {:induction false} FunctionNameInKeyIff(digest: string -> string, a: seq<Field>)
    requires CollisionFree(digest) && Valid(Obj(a)) && Dict(Obj(a)) && AllClean(Obj(a))
    ensures (forall f, g | Clean(f) && Clean(g) && MakeKey(digest, f, a) == MakeKey(digest, g, a) :: f == g)
            <==> !HasKey(a, FN)
  {
    if HasKey(a, FN) {
      assert MakeKey(digest, Lit("f"), a) == MakeKey(digest, Lit("g"), a);
      assert Clean(Lit("f")) && Clean(Lit("g")) && Lit("f")[0] != Lit("g")[0];
    } else {
      forall f, g | Clean(f) && Clean(g) && MakeKey(digest, f, a) == MakeKey(digest, g, a) ensures f == g {
        KeysAgreeIff(digest, f, a, g, a);
      }
    }
  }
}
