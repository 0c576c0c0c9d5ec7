/** `_resolve_client_name` and `_resolve_bank_name` of tools/payments-mcp/src/payments_service.py, with the
    LIKE matching they rest on. Case folding is that of ASCII letters, and ORDER BY is code-point order. */
module NameResolution {
  import opened Common
  import opened Unicode
  import opened Order

  const PERCENT: Code := '%' as int
  const UNDERSCORE: Code := '_' as int
  const BACKSLASH: Code := '\\' as int

  function LowerChar(c: Code): Code {
    if 'A' as int <= c <= 'Z' as int then c + 32 else c
  }

  function Lower(s: Str): (r: Str)
    ensures |r| == |s| && forall i | 0 <= i < |s| :: r[i] == LowerChar(s[i])
  {
    seq(|s|, i requires 0 <= i < |s| => LowerChar(s[i]))
  }

  /** LIKE: `%` matches any run, `_` one character, and a backslash takes the next character literally. */
  predicate Like(p: Str, s: Str)
    decreases |p| + |s|
  {
    if p == [] then s == []
    else if p[0] == PERCENT then Like(p[1..], s) || (s != [] && Like(p, s[1..]))
    else if p[0] == UNDERSCORE then s != [] && Like(p[1..], s[1..])
    else if p[0] == BACKSLASH then |p| > 1 && s != [] && s[0] == p[1] && Like(p[2..], s[1..])
    else s != [] && s[0] == p[0] && Like(p[1..], s[1..])
  }

  predicate ILike(p: Str, s: Str) {
    Like(Lower(p), Lower(s))
  }

  predicate Special(c: Code) {
    c == PERCENT || c == UNDERSCORE || c == BACKSLASH
  }

  /** No wildcard and no escape character. */
  predicate Plain(q: Str) {
    forall i | 0 <= i < |q| :: !Special(q[i])
  }

  // ----- Case-insensitive comparison, prefix and substring -----

  predicate Equal(name: Str, q: Str) {
    Lower(name) == Lower(q)
  }

  predicate StartsWith(name: Str, q: Str) {
    Lower(q) <= Lower(name)
  }

  predicate Holds(name: Str, q: Str) {
    exists i | 0 <= i <= |name| :: Lower(q) <= Lower(name)[i..]
  }

  lemma {:induction false} LikeAnything(s: Str)
    ensures Like([PERCENT], s)
    decreases |s|
  {
    if s == [] {
      assert [PERCENT][1..] == [];
    } else {
      LikeAnything(s[1..]);
    }
  }

  lemma {:induction false} LikePrefix(q: Str, s: Str)
    requires Plain(q)
    ensures Like(q + [PERCENT], s) <==> q <= s
  {
    if q == [] {
      assert q + [PERCENT] == [PERCENT];
      LikeAnything(s);
    } else {
      assert (q + [PERCENT])[1..] == q[1..] + [PERCENT];
      if s != [] && s[0] == q[0] {
        LikePrefix(q[1..], s[1..]);
        assert q == [q[0]] + q[1..] && s == [s[0]] + s[1..];
      }
    }
  }

  lemma {:induction false} LikeSubstring(q: Str, s: Str)
    requires Plain(q)
    ensures Like([PERCENT] + q + [PERCENT], s) <==> exists i | 0 <= i <= |s| :: q <= s[i..]
    decreases |s|
  {
    var p := [PERCENT] + q + [PERCENT];
    assert p[1..] == q + [PERCENT];
    LikePrefix(q, s);
    assert s[0..] == s;
    if s != [] {
      LikeSubstring(q, s[1..]);
      if i :| 0 <= i <= |s[1..]| && q <= s[1..][i..] { assert s[i + 1..] == s[1..][i..]; }
      if i :| 0 <= i <= |s| && q <= s[i..] {
        if i > 0 { assert s[1..][i - 1..] == s[i..]; }
      }
    }
  }

  function PrefixPattern(q: Str): Str {
    q + [PERCENT]
  }

  function SubstringPattern(q: Str): Str {
    [PERCENT] + q + [PERCENT]
  }

  lemma {:induction false} LowerPlain(q: Str)
    ensures Plain(Lower(q)) <==> Plain(q)
    ensures Lower(PrefixPattern(q)) == Lower(q) + [PERCENT]
    ensures Lower(SubstringPattern(q)) == [PERCENT] + Lower(q) + [PERCENT]
  {
    assert forall i | 0 <= i < |q| :: Special(Lower(q)[i]) <==> Special(q[i]);
  }

  /** For a plain query the two patterns are prefix and substring search. */
  lemma {:induction false} PatternsMeaning(q: Str, name: Str)
    requires Plain(q)
    ensures ILike(PrefixPattern(q), name) <==> StartsWith(name, q)
    ensures ILike(SubstringPattern(q), name) <==> Holds(name, q)
  {
    LowerPlain(q);
    LikePrefix(Lower(q), Lower(name));
    LikeSubstring(Lower(q), Lower(name));
  }

  // ----- Exactly when the pattern is a substring search -----

  /** A text the pattern matches: wildcards replaced by nothing or by `x`, escapes resolved. */
  function Instance(p: Str): Str
    decreases |p|
  {
    if p == [] then []
    else if p[0] == PERCENT then Instance(p[1..])
    else if p[0] == UNDERSCORE then ['x' as int] + Instance(p[1..])
    else if p[0] == BACKSLASH then if |p| == 1 then [] else [p[1]] + Instance(p[2..])
    else [p[0]] + Instance(p[1..])
  }

  lemma {:induction false} InstanceMatches(q: Str)
    ensures Like(q + [PERCENT], Instance(q + [PERCENT]))
    ensures |Instance(q + [PERCENT])| <= |q|
    ensures !Plain(q) ==> Instance(q + [PERCENT]) != q
    decreases |q|
  {
    var p := q + [PERCENT];
    if q == [] {
      assert p == [PERCENT] && p[1..] == [];
      LikeAnything([]);
    } else {
      assert p[1..] == q[1..] + [PERCENT];
      InstanceMatches(q[1..]);
      assert Plain(q[1..]) && !Special(q[0]) ==> Plain(q);
      assert q == [q[0]] + q[1..];
      if q[0] == BACKSLASH {
        if |q| == 1 {
          assert p[1] == PERCENT && p[2..] == [];
        } else {
          assert p[2..] == q[2..] + [PERCENT] && p[1] == q[1];
          InstanceMatches(q[2..]);
        }
      } else {
        var rest := Instance(q[1..] + [PERCENT]);
        assert ([q[0]] + rest)[1..] == rest && (['x' as int] + rest)[1..] == rest;
      }
    }
  }

  lemma {:induction false} LikeAfterPercent(p: Str, s: Str)
    requires Like(p, s)
    ensures Like([PERCENT] + p, s)
  {
    assert ([PERCENT] + p)[1..] == p;
  }

  lemma {:induction false} InstanceLower(p: Str)
    requires forall i | 0 <= i < |p| :: p[i] == LowerChar(p[i])
    ensures Lower(Instance(p)) == Instance(p)
    decreases |p|
  {
    if p != [] {
      InstanceLower(p[1..]);
      if p[0] == BACKSLASH && |p| > 1 { InstanceLower(p[2..]); }
    }
  }

  /** `%q%` finds exactly the names that contain q, if and only if q has no wildcard and no escape character. */
  lemma {:induction false} SubstringSearchIff(q: Str)
    ensures (forall name :: ILike(SubstringPattern(q), name) <==> Holds(name, q)) <==> Plain(q)
  {
    if Plain(q) {
      forall name ensures ILike(SubstringPattern(q), name) <==> Holds(name, q) {
        PatternsMeaning(q, name);
      }
    } else {
      var l := Lower(q);
      LowerPlain(q);
      InstanceMatches(l);
      var name := Instance(l + [PERCENT]);
      InstanceLower(l + [PERCENT]);
      LikeAfterPercent(l + [PERCENT], name);
      assert [PERCENT] + (l + [PERCENT]) == [PERCENT] + l + [PERCENT];
      assert ILike(SubstringPattern(q), name);
      if Holds(name, q) {
        ShortHolder(name, q);
      }
    }
  }

  lemma ShortHolder(name: Str, q: Str)
    requires |name| <= |q| && Holds(name, q)
    ensures Lower(name) == Lower(q)
  {
    var i :| 0 <= i <= |name| && Lower(q) <= Lower(name)[i..];
    assert i == 0 && Lower(name)[0..] == Lower(name);
  }

  // ----- Resolution -----

  /** `SELECT DISTINCT name ... WHERE name ILIKE p ORDER BY name`: the matches in strictly increasing order. */
  function Matches(names: seq<Str>, p: Str): seq<Str> {
    if names == [] then []
    else if ILike(p, names[0]) then Insert(names[0], Matches(names[1..], p)) else Matches(names[1..], p)
  }

  function Insert(name: Str, sorted: seq<Str>): seq<Str> {
    if sorted == [] || Less(name, sorted[0]) then [name] + sorted
    else if name == sorted[0] then sorted
    else [sorted[0]] + Insert(name, sorted[1..])
  }

  ghost predicate Increasing(s: seq<Str>) {
    forall i, j | 0 <= i < j < |s| :: Less(s[i], s[j])
  }

  lemma {:induction false} InsertKeeps(name: Str, sorted: seq<Str>)
    requires Increasing(sorted)
    ensures Increasing(Insert(name, sorted))
    ensures forall x :: x in Insert(name, sorted) <==> x == name || x in sorted
  {
    if sorted == [] {
    } else if Less(name, sorted[0]) {
      forall j | 0 <= j < |sorted| ensures Less(name, sorted[j]) {
        if j > 0 { Transitive(name, sorted[0], sorted[j]); }
      }
    } else if name != sorted[0] {
      Connected(name, sorted[0]);
      InsertKeeps(name, sorted[1..]);
      var rest := Insert(name, sorted[1..]);
      forall j | 0 <= j < |rest| ensures Less(sorted[0], rest[j]) {
        assert rest[j] in rest;
      }
      assert sorted == [sorted[0]] + sorted[1..];
    }
  }

  lemma {:induction false} MatchesAre(names: seq<Str>, p: Str)
    ensures Increasing(Matches(names, p))
    ensures forall x :: x in Matches(names, p) <==> x in names && ILike(p, x)
  {
    if names != [] {
      MatchesAre(names[1..], p);
      assert names == [names[0]] + names[1..];
      if ILike(p, names[0]) {
        InsertKeeps(names[0], Matches(names[1..], p));
      }
    }
  }

  function FirstFive(s: seq<Str>): seq<Str> {
    if |s| <= 5 then s else s[..5]
  }

  /** LIMIT 5 of the ordered matches. */
  lemma FiveOf(names: seq<Str>, p: Str)
    ensures var five := FirstFive(Matches(names, p));
            && |five| == Min(|Matches(names, p)|, 5) && five <= Matches(names, p) && Increasing(five)
  {
    MatchesAre(names, p);
  }

  /** The name is one of those that satisfy the test, and no other one comes before it. */
  ghost predicate LeastWith(names: seq<Str>, test: Str -> bool, name: Str) {
    name in names && test(name) && forall x | x in names && test(x) :: x == name || Less(name, x)
  }

  lemma {:induction false} FirstIsLeast(names: seq<Str>, p: Str, test: Str -> bool)
    requires forall x :: ILike(p, x) <==> test(x)
    ensures Matches(names, p) == [] <==> forall x | x in names :: !test(x)
    ensures Matches(names, p) != [] ==> LeastWith(names, test, Matches(names, p)[0])
  {
    MatchesAre(names, p);
    var m := Matches(names, p);
    if m != [] {
      assert m[0] in m;
      forall x | x in names && test(x) ensures x == m[0] || Less(m[0], x) {
        assert x in m;
      }
    } else {
      forall x | x in names ensures !test(x) {
        assert x !in m;
      }
    }
  }

  lemma StartsWithHolds(name: Str, q: Str)
    ensures StartsWith(name, q) ==> Holds(name, q)
    ensures Equal(name, q) ==> StartsWith(name, q)
  {
    assert Lower(name)[0..] == Lower(name);
  }

  /** For a plain query, resolution fails exactly when no party and no traded name contains it, whatever the
      case of letters; otherwise the name comes from the first tier that has one (equal, prefix, substring,
      traded), and is the least of its tier unless the tier is equality. */
  lemma {:induction false} ResolutionTiers(parties: seq<Str>, traded: seq<Str>, q: Str)
    requires Plain(q) && forall p | p in parties :: !Equal(p, q)
    ensures var prefix, substring, other :=
              Matches(parties, PrefixPattern(q)), Matches(parties, SubstringPattern(q)),
              Matches(traded, SubstringPattern(q));
            && (prefix == [] && substring == [] && other == [] <==> forall x | x in parties + traded :: !Holds(x, q))
            && (prefix == [] <==> forall x | x in parties :: !StartsWith(x, q))
            && (substring == [] <==> forall x | x in parties :: !Holds(x, q))
            && (prefix != [] ==> LeastWith(parties, x => StartsWith(x, q), prefix[0]))
            && (substring != [] ==> LeastWith(parties, x => Holds(x, q), substring[0]))
            && (other != [] ==> LeastWith(traded, x => Holds(x, q), other[0]))
  {
    forall x ensures ILike(PrefixPattern(q), x) <==> StartsWith(x, q)
      ensures ILike(SubstringPattern(q), x) <==> Holds(x, q)
    {
      PatternsMeaning(q, x);
    }
    FirstIsLeast(parties, PrefixPattern(q), x => StartsWith(x, q));
    FirstIsLeast(parties, SubstringPattern(q), x => Holds(x, q));
    FirstIsLeast(traded, SubstringPattern(q), x => Holds(x, q));
    forall x ensures StartsWith(x, q) ==> Holds(x, q) {
      StartsWithHolds(x, q);
    }
    assert forall x :: x in parties + traded <==> x in parties || x in traded;
  }

  /** The name is of the first tier that has one, and, but for equality, the least of its tier. */
  ghost predicate BestName(parties: seq<Str>, traded: seq<Str>, q: Str, name: Str) {
    if exists p | p in parties :: Equal(p, q) then name in parties && Equal(name, q)
    else if exists p | p in parties :: StartsWith(p, q) then LeastWith(parties, x => StartsWith(x, q), name)
    else if exists p | p in parties :: Holds(p, q) then LeastWith(parties, x => Holds(x, q), name)
    else LeastWith(traded, x => Holds(x, q), name)
  }

  /** What the tiers hold, for a plain query. */
  lemma {:induction false} Found(parties: seq<Str>, traded: seq<Str>, q: Str)
    ensures Plain(q) && (exists p | p in parties :: Equal(p, q)) ==> exists x | x in parties + traded :: Holds(x, q)
    ensures Plain(q) && (forall p | p in parties :: !Equal(p, q)) ==>
              var prefix, substring, other :=
                Matches(parties, PrefixPattern(q)), Matches(parties, SubstringPattern(q)),
                Matches(traded, SubstringPattern(q));
              && (prefix == [] && substring == [] && other == [] <==> forall x | x in parties + traded :: !Holds(x, q))
              && (prefix != [] ==> BestName(parties, traded, q, prefix[0]))
              && (prefix == [] && substring != [] ==> BestName(parties, traded, q, substring[0]))
              && (prefix == [] && substring == [] && other != [] ==> BestName(parties, traded, q, other[0]))
  {
    hide Holds, StartsWith, Matches, Like;
    if p :| p in parties && Equal(p, q) {
      StartsWithHolds(p, q);
      assert p in parties + traded;
    } else if Plain(q) {
      ResolutionTiers(parties, traded, q);
    }
  }

  /** The tiers: `parties` are the names of the dimension table, `traded` those on transactions. The exact tier
      may return any row that matches. */
  method Resolve(parties: seq<Str>, traded: seq<Str>, q: Str) returns (name: Option<Str>, similar: seq<Str>)
    ensures (exists p | p in parties :: Equal(p, q)) ==>
              name.Some? && name.value in parties && Equal(name.value, q) && similar == []
    ensures (forall p | p in parties :: !Equal(p, q)) ==>
              var prefix, substring, other :=
                Matches(parties, PrefixPattern(q)), Matches(parties, SubstringPattern(q)),
                Matches(traded, SubstringPattern(q));
              && name == (if prefix != [] then Some(prefix[0]) else if substring != [] then Some(substring[0])
                          else if other != [] then Some(other[0]) else None)
              && similar == (if |prefix| > 1 then FirstFive(prefix)
                             else if prefix == [] && |substring| > 1 then FirstFive(substring) else [])
    ensures |similar| <= 5 && (similar != [] ==> name == Some(similar[0]) && |similar| >= 2 && Increasing(similar))
    ensures Plain(q) ==> (name.None? <==> forall x | x in parties + traded :: !Holds(x, q))
    ensures Plain(q) && name.Some? ==> BestName(parties, traded, q, name.value)
  {
    hide Holds, Matches, FirstFive;
    Found(parties, traded, q);
    FiveOf(parties, PrefixPattern(q));
    FiveOf(parties, SubstringPattern(q));
    if p :| p in parties && Equal(p, q) {
      return Some(p), [];
    }
    var rows := FirstFive(Matches(parties, PrefixPattern(q)));
    if rows != [] {
      if |rows| == 1 {
        return Some(rows[0]), [];
      }
      return Some(rows[0]), rows;
    }
    rows := FirstFive(Matches(parties, SubstringPattern(q)));
    if rows != [] {
      if |rows| == 1 {
        return Some(rows[0]), [];
      }
      return Some(rows[0]), rows;
    }
    var other := Matches(traded, SubstringPattern(q));
    if other != [] {
      return Some(other[0]), [];
    }
    return None, [];
  }

  /** Comparison is blind to the case of ASCII letters, and to nothing else. */
  lemma EqualIff(a: Str, b: Str)
    ensures Equal(a, b) <==>
              |a| == |b| && forall i | 0 <= i < |a| ::
                a[i] == b[i] || (65 <= a[i] <= 90 && b[i] == a[i] + 32) || (65 <= b[i] <= 90 && a[i] == b[i] + 32)
  {
    if Equal(a, b) {
      assert forall i | 0 <= i < |a| :: Lower(a)[i] == Lower(b)[i];
    } else if |a| == |b| {
      var i :| 0 <= i < |a| && Lower(a)[i] != Lower(b)[i];
    }
  }
}
