/** `str.split(".")` and `".".join` of Python. */
module PyText {
  function Split(s: string): (r: seq<string>)
    ensures |r| >= 1
  {
    if s == "" then [""]
    else
      var rest := Split(s[1..]);
      if s[0] == '.' then [""] + rest else [[s[0]] + rest[0]] + rest[1..]
  }

  function Join(parts: seq<string>): string
    requires parts != []
  {
    if |parts| == 1 then parts[0] else parts[0] + "." + Join(parts[1..])
  }

  /** Splitting at dots undoes joining with dots, when no segment holds one. */
  lemma {:induction false} SplitJoin(parts: seq<string>)
    requires parts != [] && forall p | p in parts :: '.' !in p
    ensures Split(Join(parts)) == parts
    decreases |parts|, |parts[0]|
  {
    var head := parts[0];
    assert head in parts;
    if head == "" {
      if |parts| > 1 {
        assert Join(parts)[1..] == Join(parts[1..]);
        assert forall p | p in parts[1..] :: p in parts;
        SplitJoin(parts[1..]);
        assert parts == [""] + parts[1..];
      } else {
        assert parts == [""];
      }
    } else {
      var shorter := [head[1..]] + parts[1..];
      assert head[0] in head;
      assert forall c | c in head[1..] :: c in head;
      assert forall p | p in shorter :: p == head[1..] || p in parts;
      assert shorter[1..] == parts[1..];
      assert Join(parts)[0] == head[0] && Join(parts)[1..] == Join(shorter);
      SplitJoin(shorter);
      assert [head[0]] + head[1..] == head && parts == [head] + parts[1..];
    }
  }

  /** A text splits into two parts exactly when it is two dotless texts with one dot between. */
  lemma {:induction false} SplitInTwo(s: string, a: string, b: string)
    ensures Split(s) == [a, b] <==> s == a + "." + b && '.' !in a && '.' !in b
  {
    if s == a + "." + b && '.' !in a && '.' !in b {
      assert Join([a, b]) == a + "." + Join([b]);
      SplitJoin([a, b]);
    }
    if Split(s) == [a, b] {
      SplitParts(s);
      assert a in Split(s) && b in Split(s);
      assert Split(s)[1..] == [b];
    }
  }

  lemma {:induction false} SplitParts(s: string)
    ensures Join(Split(s)) == s && forall p | p in Split(s) :: '.' !in p
  {
    if s != "" {
      var rest := Split(s[1..]);
      SplitParts(s[1..]);
      assert s == [s[0]] + s[1..];
      assert rest[0] in rest;
      if s[0] == '.' {
        assert Split(s)[1..] == rest;
      } else {
        assert Split(s)[1..] == rest[1..];
        assert rest == [rest[0]] + rest[1..];
      }
    }
  }
}
