/** The JavaScript string operations the dashboard uses. */
module JsText {
  import opened Common
  import opened Unicode

  /** A literal made of ASCII characters. */
  function Ascii(s: string): (r: Units)
    requires forall i | 0 <= i < |s| :: s[i] < 128 as char
    ensures |r| == |s| && forall i | 0 <= i < |s| :: r[i] == s[i] as int
  {
    seq(|s|, i requires 0 <= i < |s| => s[i] as int)
  }

  /** White space and line terminators: the class `\s`, and what `trim` removes. */
  predicate Space(u: Unit) {
    || 9 <= u <= 13 || u == 0x20 || u == 0xA0 || u == 0x1680 || 0x2000 <= u <= 0x200A
    || u == 0x2028 || u == 0x2029 || u == 0x202F || u == 0x205F || u == 0x3000 || u == 0xFEFF
  }

  function TrimStart(s: Units): Units {
    if s != [] && Space(s[0]) then TrimStart(s[1..]) else s
  }

  function TrimEnd(s: Units): Units {
    if s != [] && Space(s[|s| - 1]) then TrimEnd(s[..|s| - 1]) else s
  }

  function Trim(s: Units): Units {
    TrimEnd(TrimStart(s))
  }

  /** Characters that are not white space, counted. */
  function Ink(s: Units): nat {
    if s == [] then 0 else (if Space(s[0]) then 0 else 1) + Ink(s[1..])
  }

  lemma {:induction false} InkConcat(a: Units, b: Units)
    ensures Ink(a + b) == Ink(a) + Ink(b)
  {
    if a == [] {
      assert a + b == b;
    } else {
      assert (a + b)[1..] == a[1..] + b;
      InkConcat(a[1..], b);
    }
  }

  lemma {:induction false} InkTrim(s: Units)
    ensures Ink(Trim(s)) == Ink(s)
  {
    InkTrimStart(s);
    InkTrimEnd(TrimStart(s));
  }

  lemma {:induction false} InkTrimStart(s: Units)
    ensures Ink(TrimStart(s)) == Ink(s)
  {
    if s != [] && Space(s[0]) {
      InkTrimStart(s[1..]);
    }
  }

  lemma {:induction false} InkTrimEnd(s: Units)
    ensures Ink(TrimEnd(s)) == Ink(s)
  {
    if s != [] && Space(s[|s| - 1]) {
      InkTrimEnd(s[..|s| - 1]);
      InkConcat(s[..|s| - 1], [s[|s| - 1]]);
      assert s == s[..|s| - 1] + [s[|s| - 1]];
    }
  }

  // ----- Substring search -----

  predicate OccursAt(s: Units, m: Units, i: nat) {
    i + |m| <= |s| && s[i..i + |m|] == m
  }

  function Find(s: Units, m: Units): (r: Option<nat>)
    ensures r.Some? ==> OccursAt(s, m, r.value)
  {
    if |s| < |m| then None
    else if s[..|m|] == m then Some(0)
    else if s == [] then None
    else match Find(s[1..], m) { case Some(i) => Some(i + 1) case None => None }
  }

  ghost predicate Contains(s: Units, m: Units) {
    exists i: nat :: OccursAt(s, m, i)
  }

  /** `Find` returns the least position. */
  lemma {:induction false} FindLeast(s: Units, m: Units, i: nat)
    requires OccursAt(s, m, i)
    ensures Find(s, m).Some? && Find(s, m).value <= i
  {
    if s[..|m|] != m {
      assert s[1..][i - 1..i - 1 + |m|] == s[i..i + |m|];
      FindLeast(s[1..], m, i - 1);
    }
  }

  /** No proper suffix of `m` is a prefix of it. */
  ghost predicate BorderFree(m: Units) {
    m != [] && forall k | 0 < k < |m| :: m[k..] != m[..|m| - k]
  }

  /** An occurrence that starts before the marker lies in the text or overlaps the marker. */
  lemma OverlapOrInside(p: Units, m: Units, rest: Units, i: nat)
    requires i < |p| && OccursAt(p + m + rest, m, i)
    ensures OccursAt(p, m, i) || (|p| - i < |m| && m[|p| - i..] == m[..|m| - (|p| - i)])
  {
    var s := p + m + rest;
    if i + |m| <= |p| {
      assert p[i..i + |m|] == s[i..i + |m|];
    } else {
      assert s[i..i + |m|][|p| - i..] == s[|p|..i + |m|] == m[..|m| - (|p| - i)];
    }
  }

  /** A marker that cannot overlap itself is found where it was put, unless the text before it already
      holds one. */
  lemma {:induction false} FindMarker(p: Units, m: Units, rest: Units)
    requires BorderFree(m) && !Contains(p, m)
    ensures Find(p + m + rest, m) == Some(|p|)
  {
    var s := p + m + rest;
    assert s[|p|..|p| + |m|] == m;
    FindLeast(s, m, |p|);
    var i := Find(s, m).value;
    if i < |p| {
      OverlapOrInside(p, m, rest, i);
    }
  }

  /** Text added behind does not move the first occurrence. */
  lemma {:induction false} FindEarlier(q: Units, m: Units, rest: Units)
    requires Find(q, m).Some?
    ensures Find(q + rest, m) == Find(q, m)
  {
    var j, s := Find(q, m).value, q + rest;
    assert s[j..j + |m|] == q[j..j + |m|];
    FindLeast(s, m, j);
    var i := Find(s, m).value;
    assert q[i..i + |m|] == s[i..i + |m|];
    FindLeast(q, m, i);
  }
}
