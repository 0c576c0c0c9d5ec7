/** The two string representations that meet on the wire: a Python `str` is a sequence of code points, in
    which lone surrogates may occur, and a JavaScript string is a sequence of UTF-16 code units. */
module Unicode {
  type Code = c: int | 0 <= c < 0x11_0000
  type Unit = u: int | 0 <= u < 0x1_0000
  type Str = seq<Code>
  type Units = seq<Unit>

  /** A string literal of the source, as code points. */
  function Lit(s: string): (r: Str)
    ensures |r| == |s| && forall i | 0 <= i < |s| :: r[i] == s[i] as int
  {
    seq(|s|, i requires 0 <= i < |s| => s[i] as int)
  }

  predicate High(c: Code) {
    0xD800 <= c < 0xDC00
  }

  predicate Low(c: Code) {
    0xDC00 <= c < 0xE000
  }

  function UnitsOf(c: Code): Units {
    if c < 0x1_0000 then [c]
    else [0xD800 + (c - 0x1_0000) / 0x400, 0xDC00 + (c - 0x1_0000) % 0x400]
  }

  function Utf16(s: Str): Units {
    if s == [] then [] else UnitsOf(s[0]) + Utf16(s[1..])
  }

  /** What Python's JSON decoder makes of a run of `\u` escapes: a high surrogate joins a low one that
      follows it, and every other unit stands for itself. */
  function Combine(u: Str): Str {
    if u == [] then []
    else if |u| >= 2 && High(u[0]) && Low(u[1]) then
      [0x1_0000 + (u[0] - 0xD800) * 0x400 + (u[1] - 0xDC00)] + Combine(u[2..])
    else [u[0]] + Combine(u[1..])
  }

  /** No lone high surrogate directly before a lone low one. */
  ghost predicate Clean(s: Str) {
    forall i | 0 <= i < |s| - 1 :: !(High(s[i]) && Low(s[i + 1]))
  }

  lemma {:induction false} CombineShrinks(s: Str)
    ensures |Combine(Utf16(s))| <= |s|
    decreases |s|
  {
    if s != [] {
      Unfold(s);
      CombineShrinks(s[1..]);
      if |s| >= 2 && High(s[0]) && Low(s[1]) { CombineShrinks(s[2..]); }
    }
  }

  /** One step of decoding what was encoded. */
  lemma {:induction false} Unfold(s: Str)
    requires s != []
    ensures Combine(Utf16(s)) ==
              if |s| >= 2 && High(s[0]) && Low(s[1])
              then [0x1_0000 + (s[0] - 0xD800) * 0x400 + (s[1] - 0xDC00)] + Combine(Utf16(s[2..]))
              else [s[0]] + Combine(Utf16(s[1..]))
  {
    var u := Utf16(s);
    if s[0] >= 0x1_0000 {
      assert u[2..] == Utf16(s[1..]);
    } else {
      assert u[1..] == Utf16(s[1..]);
      if |s| >= 2 {
        assert u[1..][0] == UnitsOf(s[1])[0];
        if High(s[0]) && Low(s[1]) { assert u[2..] == Utf16(s[1..])[1..] == Utf16(s[2..]); }
      }
    }
  }

  /** Decoding undoes encoding exactly on the clean strings: two adjacent lone surrogates come back as
      one character. */
  lemma {:induction false} CombineUtf16(s: Str)
    ensures Combine(Utf16(s)) == s <==> Clean(s)
    decreases |s|
  {
    if s != [] {
      Unfold(s);
      if |s| >= 2 && High(s[0]) && Low(s[1]) {
        CombineShrinks(s[2..]);
      } else {
        CombineUtf16(s[1..]);
        assert s == [s[0]] + s[1..];
        if Clean(s[1..]) {
          forall i | 0 <= i < |s| - 1 ensures !(High(s[i]) && Low(s[i + 1])) {
            if i > 0 { assert s[i] == s[1..][i - 1] && s[i + 1] == s[1..][i]; }
          }
        } else {
          var i :| 0 <= i < |s[1..]| - 1 && High(s[1..][i]) && Low(s[1..][i + 1]);
          assert High(s[i + 1]) && Low(s[i + 2]);
        }
      }
    }
  }

  lemma {:induction false} Utf16Concat(a: Str, b: Str)
    ensures Utf16(a + b) == Utf16(a) + Utf16(b)
  {
    if a == [] {
      assert a + b == b;
    } else {
      assert (a + b)[1..] == a[1..] + b;
      Utf16Concat(a[1..], b);
    }
  }
}
