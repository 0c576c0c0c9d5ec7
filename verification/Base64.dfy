/** Base64 with the standard alphabet (section 4 of RFC 4648): Python's `b64encode`, and `b64decode` in its
    default, lenient mode, which skips characters outside the alphabet. */
module Base64 {
  import opened Common

  type Byte = b: int | 0 <= b < 256

  function Digit(n: int): char
    requires 0 <= n < 64
  {
    if n < 26 then ('A' as int + n) as char
    else if n < 52 then ('a' as int + n - 26) as char
    else if n < 62 then ('0' as int + n - 52) as char
    else if n == 62 then '+' else '/'
  }

  function Value(c: char): (r: Option<int>)
    ensures r.Some? ==> 0 <= r.value < 64
  {
    if 'A' <= c <= 'Z' then Some(c as int - 'A' as int)
    else if 'a' <= c <= 'z' then Some(c as int - 'a' as int + 26)
    else if '0' <= c <= '9' then Some(c as int - '0' as int + 52)
    else if c == '+' then Some(62) else if c == '/' then Some(63) else None
  }

  function Encode(b: seq<Byte>): string {
    if b == [] then ""
    else if |b| == 1 then [Digit(b[0] / 4), Digit(b[0] % 4 * 16), '=', '=']
    else if |b| == 2 then [Digit(b[0] / 4), Digit(b[0] % 4 * 16 + b[1] / 16), Digit(b[1] % 16 * 4), '=']
    else
      [Digit(b[0] / 4), Digit(b[0] % 4 * 16 + b[1] / 16), Digit(b[1] % 16 * 4 + b[2] / 64), Digit(b[2] % 64)]
      + Encode(b[3..])
  }

  function Prepend(b: Byte, rest: Option<seq<Byte>>): Option<seq<Byte>> {
    match rest { case Some(bs) => Some([b] + bs) case None => None }
  }

  /** The decoder with `quad` digits of the current group read, `left` the bits not yet used, and `pads` padding
      characters seen since the last digit. Enough padding ends the input; running out inside a group fails. */
  function Decode(s: string, quad: int, left: int, pads: nat): Option<seq<Byte>>
    requires 0 <= quad < 4 && 0 <= left < 64
    requires (quad == 2 ==> left < 16) && (quad == 3 ==> left < 4)
    decreases |s|
  {
    if s == "" then if quad == 0 then Some([]) else None
    else if s[0] == '=' then
      if quad < 2 then Decode(s[1..], quad, left, pads)
      else if quad + pads + 1 >= 4 then Some([])
      else Decode(s[1..], quad, left, pads + 1)
    else match Value(s[0])
      case None => Decode(s[1..], quad, left, pads)
      case Some(v) =>
        if quad == 0 then Decode(s[1..], 1, v, 0)
        else if quad == 1 then Prepend(left * 4 + v / 16, Decode(s[1..], 2, v % 16, 0))
        else if quad == 2 then Prepend(left * 16 + v / 4, Decode(s[1..], 3, v % 4, 0))
        else Prepend(left * 64 + v, Decode(s[1..], 0, 0, 0))
  }

  function B64Decode(s: string): Option<seq<Byte>> {
    Decode(s, 0, 0, 0)
  }

  lemma DigitValue(n: int)
    requires 0 <= n < 64
    ensures Value(Digit(n)) == Some(n) && Digit(n) != '=' && Digit(n) != '.'
  {
  }

  /** One digit read by the decoder. */
  lemma ReadDigit(n: int, rest: string, quad: int, left: int)
    requires 0 <= n < 64 && 0 <= quad < 4 && 0 <= left < 64
    requires (quad == 2 ==> left < 16) && (quad == 3 ==> left < 4)
    ensures Decode([Digit(n)] + rest, quad, left, 0) ==
              if quad == 0 then Decode(rest, 1, n, 0)
              else if quad == 1 then Prepend(left * 4 + n / 16, Decode(rest, 2, n % 16, 0))
              else if quad == 2 then Prepend(left * 16 + n / 4, Decode(rest, 3, n % 4, 0))
              else Prepend(left * 64 + n, Decode(rest, 0, 0, 0))
  {
    DigitValue(n);
    assert ([Digit(n)] + rest)[1..] == rest;
  }

  lemma OneByte(b: Byte)
    ensures B64Decode(Encode([b])) == Some([b])
  {
    var c0, c1 := b / 4, b % 4 * 16;
    assert Encode([b]) == [Digit(c0)] + ([Digit(c1)] + "==");
    ReadDigit(c0, [Digit(c1)] + "==", 0, 0);
    ReadDigit(c1, "==", 1, c0);
    assert Decode("==", 2, c1 % 16, 0) == Some([]) by { assert "=="[1..] == "="; }
    assert c0 * 4 + c1 / 16 == b;
    var tail: seq<Byte> := [];
    assert [b] + tail == [b];
  }

  lemma TwoBytes(b: Byte, d: Byte)
    ensures B64Decode(Encode([b, d])) == Some([b, d])
  {
    var c0, c1, c2 := b / 4, b % 4 * 16 + d / 16, d % 16 * 4;
    assert Encode([b, d]) == [Digit(c0)] + ([Digit(c1)] + ([Digit(c2)] + "="));
    ReadDigit(c0, [Digit(c1)] + ([Digit(c2)] + "="), 0, 0);
    ReadDigit(c1, [Digit(c2)] + "=", 1, c0);
    ReadDigit(c2, "=", 2, c1 % 16);
    assert Decode("=", 3, c2 % 4, 0) == Some([]);
    assert c0 * 4 + c1 / 16 == b && c1 % 16 * 16 + c2 / 4 == d;
    var tail: seq<Byte> := [];
    assert [b] + ([d] + tail) == [b, d];
  }

  lemma ThreeBytes(b: Byte, d: Byte, e: Byte, rest: string)
    ensures var group := [Digit(b / 4), Digit(b % 4 * 16 + d / 16), Digit(d % 16 * 4 + e / 64), Digit(e % 64)];
            B64Decode(group + rest) == Prepend(b, Prepend(d, Prepend(e, B64Decode(rest))))
  {
    var c0, c1, c2, c3 := b / 4, b % 4 * 16 + d / 16, d % 16 * 4 + e / 64, e % 64;
    assert [Digit(c0), Digit(c1), Digit(c2), Digit(c3)] + rest
        == [Digit(c0)] + ([Digit(c1)] + ([Digit(c2)] + ([Digit(c3)] + rest)));
    ReadDigit(c0, [Digit(c1)] + ([Digit(c2)] + ([Digit(c3)] + rest)), 0, 0);
    ReadDigit(c1, [Digit(c2)] + ([Digit(c3)] + rest), 1, c0);
    ReadDigit(c2, [Digit(c3)] + rest, 2, c1 % 16);
    ReadDigit(c3, rest, 3, c2 % 4);
    assert c0 * 4 + c1 / 16 == b && c1 % 16 * 16 + c2 / 4 == d && c2 % 4 * 64 + c3 == e;
  }

  lemma {:induction false} RoundTrip(b: seq<Byte>)
    ensures B64Decode(Encode(b)) == Some(b)
  {
    hide Digit, Value, B64Decode;
    if |b| == 1 {
      OneByte(b[0]);
      assert b == [b[0]];
    } else if |b| == 2 {
      TwoBytes(b[0], b[1]);
      assert b == [b[0], b[1]];
    } else if |b| > 2 {
      RoundTrip(b[3..]);
      ThreeBytes(b[0], b[1], b[2], Encode(b[3..]));
      assert b == [b[0]] + ([b[1]] + ([b[2]] + b[3..]));
    } else {
      NoBytes();
    }
  }

  // ----- The URL alphabet (section 5 of RFC 4648) -----

  function ToUrl(s: string): string {
    if s == "" then "" else [if s[0] == '+' then '-' else if s[0] == '/' then '_' else s[0]] + ToUrl(s[1..])
  }

  /** Some group of six bits has its five highest bits set. */
  predicate HighSextet(b: seq<Byte>) {
    if b == [] then false
    else if |b| == 1 then b[0] / 4 >= 62
    else if |b| == 2 then b[0] / 4 >= 62 || b[0] % 4 * 16 + b[1] / 16 >= 62
    else b[0] / 4 >= 62 || b[0] % 4 * 16 + b[1] / 16 >= 62 || b[1] % 16 * 4 + b[2] / 64 >= 62 || b[2] % 64 >= 62
         || HighSextet(b[3..])
  }

  lemma {:induction false} ToUrlSame(s: string)
    ensures ToUrl(s) == s <==> '+' !in s && '/' !in s
  {
    if s != "" {
      ToUrlSame(s[1..]);
      assert s == [s[0]] + s[1..];
    }
  }

  /** The header is documented as base64url. What is written is base64url if and only if no group of six bits is 62
      or 63. */
  lemma {:induction false} UrlSafeIff(b: seq<Byte>)
    ensures ToUrl(Encode(b)) == Encode(b) <==> !HighSextet(b)
  {
    ToUrlSame(Encode(b));
    SpecialDigits(b);
  }

  lemma {:induction false} SpecialDigits(b: seq<Byte>)
    ensures '+' in Encode(b) || '/' in Encode(b) <==> HighSextet(b)
  {
    if |b| > 2 {
      SpecialDigits(b[3..]);
    }
  }

  lemma NoBytes()
    ensures B64Decode("") == Some([])
  {
  }

  lemma {:induction false} NoDot(b: seq<Byte>)
    ensures '.' !in Encode(b) && forall c | c in Encode(b) :: c < 128 as char
  {
    if |b| > 2 {
      NoDot(b[3..]);
    }
  }

  /** Table 1 of RFC 4648, in four parts. */
  lemma AlphabetTable(n: nat)
    ensures n < 26 ==> Digit(n) == "ABCDEFGHIJKLMNOPQRSTUVWXYZ"[n] && Digit(n + 26) == "abcdefghijklmnopqrstuvwxyz"[n]
    ensures n < 10 ==> Digit(n + 52) == "0123456789"[n]
    ensures Digit(62) == '+' && Digit(63) == '/'
  {
    assert n >= 26 || n in {0, 1, 2, 3, 4, 5, 6, 7, 8, 9, 10, 11, 12}
                   || n in {13, 14, 15, 16, 17, 18, 19, 20, 21, 22, 23, 24, 25};
  }

  /** The bytes of `f`, `fo` and `foo` in section 10 of RFC 4648. */
  lemma TestVectors()
    ensures Encode([102]) == "Zg==" && Encode([102, 111]) == "Zm8="
    ensures Encode([102, 111, 111]) == "Zm9v"
  {
    var none: seq<Byte> := [];
    assert [102, 111, 111][3..] == none && Encode(none) == "";
  }
}
