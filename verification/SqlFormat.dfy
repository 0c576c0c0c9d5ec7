/** `formatSql` of frontends/analytics-dashboard/components/chat/SqlReveal.tsx: eighteen regular-expression passes
    over the text, shown to be one local layout rule over its whitespace-separated tokens. */
module SqlFormat {
  import opened Common
  import opened Unicode
  import opened JsText

  const SP: Unit := 0x20
  const NL: Unit := 0x0A
  const SINGLE: Unit := 0x27
  const DOUBLE: Unit := 0x22

  // ----- Tokens: what white space separates -----

  ghost predicate IsToken(w: Units) {
    w != [] && forall i | 0 <= i < |w| :: !Space(w[i])
  }

  ghost predicate AllTokens(ts: seq<Units>) {
    forall i | 0 <= i < |ts| :: IsToken(ts[i])
  }

  function Tokens(s: Units): (ts: seq<Units>)
    ensures AllTokens(ts)
    ensures s != [] && !Space(s[0]) ==> ts != []
  {
    if s == [] then []
    else if Space(s[0]) then Tokens(s[1..])
    else if s[1..] == [] || Space(s[1]) then [[s[0]]] + Tokens(s[1..])
    else
      var rest := Tokens(s[1..]);
      [[s[0]] + rest[0]] + rest[1..]
  }

  lemma {:induction false} TokensOfWord(w: Units, rest: Units)
    requires IsToken(w) && (rest == [] || Space(rest[0]))
    ensures Tokens(w + rest) == [w] + Tokens(rest)
  {
    if |w| == 1 {
      assert (w + rest)[1..] == rest && w == [w[0]];
    } else {
      assert (w + rest)[1..] == w[1..] + rest;
      TokensOfWord(w[1..], rest);
      assert [w[0]] + w[1..] == w;
    }
  }

  // ----- Normalisation -----

  /** `replace(/\s+/g, " ")`; `inRun` says that the run of white space has been replaced already. */
  function Collapse(inRun: bool, s: Units): Units
    decreases s
  {
    if s == [] then []
    else if !Space(s[0]) then [s[0]] + Collapse(false, s[1..])
    else if inRun then Collapse(true, s[1..])
    else [SP] + Collapse(true, s[1..])
  }

  function Normalize(s: Units): Units {
    Trim(Collapse(false, s))
  }

  /** Tokens with one space between them. */
  function Spaced(ts: seq<Units>): Units {
    if ts == [] then [] else if |ts| == 1 then ts[0] else ts[0] + ([SP] + Spaced(ts[1..]))
  }

  function Trailing(s: Units): Units {
    if s != [] && Space(s[|s| - 1]) && Tokens(s) != [] then [SP] else []
  }

  lemma {:induction false} CollapseSpaces(s: Units)
    ensures Collapse(true, s) == Spaced(Tokens(s)) + Trailing(s)
  {
    if s != [] {
      var rest, ts := s[1..], Tokens(s[1..]);
      CollapseSpaces(rest);
      if rest == [] {
        assert !Space(s[0]) ==> Tokens(s) == [[s[0]]];
      } else {
        assert s[|s| - 1] == rest[|rest| - 1];
        if Space(s[0]) {
        } else if Space(rest[0]) {
          if ts != [] {
            Assoc([s[0]] + [SP], Spaced(ts), Trailing(rest));
            assert Tokens(s)[1..] == ts;
          } else {
            BlankEnds(rest);
            assert Tokens(s) == [[s[0]]];
          }
        } else {
          Assoc([s[0]], Spaced(ts), Trailing(rest));
          LongerToken(s[0], ts);
        }
      }
    }
  }

  lemma LongerToken(c: Unit, ts: seq<Units>)
    requires ts != []
    ensures Spaced([[c] + ts[0]] + ts[1..]) == [c] + Spaced(ts)
  {
    if |ts| > 1 {
      assert ([[c] + ts[0]] + ts[1..])[1..] == ts[1..];
      Assoc([c], ts[0], [SP] + Spaced(ts[1..]));
    }
  }

  lemma {:induction false} BlankEnds(s: Units)
    requires s != [] && Tokens(s) == []
    ensures Space(s[|s| - 1])
  {
    if |s| > 1 {
      BlankEnds(s[1..]);
    }
  }

  lemma {:induction false} SpacedEnds(ts: seq<Units>)
    requires ts != [] && AllTokens(ts)
    ensures Spaced(ts) != [] && !Space(Spaced(ts)[0]) && !Space(Spaced(ts)[|Spaced(ts)| - 1])
  {
    assert IsToken(ts[0]);
    if |ts| > 1 {
      SpacedEnds(ts[1..]);
    }
  }

  /** Normalising leaves the tokens with one space between them: the rest of the text is lost. */
  lemma {:induction false} NormalizeMeaning(s: Units)
    ensures Normalize(s) == Spaced(Tokens(s))
  {
    var c, p, t := Collapse(false, s), Spaced(Tokens(s)), Trailing(s);
    CollapseSpaces(s);
    if s != [] && Space(s[0]) {
      assert c == [SP] + (p + t);
      assert c[1..] == p + t;
      assert TrimStart(c) == TrimStart(p + t);
    } else {
      assert c == p + t;
    }
    if Tokens(s) != [] {
      SpacedEnds(Tokens(s));
      assert TrimStart(p + t) == p + t;
      assert TrimEnd(p) == p;
      if t != [] {
        assert (p + t)[..|p + t| - 1] == p;
      } else {
        assert p + t == p;
      }
    } else {
      assert p + t == [];
    }
  }

  // ----- One keyword -----

  datatype Keyword = One(w: string) | Two(w: string, v: string)

  /** In the order of the source. */
  const KEYWORDS: seq<Keyword> := [
    One("SELECT"), One("FROM"), One("WHERE"), One("JOIN"),
    Two("LEFT", "JOIN"), Two("RIGHT", "JOIN"), Two("INNER", "JOIN"), Two("OUTER", "JOIN"), Two("CROSS", "JOIN"),
    Two("GROUP", "BY"), Two("ORDER", "BY"), One("HAVING"), One("LIMIT"), One("OFFSET"),
    One("UNION"), Two("UNION", "ALL"), One("AND"), One("OR")]

  predicate Letters(w: string) {
    w != "" && forall i | 0 <= i < |w| :: 'A' <= w[i] <= 'Z'
  }

  ghost predicate Proper(k: Keyword) {
    Letters(k.w) && (k.Two? ==> Letters(k.v) && k.v != k.w)
  }

  function Pattern(k: Keyword): string {
    if k.One? then k.w else k.w + " " + k.v
  }

  /** `\w` */
  predicate WordChar(u: Unit) {
    '0' as int <= u <= '9' as int || 'A' as int <= u <= 'Z' as int || 'a' as int <= u <= 'z' as int || u == '_' as int
  }

  /** Case folding of the flag `i`: without the flag `u` no other character folds to an ASCII letter. */
  function Upper(u: Unit): Unit {
    if 'a' as int <= u <= 'z' as int then u - 32 else u
  }

  /** The pattern followed by `\b`, at the start of `s`; the pattern ends in a letter. */
  predicate Match(s: Units, p: string) {
    && |p| <= |s|
    && (forall i | 0 <= i < |p| :: Upper(s[i]) == p[i] as int)
    && !(|p| < |s| && WordChar(s[|p|]))
  }

  const BREAK: Units := [NL, SP, SP]

  /** `replace(/(?<=\s)(p)\b/gi, "\n  $1")`; `after` says that a white-space character comes before `s`. */
  function Replace(after: bool, s: Units, p: string): Units
    requires p != ""
    decreases s
  {
    if s == [] then []
    else if after && Match(s, p) then BREAK + (s[..|p|] + Replace(Space(s[|p| - 1]), s[|p|..], p))
    else [s[0]] + Replace(Space(s[0]), s[1..], p)
  }

  // ----- Texts between two passes: tokens, each after a space and some line breaks -----

  datatype Item = Item(breaks: nat, word: Units)

  function Breaks(n: nat): Units {
    if n == 0 then [] else BREAK + Breaks(n - 1)
  }

  function Tail(items: seq<Item>): Units {
    if items == [] then [] else [SP] + (Breaks(items[0].breaks) + (items[0].word + Tail(items[1..])))
  }

  ghost predicate Sound(items: seq<Item>) {
    forall i | 0 <= i < |items| :: IsToken(items[i].word)
  }

  /** The letters, digits and underscores a token starts with, in upper case. */
  function Lead(w: Units): string {
    if w != [] && WordChar(w[0]) then [Upper(w[0]) as char] + Lead(w[1..]) else ""
  }

  predicate Whole(w: Units, p: string) {
    Lead(w) == p && |w| == |p|
  }

  lemma {:induction false} LeadMeaning(w: Units)
    ensures |Lead(w)| <= |w|
    ensures forall i | 0 <= i < |Lead(w)| :: WordChar(w[i]) && Lead(w)[i] as int == Upper(w[i])
    ensures |Lead(w)| < |w| ==> !WordChar(w[|Lead(w)|])
  {
    if w != [] && WordChar(w[0]) {
      LeadMeaning(w[1..]);
      forall i | 0 <= i < |Lead(w)| ensures WordChar(w[i]) && Lead(w)[i] as int == Upper(w[i]) {
        if i > 0 {
          assert w[i] == w[1..][i - 1] && Lead(w)[i] == Lead(w[1..])[i - 1];
        }
      }
    }
  }

  /** A one-word keyword matches at a token exactly if it is what the token starts with. */
  lemma {:induction false} MatchWord(w: Units, rest: Units, p: string)
    requires IsToken(w) && Letters(p) && (rest == [] || rest[0] == SP)
    ensures Match(w + rest, p) <==> Lead(w) == p
  {
    var s := w + rest;
    LeadMeaning(w);
    assert forall i | 0 <= i < |w| :: s[i] == w[i];
    assert rest != [] ==> s[|w|] == SP;
    if Match(s, p) {
      assert |p| <= |w| by {
        assert forall i | 0 <= i < |p| :: Upper(s[i]) != SP;
      }
      assert w[..|p|] + w[|p|..] == w;
      LeadOf(w[..|p|], p);
      LeadThen(w, |p|);
    }
  }

  /** Letters before a boundary are all there is. */
  lemma {:induction false} LeadThen(w: Units, n: nat)
    requires n <= |w| && |Lead(w[..n])| == n && (n < |w| ==> !WordChar(w[n]))
    ensures Lead(w) == Lead(w[..n])
  {
    if n > 0 {
      assert w[..n][0] == w[0] && w[..n][1..] == w[1..][..n - 1];
      LeadThen(w[1..], n - 1);
    }
  }

  /** A two-word keyword matches exactly at a token equal to its first word, before a single space and a match
      of its second. */
  lemma {:induction false} MatchPair(w: Units, rest: Units, k: Keyword)
    requires k.Two? && Proper(k) && IsToken(w) && (rest == [] || rest[0] == SP)
    ensures Match(w + rest, Pattern(k)) <==> Whole(w, k.w) && rest != [] && Match(rest[1..], k.v)
  {
    var s, p, n := w + rest, Pattern(k), |k.w|;
    assert forall i | 0 <= i < n :: p[i] == k.w[i];
    assert forall i | 0 <= i < |k.v| :: p[n + 1 + i] == k.v[i];
    assert p[n] == ' ';
    LeadMeaning(w);
    if Match(s, p) {
      FirstWordWhole(w, rest, k);
      assert forall i | 0 <= i < |rest| - 1 :: rest[1..][i] == s[n + 1 + i];
      forall i | 0 <= i < |k.v| ensures Upper(rest[1..][i]) == k.v[i] as int {
        assert Upper(s[n + 1 + i]) == p[n + 1 + i] as int;
      }
    } else if Whole(w, k.w) && rest != [] && Match(rest[1..], k.v) {
      PairMatches(w, rest, k);
    }
  }

  lemma PairMatches(w: Units, rest: Units, k: Keyword)
    requires k.Two? && Proper(k) && rest != [] && rest[0] == SP
    requires Whole(w, k.w) && Match(rest[1..], k.v)
    ensures Match(w + rest, Pattern(k))
  {
    var s, p, n := w + rest, Pattern(k), |k.w|;
    LeadMeaning(w);
    assert forall i | 0 <= i < |rest| - 1 :: rest[1..][i] == s[n + 1 + i];
    forall i | 0 <= i < |p| ensures Upper(s[i]) == p[i] as int {
      if i < n {
        assert s[i] == w[i] && p[i] == k.w[i];
      } else if i > n {
        assert p[i] == k.v[i - n - 1] && s[i] == rest[1..][i - n - 1];
      }
    }
  }

  lemma FirstWordWhole(w: Units, rest: Units, k: Keyword)
    requires k.Two? && Proper(k) && IsToken(w) && (rest == [] || rest[0] == SP)
    requires Match(w + rest, Pattern(k))
    ensures Whole(w, k.w) && rest != []
  {
    var s, p, n := w + rest, Pattern(k), |k.w|;
    assert p[n] == ' ' && forall i | 0 <= i < n :: p[i] == k.w[i];
    assert forall i | 0 <= i < n :: Upper(s[i]) == k.w[i] as int;
    assert Upper(s[n]) == SP;
    assert n >= |w| by {
      assert forall i | 0 <= i < |w| :: s[i] == w[i] && Upper(w[i]) != SP;
    }
    assert n <= |w| by {
      assert rest != [] && s[|w|] == SP;
      assert forall i | 0 <= i < n :: Upper(s[i]) != SP;
    }
    LeadOf(w, k.w);
  }

  lemma {:induction false} LeadOf(w: Units, p: string)
    requires |w| == |p| && forall i | 0 <= i < |p| :: 'A' <= p[i] <= 'Z' && Upper(w[i]) == p[i] as int
    ensures Lead(w) == p
  {
    if w != [] {
      assert 'A' <= p[0] <= 'Z' && Upper(w[0]) == p[0] as int;
      LeadOf(w[1..], p[1..]);
    }
  }

  /** Whether the keyword matches at the first of these tokens, which a space precedes. */
  predicate Hit(items: seq<Item>, k: Keyword)
    requires items != []
  {
    match k
    case One(w) => Lead(items[0].word) == w
    case Two(w, v) => Whole(items[0].word, w) && |items| > 1 && items[1].breaks == 0 && Lead(items[1].word) == v
  }

  lemma TailStart(items: seq<Item>)
    ensures Tail(items) == [] || Tail(items)[0] == SP
  {
  }

  lemma {:induction false} MatchIsHit(items: seq<Item>, k: Keyword)
    requires items != [] && Sound(items) && Proper(k)
    ensures Match(items[0].word + Tail(items[1..]), Pattern(k)) <==> Hit(items, k)
  {
    hide Match, Lead, Whole, Space;
    assert IsToken(items[0].word);
    var w, rest := items[0].word, items[1..];
    TailStart(rest);
    match k
    case One(p) =>
      MatchWord(w, Tail(rest), p);
    case Two(_, v) =>
      MatchPair(w, Tail(rest), k);
      if rest != [] {
        var next, after := items[1], rest[1..];
        assert rest[0] == next && IsToken(next.word);
        assert Tail(rest)[1..] == Breaks(next.breaks) + (next.word + Tail(after));
        if next.breaks == 0 {
          assert Tail(rest)[1..] == next.word + Tail(after);
          TailStart(after);
          MatchWord(next.word, Tail(after), v);
        } else {
          NoMatchAtBreak(Breaks(next.breaks - 1), next.word + Tail(after), v);
        }
      }
  }

  lemma NoMatchAtBreak(b: Units, s: Units, p: string)
    requires Letters(p)
    ensures !Match((BREAK + b) + s, p)
  {
    assert ((BREAK + b) + s)[0] == NL;
    assert Upper(NL) != p[0] as int;
  }

  // ----- One pass -----

  function Pass(items: seq<Item>, k: Keyword): seq<Item> {
    if items == [] then []
    else [Item(items[0].breaks + if Hit(items, k) then 1 else 0, items[0].word)] + Pass(items[1..], k)
  }

  lemma {:induction false} ReplaceInWord(w: Units, rest: Units, p: string)
    requires p != "" && forall i | 0 <= i < |w| :: !Space(w[i])
    ensures Replace(false, w + rest, p) == w + Replace(false, rest, p)
  {
    hide Match;
    if w == [] {
      assert w + rest == rest;
    } else {
      assert (w + rest)[1..] == w[1..] + rest;
      ReplaceInWord(w[1..], rest, p);
      assert w == [w[0]] + w[1..];
      Assoc([w[0]], w[1..], Replace(false, rest, p));
    }
  }

  /** A character that the keyword cannot start with is copied. */
  lemma ReplaceCopies(after: bool, c: Unit, rest: Units, k: Keyword)
    requires Proper(k) && (c == SP || c == NL)
    ensures Replace(after, [c] + rest, Pattern(k)) == [c] + Replace(true, rest, Pattern(k))
  {
    var s, p := [c] + rest, Pattern(k);
    assert p[0] == k.w[0];
    assert Upper(s[0]) != p[0] as int;
    assert !Match(s, p);
    assert s[1..] == rest;
  }

  lemma {:induction false} ReplaceBreaks(n: nat, rest: Units, k: Keyword)
    requires Proper(k)
    ensures Replace(true, Breaks(n) + rest, Pattern(k)) == Breaks(n) + Replace(true, rest, Pattern(k))
  {
    hide Match, Replace, Pattern;
    if n == 0 {
      assert [] + rest == rest;
    } else {
      var tail := Breaks(n - 1) + rest;
      assert Breaks(n) + rest == [NL] + ([SP] + ([SP] + tail));
      ReplaceCopies(true, NL, [SP] + ([SP] + tail), k);
      ReplaceCopies(true, SP, [SP] + tail, k);
      ReplaceCopies(true, SP, tail, k);
      ReplaceBreaks(n - 1, rest, k);
    }
  }

  /** At a token after a space: a match adds a line break and nothing else. */
  lemma {:induction false} ReplaceAtWord(items: seq<Item>, k: Keyword)
    requires items != [] && Sound(items) && Proper(k)
    requires Replace(false, Tail(items[1..]), Pattern(k)) == Tail(Pass(items[1..], k))
    requires |items| > 1 ==> Replace(false, Tail(items[2..]), Pattern(k)) == Tail(Pass(items[2..], k))
    ensures Replace(true, items[0].word + Tail(items[1..]), Pattern(k))
         == Breaks(if Hit(items, k) then 1 else 0) + (items[0].word + Tail(Pass(items[1..], k)))
  {
    hide Match, Space, Lead, Whole;
    var w, rest, p := items[0].word, items[1..], Pattern(k);
    var s := w + Tail(rest);
    assert IsToken(w);
    MatchIsHit(items, k);
    if !Hit(items, k) {
      NoHit(w, Tail(rest), p);
      assert [] + (w + Tail(Pass(rest, k))) == w + Tail(Pass(rest, k));
    } else if k.One? {
      OneHit(w, Tail(rest), p);
      assert Breaks(1) == BREAK;
    } else {
      TwoHit(items, k);
      assert Breaks(1) == BREAK;
    }
  }

  lemma NoHit(w: Units, rest: Units, p: string)
    requires IsToken(w) && p != "" && !Match(w + rest, p)
    ensures Replace(true, w + rest, p) == w + Replace(false, rest, p)
  {
    hide Match;
    assert (w + rest)[0] == w[0] && !Space(w[0]);
    assert (w + rest)[1..] == w[1..] + rest;
    ReplaceInWord(w[1..], rest, p);
    assert [w[0]] + w[1..] == w;
    Assoc([w[0]], w[1..], Replace(false, rest, p));
  }

  lemma OneHit(w: Units, rest: Units, p: string)
    requires IsToken(w) && Letters(p) && Match(w + rest, p) && Lead(w) == p
    ensures Replace(true, w + rest, p) == BREAK + (w + Replace(false, rest, p))
  {
    var s, n := w + rest, |p|;
    LeadMeaning(w);
    assert s[..n] == w[..n] && s[n..] == w[n..] + rest && s[n - 1] == w[n - 1];
    ReplaceInWord(w[n..], rest, p);
    assert w[..n] + w[n..] == w;
    Assoc(w[..n], w[n..], Replace(false, rest, p));
  }

  /** After a two-word match the scan goes on inside the second token. */
  lemma {:induction false} TwoHit(items: seq<Item>, k: Keyword)
    requires items != [] && Sound(items) && Proper(k) && k.Two?
    requires Hit(items, k) && Match(items[0].word + Tail(items[1..]), Pattern(k))
    requires Replace(false, Tail(items[2..]), Pattern(k)) == Tail(Pass(items[2..], k))
    ensures Replace(true, items[0].word + Tail(items[1..]), Pattern(k))
         == BREAK + (items[0].word + Tail(Pass(items[1..], k)))
  {
    hide Match, Lead, Replace, Space, Pattern;
    var w, x, after := items[0].word, items[1].word, Tail(items[2..]);
    assert IsToken(items[0].word) && IsToken(items[1].word);
    assert items[1..][1..] == items[2..];
    OneSpace(Item(0, x), items[2..]);
    assert items[1..] == [Item(0, x)] + items[2..];
    assert Tail(items[1..]) == [SP] + (x + after);
    ScanPair(w, x, after, k);
    assert !Hit(items[1..], k);
    assert Pass(items[1..], k) == [Item(0, x)] + Pass(items[2..], k);
    OneSpace(Item(0, x), Pass(items[2..], k));
  }

  lemma OneSpace(item: Item, rest: seq<Item>)
    requires item.breaks == 0
    ensures Tail([item] + rest) == [SP] + (item.word + Tail(rest))
  {
    assert ([item] + rest)[1..] == rest;
    assert [] + (item.word + Tail(rest)) == item.word + Tail(rest);
  }

  lemma ScanPair(w: Units, x: Units, after: Units, k: Keyword)
    requires Proper(k) && k.Two? && IsToken(w) && IsToken(x) && |w| == |k.w| && Lead(x) == k.v
    requires Match(w + ([SP] + (x + after)), Pattern(k))
    ensures Replace(true, w + ([SP] + (x + after)), Pattern(k))
         == BREAK + (w + ([SP] + (x + Replace(false, after, Pattern(k)))))
  {
    hide Match;
    var s, p, n := w + ([SP] + (x + after)), Pattern(k), |k.v|;
    LeadMeaning(x);
    var front, back := w + ([SP] + x[..n]), x[n..];
    assert x == x[..n] + back;
    SplitPair(w, x[..n], back, after);
    assert s == front + (back + after) && |front| == |p|;
    assert s[..|p|] == front && s[|p|..] == back + after;
    assert s[|p| - 1] == x[n - 1] && !Space(x[n - 1]);
    ReplaceInWord(back, after, p);
    SplitPair(w, x[..n], back, Replace(false, after, p));
  }

  lemma SplitPair(w: Units, a: Units, b: Units, c: Units)
    ensures w + ([SP] + ((a + b) + c)) == (w + ([SP] + a)) + (b + c)
  {
  }

  lemma {:induction false} BreaksNext(n: nat)
    ensures Breaks(n) + BREAK == Breaks(n + 1)
  {
    if n == 0 {
      assert Breaks(1) == BREAK + [] == BREAK;
    } else {
      BreaksNext(n - 1);
      Assoc(BREAK, Breaks(n - 1), BREAK);
    }
  }

  /** The pass over the text is the pass over its tokens. */
  lemma {:induction false} ReplaceIsPass(items: seq<Item>, k: Keyword)
    requires Sound(items) && Proper(k)
    ensures Replace(false, Tail(items), Pattern(k)) == Tail(Pass(items, k))
    decreases |items|
  {
    hide Match, Space, Lead, Whole, Hit, Replace, Pattern;
    if items == [] {
      ReplaceNothing(k);
    } else {
      var n, w, rest := items[0].breaks, items[0].word, items[1..];
      ReplaceIsPass(rest, k);
      if |items| > 1 {
        ReplaceIsPass(items[2..], k);
      }
      ReplaceAtWord(items, k);
      ReplaceCopies(false, SP, Breaks(n) + (w + Tail(rest)), k);
      ReplaceBreaks(n, w + Tail(rest), k);
      var more := if Hit(items, k) then 1 else 0;
      MoreBreaks(n, more, w + Tail(Pass(rest, k)));
      assert Pass(items, k)[1..] == Pass(rest, k);
    }
  }

  lemma ReplaceNothing(k: Keyword)
    requires Proper(k)
    ensures Replace(false, [], Pattern(k)) == []
  {
  }

  lemma MoreBreaks(n: nat, more: nat, s: Units)
    requires more <= 1
    ensures Breaks(n) + (Breaks(more) + s) == Breaks(n + more) + s
  {
    if more == 1 {
      assert Breaks(1) == BREAK;
      BreaksNext(n);
      Assoc(Breaks(n), BREAK, s);
    } else {
      assert Breaks(0) + s == s;
    }
  }

  // ----- The rule that all the passes add up to -----

  const CLAUSES: seq<string> := [
    "SELECT", "FROM", "WHERE", "JOIN", "HAVING", "LIMIT", "OFFSET", "UNION", "AND", "OR"]

  /** Line breaks before the first of these tokens, by the token and the one after it alone. */
  function BreaksBefore(ts: seq<Units>): nat {
    if ts == [] then 0
    else
      (if Lead(ts[0]) in CLAUSES then 1 else 0)
      + if |ts| > 1 && ( || (Whole(ts[0], "GROUP") && Lead(ts[1]) == "BY")
                         || (Whole(ts[0], "ORDER") && Lead(ts[1]) == "BY")
                         || (Whole(ts[0], "UNION") && Lead(ts[1]) == "ALL"))
        then 1 else 0
  }

  function LayTail(ts: seq<Units>): Units {
    if ts == [] then [] else [SP] + (Breaks(BreaksBefore(ts)) + (ts[0] + LayTail(ts[1..])))
  }

  /** The whole text: never a break before the first token. */
  function LayOut(ts: seq<Units>): Units {
    if ts == [] then [] else ts[0] + LayTail(ts[1..])
  }

  /** The pass that breaks the line at a token with this start. */
  function ClausePass(lead: string): nat {
    if lead == "SELECT" then 0 else if lead == "FROM" then 1 else if lead == "WHERE" then 2
    else if lead == "JOIN" then 3 else if lead == "HAVING" then 11 else if lead == "LIMIT" then 12
    else if lead == "OFFSET" then 13 else if lead == "UNION" then 14 else if lead == "AND" then 16
    else if lead == "OR" then 17 else 18
  }

  /** The pass that breaks the line at this token because of the token after it. */
  function PairPass(w: Units, next: string): nat {
    if Whole(w, "GROUP") && next == "BY" then 9 else if Whole(w, "ORDER") && next == "BY" then 10
    else if Whole(w, "UNION") && next == "ALL" then 15 else 18
  }

  /** Line breaks before the first of these tokens after the first `j` passes. */
  function BreaksAfter(j: nat, ts: seq<Units>): nat {
    if ts == [] then 0
    else
      (if ClausePass(Lead(ts[0])) < j then 1 else 0)
      + if |ts| > 1 && PairPass(ts[0], Lead(ts[1])) < j then 1 else 0
  }

  function ItemsAfter(j: nat, ts: seq<Units>): (items: seq<Item>)
    ensures |items| == |ts|
    ensures forall i | 0 <= i < |ts| :: items[i].word == ts[i]
  {
    if ts == [] then [] else [Item(BreaksAfter(j, ts), ts[0])] + ItemsAfter(j, ts[1..])
  }

  lemma KeywordsProper(j: nat)
    requires j < |KEYWORDS|
    ensures Proper(KEYWORDS[j])
  {
    assert Letters("JOIN") && Letters("BY") && Letters("ALL");
    assert Letters(KEYWORDS[j].w);
  }

  /** What pass `j` adds at the first of these tokens. */
  lemma {:induction false} OnePassMore(j: nat, ts: seq<Units>)
    requires j < |KEYWORDS| && ts != []
    ensures BreaksAfter(j + 1, ts) == BreaksAfter(j, ts) + if Hit(ItemsAfter(j, ts), KEYWORDS[j]) then 1 else 0
  {
    hide Lead, Whole, ClausePass, PairPass, BreaksAfter;
    var items := ItemsAfter(j, ts);
    BreaksAre(j, ts);
    BreaksAre(j + 1, ts);
    if |ts| > 1 {
      assert items[1].breaks == BreaksAfter(j, ts[1..]);
    }
    if KEYWORDS[j].One? {
      ClausePassIs(j, Lead(ts[0]));
      if |ts| > 1 {
        PairPassOther(j, ts[0], Lead(ts[1]));
      }
    } else {
      ClausePassOther(j, Lead(ts[0]));
      if |ts| > 1 {
        PairPassIs(j, ts[0], ts[1..]);
      }
    }
  }

  lemma BreaksAre(j: nat, ts: seq<Units>)
    requires ts != []
    ensures BreaksAfter(j, ts) ==
              (if ClausePass(Lead(ts[0])) < j then 1 else 0)
              + if |ts| > 1 && PairPass(ts[0], Lead(ts[1])) < j then 1 else 0
  {
  }

  lemma ClausePassIs(j: nat, lead: string)
    requires j < |KEYWORDS| && KEYWORDS[j].One?
    ensures ClausePass(lead) == j <==> lead == KEYWORDS[j].w
  {
    assert j <= 3 || 11 <= j <= 14 || j >= 16;
  }

  lemma ClausePassOther(j: nat, lead: string)
    requires j < |KEYWORDS| && KEYWORDS[j].Two?
    ensures ClausePass(lead) != j
  {
    assert 4 <= j <= 10 || j == 15;
  }

  lemma PairPassOther(j: nat, w: Units, next: string)
    requires j < |KEYWORDS| && KEYWORDS[j].One?
    ensures PairPass(w, next) != j
  {
    hide Whole;
    assert j <= 3 || 11 <= j <= 14 || j >= 16;
  }

  /** A pair gets its break in its pass, unless its second word has one already. */
  lemma {:induction false} PairPassIs(j: nat, w: Units, next: seq<Units>)
    requires j < |KEYWORDS| && KEYWORDS[j].Two? && next != []
    ensures PairPass(w, Lead(next[0])) == j <==>
              Whole(w, KEYWORDS[j].w) && Lead(next[0]) == KEYWORDS[j].v && BreaksAfter(j, next) == 0
  {
    hide Lead;
    assert 4 <= j <= 10 || j == 15;
  }

  lemma {:induction false} PassIsNext(j: nat, ts: seq<Units>)
    requires j < |KEYWORDS|
    ensures Pass(ItemsAfter(j, ts), KEYWORDS[j]) == ItemsAfter(j + 1, ts)
  {
    hide Hit, BreaksAfter;
    if ts != [] {
      OnePassMore(j, ts);
      PassIsNext(j, ts[1..]);
      assert ItemsAfter(j, ts)[1..] == ItemsAfter(j, ts[1..]);
    }
  }

  /** The text after `j` passes. */
  function TextAfter(j: nat, ts: seq<Units>): Units {
    if ts == [] then [] else ts[0] + Tail(ItemsAfter(j, ts[1..]))
  }

  lemma {:induction false} TextNext(j: nat, ts: seq<Units>)
    requires j < |KEYWORDS| && AllTokens(ts)
    ensures Pattern(KEYWORDS[j]) != ""
    ensures Replace(false, TextAfter(j, ts), Pattern(KEYWORDS[j])) == TextAfter(j + 1, ts)
  {
    var k := KEYWORDS[j];
    KeywordsProper(j);
    if ts != [] {
      assert IsToken(ts[0]);
      var items := ItemsAfter(j, ts[1..]);
      ReplaceInWord(ts[0], Tail(items), Pattern(k));
      ReplaceIsPass(items, k);
      PassIsNext(j, ts[1..]);
    }
  }

  lemma {:induction false} TextFirst(ts: seq<Units>)
    ensures TextAfter(0, ts) == Spaced(ts)
  {
    if ts != [] {
      TailFirst(ts[1..]);
    }
  }

  lemma {:induction false} TailFirst(ts: seq<Units>)
    ensures Tail(ItemsAfter(0, ts)) == if ts == [] then [] else [SP] + Spaced(ts)
  {
    if ts != [] {
      TailFirst(ts[1..]);
      assert ItemsAfter(0, ts)[1..] == ItemsAfter(0, ts[1..]);
      var rest := Tail(ItemsAfter(0, ts[1..]));
      assert [] + (ts[0] + rest) == ts[0] + rest;
      assert |ts| == 1 ==> ts[0] + rest == ts[0];
    }
  }

  lemma {:induction false} TailLast(ts: seq<Units>)
    ensures Tail(ItemsAfter(18, ts)) == LayTail(ts)
  {
    hide Whole, Lead;
    if ts != [] {
      TailLast(ts[1..]);
      assert ItemsAfter(18, ts)[1..] == ItemsAfter(18, ts[1..]);
      assert BreaksAfter(18, ts) == BreaksBefore(ts);
    }
  }

  /** The last replacement: a leading run of white space goes if it holds a line break. */
  function StripLeadingBreak(s: Units): Units {
    if LeadingBreak(s) then TrimStart(s) else s
  }

  predicate LeadingBreak(s: Units) {
    s != [] && Space(s[0]) && (s[0] == NL || LeadingBreak(s[1..]))
  }

  method FormatSql(sql: Units) returns (formatted: Units)
    ensures formatted == LayOut(Tokens(sql))
  {
    hide Replace, Pattern, Normalize, Tokens, BreaksBefore, Spaced;
    ghost var ts := Tokens(sql);
    formatted := Normalize(sql);
    NormalizeMeaning(sql);
    TextFirst(ts);
    var i := 0;
    while i < |KEYWORDS|
      invariant i <= |KEYWORDS|
      invariant formatted == TextAfter(i, ts)
    {
      TextNext(i, ts);
      formatted := Replace(false, formatted, Pattern(KEYWORDS[i]));
      i := i + 1;
    }
    if ts != [] {
      assert IsToken(ts[0]);
      TailLast(ts[1..]);
    }
    formatted := StripLeadingBreak(formatted);
  }

  // ----- What formatting keeps -----

  lemma {:induction false} TokensOfBreaks(n: nat, s: Units)
    ensures Tokens(Breaks(n) + s) == Tokens(s)
  {
    hide Tokens;
    if n == 0 {
      assert Breaks(0) + s == s;
    } else {
      var rest := Breaks(n - 1) + s;
      TokensOfBreaks(n - 1, s);
      assert Breaks(n) + s == [NL] + ([SP] + ([SP] + rest));
      TokensOfBlank(NL, [SP] + ([SP] + rest));
      TokensOfBlank(SP, [SP] + rest);
      TokensOfBlank(SP, rest);
    }
  }

  lemma TokensOfBlank(c: Unit, s: Units)
    requires Space(c)
    ensures Tokens([c] + s) == Tokens(s)
  {
    assert ([c] + s)[1..] == s;
  }

  lemma {:induction false} TokensOfTail(items: seq<Item>, ts: seq<Units>)
    requires |items| == |ts| && AllTokens(ts) && forall i | 0 <= i < |ts| :: items[i].word == ts[i]
    ensures Tokens(Tail(items)) == ts
  {
    if ts != [] {
      assert IsToken(ts[0]);
      var n, w, rest := items[0].breaks, items[0].word, Tail(items[1..]);
      TokensOfTail(items[1..], ts[1..]);
      TailStart(items[1..]);
      TokensOfBlank(SP, Breaks(n) + (w + rest));
      TokensOfBreaks(n, w + rest);
      TokensOfWord(w, rest);
    }
  }

  /** Every pass of the keyword loop keeps the tokens, their order and their spelling. */
  lemma {:induction false} TokensKept(j: nat, ts: seq<Units>)
    requires AllTokens(ts)
    ensures Tokens(TextAfter(j, ts)) == ts
  {
    if ts != [] {
      assert IsToken(ts[0]);
      var items := ItemsAfter(j, ts[1..]);
      TokensOfTail(items, ts[1..]);
      TailStart(items);
      TokensOfWord(ts[0], Tail(items));
    }
  }

  lemma {:induction false} LayOutKeeps(ts: seq<Units>)
    requires AllTokens(ts)
    ensures Tokens(LayOut(ts)) == ts
  {
    TokensKept(18, ts);
    if ts != [] {
      TailLast(ts[1..]);
    }
  }

  /** Two inputs are shown alike if and only if they have the same tokens. */
  lemma FormatAgreesIff(a: Units, b: Units)
    ensures LayOut(Tokens(a)) == LayOut(Tokens(b)) <==> Tokens(a) == Tokens(b)
  {
    LayOutKeeps(Tokens(a));
    LayOutKeeps(Tokens(b));
  }

  /** Formatting twice is formatting once, and the tokens of the input come out. */
  lemma FormatIdempotent(sql: Units)
    ensures Tokens(LayOut(Tokens(sql))) == Tokens(sql)
    ensures LayOut(Tokens(LayOut(Tokens(sql)))) == LayOut(Tokens(sql))
  {
    LayOutKeeps(Tokens(sql));
  }

  /** Five of the eighteen keywords do nothing: after the pass for JOIN no space is left before a JOIN. */
  lemma {:induction false} JoinPairsNeverMatch(j: nat, ts: seq<Units>)
    requires 4 <= j < 9 && AllTokens(ts)
    ensures KEYWORDS[j].Two? && KEYWORDS[j].v == "JOIN" && Pattern(KEYWORDS[j]) != ""
    ensures Replace(false, TextAfter(j, ts), Pattern(KEYWORDS[j])) == TextAfter(j, ts)
  {
    hide Replace, Tail;
    TextNext(j, ts);
    if ts != [] {
      SameItems(j, ts[1..]);
    }
  }

  lemma {:induction false} SameItems(j: nat, ts: seq<Units>)
    requires 4 <= j < 9
    ensures ItemsAfter(j + 1, ts) == ItemsAfter(j, ts)
  {
    if ts != [] {
      SameItems(j, ts[1..]);
    }
  }

  // ----- Quotes -----

  /** Single quotes around texts, double quotes around names; inside one kind the other is a plain character. A doubled
      quote closes and opens again. */
  datatype Quote = Unquoted | Within(mark: Unit)

  function Toggle(q: Quote, c: Unit): Quote {
    if q.Unquoted? then if c == SINGLE || c == DOUBLE then Within(c) else Unquoted
    else if c == q.mark then Unquoted
    else q
  }

  /** Some line break of the text stands inside quotes, read on from `q`. */
  predicate BreakInQuotes(q: Quote, s: Units)
    decreases s
  {
    s != [] && ((q.Within? && s[0] == NL) || BreakInQuotes(Toggle(q, s[0]), s[1..]))
  }

  function QuoteAfter(q: Quote, w: Units): Quote
    decreases w
  {
    if w == [] then q else QuoteAfter(Toggle(q, w[0]), w[1..])
  }

  /** Some of these tokens starts inside quotes, and is one that gets a break. */
  predicate KeywordInQuotes(q: Quote, ts: seq<Units>)
    decreases ts
  {
    ts != [] && ((q.Within? && BreaksBefore(ts) > 0) || KeywordInQuotes(QuoteAfter(q, ts[0]), ts[1..]))
  }

  /** A quote that is open has one of the two marks. */
  predicate Marked(q: Quote) {
    q.Within? ==> q.mark == SINGLE || q.mark == DOUBLE
  }

  lemma {:induction false} QuotesInWord(q: Quote, w: Units, rest: Units)
    requires Marked(q) && forall i | 0 <= i < |w| :: !Space(w[i])
    ensures Marked(QuoteAfter(q, w)) && BreakInQuotes(q, w + rest) == BreakInQuotes(QuoteAfter(q, w), rest)
    decreases w
  {
    if w == [] {
      assert w + rest == rest;
    } else {
      assert (w + rest)[1..] == w[1..] + rest;
      QuotesInWord(Toggle(q, w[0]), w[1..], rest);
    }
  }

  lemma {:induction false} QuotesInBreaks(q: Quote, n: nat, rest: Units)
    requires Marked(q)
    ensures BreakInQuotes(q, Breaks(n) + rest) == ((q.Within? && n > 0) || BreakInQuotes(q, rest))
    decreases n
  {
    if n == 0 {
      assert Breaks(0) + rest == rest;
    } else {
      var tail := Breaks(n - 1) + rest;
      QuotesInBreaks(q, n - 1, rest);
      assert Breaks(n) + rest == [NL] + ([SP] + ([SP] + tail));
      QuotesInBlank(q, NL, [SP] + ([SP] + tail));
      QuotesInBlank(q, SP, [SP] + tail);
      QuotesInBlank(q, SP, tail);
    }
  }

  lemma QuotesInBlank(q: Quote, c: Unit, s: Units)
    requires Marked(q) && (c == SP || c == NL)
    ensures BreakInQuotes(q, [c] + s) == ((q.Within? && c == NL) || BreakInQuotes(q, s))
  {
    assert ([c] + s)[1..] == s;
  }

  lemma {:induction false} QuotesInTail(q: Quote, ts: seq<Units>)
    requires Marked(q) && AllTokens(ts)
    ensures BreakInQuotes(q, LayTail(ts)) == KeywordInQuotes(q, ts)
    decreases ts
  {
    hide BreaksBefore;
    if ts != [] {
      assert IsToken(ts[0]);
      var n, w, rest := BreaksBefore(ts), ts[0], LayTail(ts[1..]);
      QuotesInBlank(q, SP, Breaks(n) + (w + rest));
      QuotesInBreaks(q, n, w + rest);
      QuotesInWord(q, w, rest);
      QuotesInTail(QuoteAfter(q, w), ts[1..]);
    }
  }

  /** The formatter does not look at quotes: it breaks a line inside a quoted text or name exactly when a token there,
      other than the first of all, gets a break by the layout rule. */
  lemma {:induction false} QuotesBrokenIff(sql: Units)
    ensures BreakInQuotes(Unquoted, LayOut(Tokens(sql))) <==>
              Tokens(sql) != [] && KeywordInQuotes(QuoteAfter(Unquoted, Tokens(sql)[0]), Tokens(sql)[1..])
  {
    var ts := Tokens(sql);
    if ts != [] {
      assert IsToken(ts[0]);
      QuotesInWord(Unquoted, ts[0], LayTail(ts[1..]));
      QuotesInTail(QuoteAfter(Unquoted, ts[0]), ts[1..]);
    }
  }

  /** The input `'X OR Y'` is shown with a line break inside the quotes. */
  lemma QuotesBroken()
    ensures BreakInQuotes(Unquoted, LayOut(Tokens(Ascii("'X OR Y'"))))
  {
    hide LayOut, BreakInQuotes, Tokens;
    assert Ascii("'X OR Y'") == QuotedOr(SINGLE);
    QuotedOrBroken(SINGLE);
  }

  /** So is the input `"X OR Y"`. */
  lemma DoubleQuotesBroken()
    ensures BreakInQuotes(Unquoted, LayOut(Tokens(Ascii("\"X OR Y\""))))
  {
    hide LayOut, BreakInQuotes, Tokens;
    assert Ascii("\"X OR Y\"") == QuotedOr(DOUBLE);
    QuotedOrBroken(DOUBLE);
  }

  /** The input `"it's" OR t` is not: the apostrophe stands inside a name. */
  lemma ApostropheInName()
    ensures !BreakInQuotes(Unquoted, LayOut(Tokens(Ascii("\"it's\" OR t"))))
  {
    hide LayOut, BreakInQuotes, Tokens, KeywordInQuotes, QuoteAfter, Ascii;
    var name, or, t := Ascii("\"it's\""), Ascii("OR"), Ascii("t");
    ApostropheTokens();
    Plainly("OR");
    Plainly("t");
    NameCloses();
    NextQuoted(Unquoted, t, []);
    NextQuoted(Unquoted, or, [t]);
    NothingQuoted(Unquoted);
    assert [name, or, t][1..] == [or] + [t] && [t] == [t] + [];
    QuotesBrokenIff(Ascii("\"it's\" OR t"));
  }

  lemma NothingQuoted(q: Quote)
    ensures !KeywordInQuotes(q, [])
  {
  }

  lemma ApostropheTokens()
    ensures Tokens(Ascii("\"it's\" OR t")) == [Ascii("\"it's\""), Ascii("OR"), Ascii("t")]
  {
    hide Tokens;
    var name, or, t := Ascii("\"it's\""), Ascii("OR"), Ascii("t");
    assert Ascii("\"it's\" OR t") == name + ([SP] + (or + ([SP] + t)));
    assert IsToken(name) && IsToken(or) && IsToken(t);
    OneWord(t);
    NextWord(or, t);
    NextWord(name, or + ([SP] + t));
    assert [name] + ([or] + [t]) == [name, or, t];
  }

  lemma Plainly(s: string)
    requires forall i | 0 <= i < |s| :: s[i] < 128 as char && s[i] != '\'' && s[i] != '"'
    ensures QuoteAfter(Unquoted, Ascii(s)) == Unquoted
  {
    Undisturbed(Unquoted, Ascii(s));
  }

  lemma NextQuoted(q: Quote, w: Units, rest: seq<Units>)
    ensures KeywordInQuotes(q, [w] + rest) <==>
              (q.Within? && BreaksBefore([w] + rest) > 0) || KeywordInQuotes(QuoteAfter(q, w), rest)
  {
    assert ([w] + rest)[1..] == rest;
  }

  lemma {:induction false} Undisturbed(q: Quote, w: Units)
    requires q.Unquoted? && forall i | 0 <= i < |w| :: w[i] != SINGLE && w[i] != DOUBLE
    ensures QuoteAfter(q, w) == q
  {
    if w != [] {
      Undisturbed(q, w[1..]);
    }
  }

  lemma NameCloses()
    ensures QuoteAfter(Unquoted, Ascii("\"it's\"")) == Unquoted
  {
    var w, open := Ascii("\"it's\""), Within(DOUBLE);
    var none: Units := [];
    assert w[5] == DOUBLE && w[5..][1..] == none && QuoteAfter(open, w[5..]) == QuoteAfter(Unquoted, none);
    assert w[4..][1..] == w[5..] && QuoteAfter(open, w[4..]) == Unquoted;
    assert w[3..][1..] == w[4..] && QuoteAfter(open, w[3..]) == Unquoted;
    assert w[2..][1..] == w[3..] && QuoteAfter(open, w[2..]) == Unquoted;
    assert w[1..][1..] == w[2..] && QuoteAfter(open, w[1..]) == Unquoted;
  }

  /** A quoted `X OR Y`. */
  function QuotedOr(mark: Unit): Units {
    [mark, 0x58] + ([SP] + ([0x4F, 0x52] + ([SP] + [0x59, mark])))
  }

  lemma QuotedOrBroken(mark: Unit)
    requires mark == SINGLE || mark == DOUBLE
    ensures BreakInQuotes(Unquoted, LayOut(Tokens(QuotedOr(mark))))
  {
    hide LayOut, BreakInQuotes, Tokens;
    var x, or, y: Units := [mark, 0x58], [0x4F, 0x52], [0x59, mark];
    assert IsToken(x) && IsToken(or) && IsToken(y);
    OneWord(y);
    NextWord(or, y);
    NextWord(x, or + ([SP] + y));
    assert [x] + ([or] + [y]) == [x, or, y];
    var letter: Units := [0x58];
    assert x[1..] == letter && letter[1..] == [];
    assert QuoteAfter(Unquoted, x) == Within(mark);
    LeadOf(or, "OR");
    assert [x, or, y][1..] == [or, y];
    QuotesBrokenIff(QuotedOr(mark));
  }

  lemma OneWord(w: Units)
    requires IsToken(w)
    ensures Tokens(w) == [w]
  {
    TokensOfWord(w, []);
    assert w + [] == w;
  }

  lemma NextWord(w: Units, rest: Units)
    requires IsToken(w)
    ensures Tokens(w + ([SP] + rest)) == [w] + Tokens(rest)
  {
    hide Tokens;
    TokensOfBlank(SP, rest);
    TokensOfWord(w, [SP] + rest);
  }

  // ----- Letters and boundaries -----

  /** The same character, or the two cases of one ASCII letter. */
  predicate SameLetter(u: Unit, v: Unit) {
    u == v || (65 <= u <= 90 && v == u + 32) || (65 <= v <= 90 && u == v + 32)
  }

  predicate SameLetters(a: Units, b: Units) {
    |a| == |b| && forall i | 0 <= i < |a| :: SameLetter(a[i], b[i])
  }

  lemma {:induction false} SameLead(a: Units, b: Units)
    requires SameLetters(a, b)
    ensures Lead(a) == Lead(b)
  {
    if a != [] {
      assert SameLetter(a[0], b[0]);
      SameLead(a[1..], b[1..]);
    }
  }

  /** The layout does not depend on the case of letters. */
  lemma {:induction false} CaseBlind(ts: seq<Units>, us: seq<Units>)
    requires |ts| == |us| && forall i | 0 <= i < |ts| :: SameLetters(ts[i], us[i])
    ensures BreaksBefore(ts) == BreaksBefore(us)
  {
    hide Lead;
    if |ts| > 0 {
      SameLead(ts[0], us[0]);
      if |ts| > 1 {
        SameLead(ts[1], us[1]);
      }
    }
  }

  /** A token that starts with these letters is taken for the word exactly if no letter, digit or underscore follows. */
  lemma {:induction false} BoundaryIff(p: string, c: Unit, rest: Units)
    requires Letters(p)
    ensures Lead(Ascii(p) + [c] + rest) == p <==>
              !(48 <= c <= 57) && !(65 <= c <= 90) && !(97 <= c <= 122) && c != 95
    ensures Lead(Ascii(p)) == p
  {
    LeadOf(Ascii(p), p);
    var w := Ascii(p) + [c] + rest;
    assert w[..|p|] == Ascii(p);
    if WordChar(c) {
      LeadMeaning(w);
      assert w[|p|] == c;
      LongerLead(w, |p|);
    } else {
      LeadThen(w, |p|);
    }
  }

  lemma {:induction false} LongerLead(w: Units, n: nat)
    requires n < |w| && forall i | 0 <= i <= n :: WordChar(w[i])
    ensures |Lead(w)| > n
  {
    if n > 0 {
      LongerLead(w[1..], n - 1);
    }
  }
}
