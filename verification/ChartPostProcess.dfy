/** The chart post-processing in agents/analytics-agent/src/nodes/synthesis.py. Values are reals (NaN is not
    modelled), and `\d` stands for ASCII digits. */
module ChartPostProcess {
  import opened Common
  import opened Unicode

  datatype Category = Number(n: int) | Label(s: Str) | NoLabel

  /** What a data point has under `value`: a number, a text that may parse as one, or something else. */
  datatype Raw = Numeric(r: real) | Textual(parsed: Option<real>) | Other

  datatype Point = Point(category: Category, raw: Raw)

  datatype Kind = BarChart | LineChart | AreaChart | PieChart | KPICard | DataTable

  datatype Chart = Chart(kind: Kind, data: seq<Point>)

  /** `_value_of`: anything that is not a number counts as zero. */
  function ValueOf(d: Point): real {
    match d.raw
    case Numeric(r) => r
    case Textual(Some(r)) => r
    case _ => 0.0
  }

  // ----- Dates -----

  /** One character of a pattern: `d` is any digit and `q` a quarter, everything else stands for itself. */
  predicate FitsChar(t: char, c: Code) {
    if t == 'd' then '0' as int <= c <= '9' as int
    else if t == 'q' then '1' as int <= c <= '4' as int
    else c == t as int
  }

  predicate Fits(t: string, s: Str) {
    |s| >= |t| && forall i | 0 <= i < |t| :: FitsChar(t[i], s[i])
  }

  /** `$` also matches before a final newline. */
  predicate FitsWhole(t: string, s: Str) {
    Fits(t, s) && (|s| == |t| || (|s| == |t| + 1 && s[|t|] == '\n' as int))
  }

  predicate DateLike(c: Category) {
    match c
    case Number(n) => 19000101 <= n <= 21000101
    case Label(s) =>
      || Fits("dddd-dd-dd", s) || FitsWhole("dddd-dd", s) || FitsWhole("dddd-Wdd", s)
      || FitsWhole("dddd-Qq", s) || Fits("dddd/dd/dd", s) || FitsWhole("dddddddd", s)
    case NoLabel => false
  }

  predicate AnyDate(data: seq<Point>) {
    exists i | 0 <= i < |data| :: DateLike(data[i].category)
  }

  // ----- sorted(key=_value_of, reverse=True) -----

  function Insert(x: Point, s: seq<Point>): seq<Point> {
    if s == [] || ValueOf(x) >= ValueOf(s[0]) then [x] + s else [s[0]] + Insert(x, s[1..])
  }

  function Sort(data: seq<Point>): seq<Point> {
    if data == [] then [] else Insert(data[0], Sort(data[1..]))
  }

  ghost predicate Descending(s: seq<Point>) {
    forall i, j | 0 <= i < j < |s| :: ValueOf(s[i]) >= ValueOf(s[j])
  }

  /** The points with one value, in the order they come. */
  function Ties(s: seq<Point>, v: real): seq<Point> {
    if s == [] then [] else if ValueOf(s[0]) == v then [s[0]] + Ties(s[1..], v) else Ties(s[1..], v)
  }

  /** A stable descending order: descending, and every group of ties as in the input. */
  ghost predicate StableDescending(s: seq<Point>, data: seq<Point>) {
    Descending(s) && forall v :: Ties(s, v) == Ties(data, v)
  }

  lemma {:induction false} InsertSpec(x: Point, s: seq<Point>, v: real)
    requires Descending(s)
    ensures Descending(Insert(x, s))
    ensures forall p :: p in Insert(x, s) <==> p == x || p in s
    ensures Ties(Insert(x, s), v) == if ValueOf(x) == v then [x] + Ties(s, v) else Ties(s, v)
  {
    if s == [] || ValueOf(x) >= ValueOf(s[0]) {
      assert ([x] + s)[1..] == s;
    } else {
      var rest := Insert(x, s[1..]);
      InsertSpec(x, s[1..], v);
      assert ([s[0]] + rest)[1..] == rest;
      forall j | 0 <= j < |rest| ensures ValueOf(s[0]) >= ValueOf(rest[j]) {
        assert rest[j] in rest;
      }
    }
  }

  lemma {:induction false} SortSpec(data: seq<Point>)
    ensures StableDescending(Sort(data), data)
    ensures multiset(Sort(data)) == multiset(data)
  {
    if data != [] {
      SortSpec(data[1..]);
      forall v ensures Ties(Sort(data), v) == Ties(data, v) {
        InsertSpec(data[0], Sort(data[1..]), v);
      }
      InsertSpec(data[0], Sort(data[1..]), 0.0);
      InsertPermutes(data[0], Sort(data[1..]));
      assert data == [data[0]] + data[1..];
    }
  }

  lemma {:induction false} InsertPermutes(x: Point, s: seq<Point>)
    ensures multiset(Insert(x, s)) == multiset{x} + multiset(s)
  {
    if !(s == [] || ValueOf(x) >= ValueOf(s[0])) {
      InsertPermutes(x, s[1..]);
      assert s == [s[0]] + s[1..];
    }
  }

  lemma {:induction false} TiesMember(s: seq<Point>, i: nat)
    requires i < |s|
    ensures s[i] in Ties(s, ValueOf(s[i]))
  {
    if i > 0 {
      TiesMember(s[1..], i - 1);
    }
  }

  lemma {:induction false} TiesFrom(s: seq<Point>, v: real)
    ensures forall p | p in Ties(s, v) :: p in s && ValueOf(p) == v
  {
    if s != [] {
      TiesFrom(s[1..], v);
    }
  }

  /** The head of a descending sequence has the largest value among the elements of any sequence with the same
      groups of ties. */
  lemma {:induction false} HeadValue(s: seq<Point>, t: seq<Point>)
    requires Descending(s) && s != [] && t != [] && forall v :: Ties(s, v) == Ties(t, v)
    ensures ValueOf(s[0]) >= ValueOf(t[0])
  {
    TiesMember(t, 0);
    TiesFrom(s, ValueOf(t[0]));
    var i :| 0 <= i < |s| && s[i] == t[0];
  }

  /** The stable descending order of a list is unique, so it is what `sorted` returns. */
  lemma {:induction false} StableUnique(s: seq<Point>, t: seq<Point>)
    requires Descending(s) && Descending(t) && forall v :: Ties(s, v) == Ties(t, v)
    ensures s == t
  {
    if s == [] {
      if t != [] { TiesMember(t, 0); }
    } else {
      TiesMember(s, 0);
      if t != [] {
        HeadValue(s, t);
        HeadValue(t, s);
        var h := ValueOf(s[0]);
        assert Ties(s, h) == [s[0]] + Ties(s[1..], h) && Ties(t, h) == [t[0]] + Ties(t[1..], h);
        forall v ensures Ties(s[1..], v) == Ties(t[1..], v) {
          assert Ties(s, v) == Ties(t, v);
          if v == h { assert Ties(s[1..], h) == Ties(s, h)[1..] == Ties(t, h)[1..] == Ties(t[1..], h); }
        }
        StableUnique(s[1..], t[1..]);
        assert Ties(s, h)[0] == s[0] && Ties(t, h)[0] == t[0];
        assert s == [s[0]] + s[1..] && t == [t[0]] + t[1..];
      }
    }
  }

  // ----- The three passes -----

  function Coerced(c: Chart): Chart {
    if (c.kind.LineChart? || c.kind.AreaChart?) && c.data != [] && !AnyDate(c.data) then c.(kind := BarChart) else c
  }

  function Sorted(c: Chart): Chart {
    if c.kind.BarChart? && c.data != [] then c.(data := Sort(c.data)) else c
  }

  /** `s[:n]` of Python; a negative bound counts from the end. */
  function Slice(s: seq<Point>, n: int): seq<Point> {
    if n >= 0 then s[..Min(n, |s|)] else s[..Max(|s| + n, 0)]
  }

  function Truncated(c: Chart, limit: int): Chart {
    if (c.kind.BarChart? || c.kind.LineChart? || c.kind.AreaChart?) && |c.data| > limit
    then c.(data := Slice(Sort(c.data), limit)) else c
  }

  function Process(c: Chart, limit: int): Chart {
    Truncated(Sorted(Coerced(c)), limit)
  }

  /** A component of the response; the passes assign to its fields. */
  class Component {
    var kind: Kind
    var data: seq<Point>

    constructor (c: Chart)
      ensures State() == c
    {
      kind, data := c.kind, c.data;
    }

    function State(): Chart
      reads this
    {
      Chart(kind, data)
    }
  }

  ghost predicate DistinctComponents(cs: seq<Component>) {
    forall i, j | 0 <= i < j < |cs| :: cs[i] != cs[j]
  }

  method PostProcess(cs: seq<Component>, limit: int)
    requires DistinctComponents(cs)
    modifies cs
    ensures forall i | 0 <= i < |cs| :: cs[i].State() == Process(old(cs[i].State()), limit)
  {
    CoercePass(cs);
    SortPass(cs);
    TruncatePass(cs, limit);
  }

  method CoercePass(cs: seq<Component>)
    requires DistinctComponents(cs)
    modifies cs
    ensures forall i | 0 <= i < |cs| :: cs[i].State() == Coerced(old(cs[i].State()))
  {
    var k := 0;
    while k < |cs|
      invariant k <= |cs|
      invariant forall i | 0 <= i < k :: cs[i].State() == Coerced(old(cs[i].State()))
      invariant forall i | k <= i < |cs| :: cs[i].State() == old(cs[i].State())
    {
      var comp := cs[k];
      if comp.kind.LineChart? || comp.kind.AreaChart? {
        if comp.data != [] && !AnyDate(comp.data) {
          comp.kind := BarChart;
        }
      }
      k := k + 1;
    }
  }

  method SortPass(cs: seq<Component>)
    requires DistinctComponents(cs)
    modifies cs
    ensures forall i | 0 <= i < |cs| :: cs[i].State() == Sorted(old(cs[i].State()))
  {
    var k := 0;
    while k < |cs|
      invariant k <= |cs|
      invariant forall i | 0 <= i < k :: cs[i].State() == Sorted(old(cs[i].State()))
      invariant forall i | k <= i < |cs| :: cs[i].State() == old(cs[i].State())
    {
      var comp := cs[k];
      if comp.kind.BarChart? && comp.data != [] {
        comp.data := Sort(comp.data);
      }
      k := k + 1;
    }
  }

  method TruncatePass(cs: seq<Component>, limit: int)
    requires DistinctComponents(cs)
    modifies cs
    ensures forall i | 0 <= i < |cs| :: cs[i].State() == Truncated(old(cs[i].State()), limit)
  {
    var k := 0;
    while k < |cs|
      invariant k <= |cs|
      invariant forall i | 0 <= i < k :: cs[i].State() == Truncated(old(cs[i].State()), limit)
      invariant forall i | k <= i < |cs| :: cs[i].State() == old(cs[i].State())
    {
      var comp := cs[k];
      if (comp.kind.BarChart? || comp.kind.LineChart? || comp.kind.AreaChart?) && |comp.data| > limit {
        var sortedData := Sort(comp.data);
        comp.data := Slice(sortedData, limit);
      }
      k := k + 1;
    }
  }

  // ----- What comes out -----

  lemma {:induction false} SortAgain(data: seq<Point>)
    ensures Sort(Sort(data)) == Sort(data)
  {
    SortSpec(data);
    SortSpec(Sort(data));
    StableUnique(Sort(Sort(data)), Sort(data));
  }

  lemma {:induction false} SortedPrefix(data: seq<Point>, n: nat)
    requires n <= |Sort(data)|
    ensures Sort(Sort(data)[..n]) == Sort(data)[..n]
  {
    SortSpec(data);
    SortSpec(Sort(data)[..n]);
    StableUnique(Sort(Sort(data)[..n]), Sort(data)[..n]);
  }

  /** A chart that ends up as a bar chart holds its points in stable descending order, cut at the limit. */
  lemma {:induction false} BarResult(c: Chart, limit: int)
    requires Process(c, limit).kind.BarChart?
    ensures Process(c, limit).data == if |c.data| > limit then Slice(Sort(c.data), limit) else Sort(c.data)
    ensures |Sort(c.data)| == |c.data|
  {
    SortSpec(c.data);
    SortAgain(c.data);
    assert |multiset(Sort(c.data))| == |multiset(c.data)|;
  }

  lemma {:induction false} TiesPrefix(s: seq<Point>, n: nat, v: real)
    requires n <= |s|
    ensures Ties(s[..n], v) <= Ties(s, v)
  {
    if n > 0 {
      assert s[..n][1..] == s[1..][..n - 1];
      TiesPrefix(s[1..], n - 1, v);
    }
  }

  /** `kept` are the largest points of `data`, in descending order with ties in input order. */
  ghost predicate TopPoints(kept: seq<Point>, dropped: seq<Point>, data: seq<Point>) {
    && Descending(kept)
    && (forall v :: Ties(kept, v) <= Ties(data, v))
    && multiset(kept) + multiset(dropped) == multiset(data)
    && forall p, q | p in kept && q in dropped :: ValueOf(p) >= ValueOf(q)
  }

  lemma {:induction false} CutIsTop(s: seq<Point>, data: seq<Point>, n: nat)
    requires StableDescending(s, data) && multiset(s) == multiset(data) && n <= |s|
    ensures TopPoints(s[..n], s[n..], data)
  {
    assert s[..n] + s[n..] == s;
    forall v ensures Ties(s[..n], v) <= Ties(data, v) {
      TiesPrefix(s, n, v);
    }
  }

  /** With a limit that is not negative, every bar chart that comes out holds min(n, limit) points in descending
      order, ties in input order, and every point kept is at least every point dropped. */
  lemma {:induction false} BarTopPoints(c: Chart, limit: int)
    requires limit >= 0 && Process(c, limit).kind.BarChart?
    ensures |Process(c, limit).data| == Min(|c.data|, limit)
    ensures exists dropped :: TopPoints(Process(c, limit).data, dropped, c.data)
  {
    hide Process, Sort, TopPoints;
    BarResult(c, limit);
    SortSpec(c.data);
    var s, n := Sort(c.data), Min(|c.data|, limit);
    assert s[..|s|] == s;
    CutIsTop(s, c.data, n);
    assert Process(c, limit).data == s[..n];
  }

  /** A line or area chart within the limit that keeps its type is not touched, and it keeps its type exactly
      when it has no data or some category looks like a date. */
  lemma {:induction false} SeriesKept(c: Chart, limit: int)
    requires (c.kind.LineChart? || c.kind.AreaChart?) && |c.data| <= limit
    ensures Process(c, limit).kind == c.kind <==> c.data == [] || AnyDate(c.data)
    ensures Process(c, limit).kind == c.kind ==> Process(c, limit) == c
  {
  }

  /** A second run leaves every bar chart as it is, if and only if the limit is not negative: the setting is
      not validated, and a negative one drops points again on every run. */
  lemma {:induction false} BarStableIff(limit: int)
    ensures (forall c :: Process(c, limit).kind.BarChart? ==> Process(Process(c, limit), limit) == Process(c, limit))
            <==> limit >= 0
  {
    if limit >= 0 {
      forall c | Process(c, limit).kind.BarChart? ensures Process(Process(c, limit), limit) == Process(c, limit) {
        var once := Process(c, limit);
        BarResult(c, limit);
        SortedPrefix(c.data, Min(|c.data|, limit));
        assert Sort(c.data)[..|c.data|] == Sort(c.data);
        assert Sort(once.data) == once.data;
        BarResult(once, limit);
      }
    } else {
      var c := Chart(BarChart, seq(1 - limit, _ => Point(NoLabel, Other)));
      BarResult(c, limit);
      var once := Process(c, limit);
      assert |once.data| == 1;
      BarResult(once, limit);
    }
  }

  /** A line or area chart that stays one and is over the limit keeps its largest points, in descending order. */
  lemma {:induction false} SeriesOverLimit(c: Chart, limit: int)
    requires (c.kind.LineChart? || c.kind.AreaChart?) && AnyDate(c.data) && 0 <= limit < |c.data|
    ensures Process(c, limit).kind == c.kind && |Process(c, limit).data| == limit
    ensures exists dropped :: TopPoints(Process(c, limit).data, dropped, c.data)
  {
    hide Sort, TopPoints, AnyDate;
    SortSpec(c.data);
    SortLength(c.data);
    CutIsTop(Sort(c.data), c.data, limit);
    assert Process(c, limit).data == Sort(c.data)[..limit];
  }

  lemma SortLength(data: seq<Point>)
    ensures |Sort(data)| == |data|
  {
    SortSpec(data);
    assert |multiset(Sort(data))| == |multiset(data)|;
  }

  /** The type changes in one case only, and other components are not touched. */
  lemma KindIff(c: Chart, limit: int)
    ensures Process(c, limit).kind != c.kind <==>
              (c.kind.LineChart? || c.kind.AreaChart?) && |c.data| > 0 && !AnyDate(c.data)
    ensures Process(c, limit).kind == c.kind || Process(c, limit).kind == BarChart
    ensures c.kind.PieChart? || c.kind.KPICard? || c.kind.DataTable? ==> Process(c, limit) == c
  {
    hide AnyDate, Sort;
  }

  /** Digits at these places. */
  predicate DigitsAt(s: Str, at: seq<nat>) {
    forall k | 0 <= k < |at| :: at[k] < |s| && 48 <= s[at[k]] <= 57
  }

  /** The character with this code at this place. */
  predicate Has(s: Str, i: nat, code: int) {
    i < |s| && s[i] == code
  }

  /** The text ends after `n` characters, but for a line break. */
  predicate EndsAt(s: Str, n: nat) {
    |s| == n || (|s| == n + 1 && s[n] == 10)
  }

  lemma DayMeaning(s: Str)
    ensures Fits("dddd-dd-dd", s) <==> DigitsAt(s, [0, 1, 2, 3, 5, 6, 8, 9]) && Has(s, 4, 45) && Has(s, 7, 45)
    ensures Fits("dddd/dd/dd", s) <==> DigitsAt(s, [0, 1, 2, 3, 5, 6, 8, 9]) && Has(s, 4, 47) && Has(s, 7, 47)
  {
    var digits, others: seq<nat> := [0, 1, 2, 3, 5, 6, 8, 9], [4, 7];
    DigitPlaces(s, "dddd-dd-dd", digits, others);
    DigitPlaces(s, "dddd/dd/dd", digits, others);
    assert others[0] == 4 && others[1] == 7;
    assert DigitsAt(s, digits) ==> digits[7] < |s|;
  }

  lemma MonthMeaning(s: Str)
    ensures FitsWhole("dddd-dd", s) <==> DigitsAt(s, [0, 1, 2, 3, 5, 6]) && Has(s, 4, 45) && EndsAt(s, 7)
    ensures FitsWhole("dddddddd", s) <==> DigitsAt(s, [0, 1, 2, 3, 4, 5, 6, 7]) && EndsAt(s, 8)
  {
    DigitPlaces(s, "dddd-dd", [0, 1, 2, 3, 5, 6], [4]);
    DigitPlaces(s, "dddddddd", [0, 1, 2, 3, 4, 5, 6, 7], []);
  }

  lemma PeriodMeaning(s: Str)
    ensures FitsWhole("dddd-Wdd", s) <==>
              DigitsAt(s, [0, 1, 2, 3, 6, 7]) && Has(s, 4, 45) && Has(s, 5, 87) && EndsAt(s, 8)
    ensures FitsWhole("dddd-Qq", s) <==>
              DigitsAt(s, [0, 1, 2, 3]) && Has(s, 4, 45) && Has(s, 5, 81)
              && (Has(s, 6, 49) || Has(s, 6, 50) || Has(s, 6, 51) || Has(s, 6, 52)) && EndsAt(s, 7)
  {
    DigitPlaces(s, "dddd-Wdd", [0, 1, 2, 3, 6, 7], [4, 5]);
    DigitPlaces(s, "dddd-Qq", [0, 1, 2, 3], [4, 5, 6]);
  }

  /** A pattern fits if its digits are digits and its other places fit. */
  lemma DigitPlaces(s: Str, t: string, digits: seq<nat>, others: seq<nat>)
    requires forall k | 0 <= k < |digits| :: digits[k] < |t| && t[digits[k]] == 'd'
    requires forall k | 0 <= k < |others| :: others[k] < |t|
    requires forall i | 0 <= i < |t| :: i in digits || i in others
    ensures Fits(t, s) <==>
              |s| >= |t| && DigitsAt(s, digits) && forall k | 0 <= k < |others| :: FitsChar(t[others[k]], s[others[k]])
  {
    if |s| >= |t| && DigitsAt(s, digits) && forall k | 0 <= k < |others| :: FitsChar(t[others[k]], s[others[k]]) {
      forall i | 0 <= i < |t| ensures FitsChar(t[i], s[i]) {
        if i in digits {
          var k :| 0 <= k < |digits| && digits[k] == i;
        } else {
          var k :| 0 <= k < |others| && others[k] == i;
        }
      }
    }
  }

  /** Place by place: ISO days and days with slashes, whatever follows; months, weeks, quarters and eight digits, and
      nothing after; integers that read as days of the twentieth or twenty-first century; and nothing else. */
  lemma DateMeaning(s: Str)
    ensures DateLike(Label(s)) <==>
              || (DigitsAt(s, [0, 1, 2, 3, 5, 6, 8, 9]) && Has(s, 4, 45) && Has(s, 7, 45))
              || (DigitsAt(s, [0, 1, 2, 3, 5, 6, 8, 9]) && Has(s, 4, 47) && Has(s, 7, 47))
              || (DigitsAt(s, [0, 1, 2, 3, 5, 6]) && Has(s, 4, 45) && EndsAt(s, 7))
              || (DigitsAt(s, [0, 1, 2, 3, 4, 5, 6, 7]) && EndsAt(s, 8))
              || (DigitsAt(s, [0, 1, 2, 3, 6, 7]) && Has(s, 4, 45) && Has(s, 5, 87) && EndsAt(s, 8))
              || (DigitsAt(s, [0, 1, 2, 3]) && Has(s, 4, 45) && Has(s, 5, 81)
                  && (Has(s, 6, 49) || Has(s, 6, 50) || Has(s, 6, 51) || Has(s, 6, 52)) && EndsAt(s, 7))
    ensures forall n :: DateLike(Number(n)) <==> 19000101 <= n && n <= 21000101
    ensures !DateLike(NoLabel)
  {
    hide Fits, FitsWhole, DigitsAt, Has, EndsAt;
    DayMeaning(s);
    MonthMeaning(s);
    PeriodMeaning(s);
  }

  /** A value that is no number counts as zero, and a text that is one counts as it. */
  lemma OddValues(c: Category)
    ensures Sort([Point(c, Other), Point(c, Numeric(-1.0)), Point(c, Textual(Some(2.0))), Point(c, Textual(None))])
         == [Point(c, Textual(Some(2.0))), Point(c, Other), Point(c, Textual(None)), Point(c, Numeric(-1.0))]
  {
    var w, x, y, z := Point(c, Other), Point(c, Numeric(-1.0)), Point(c, Textual(Some(2.0))), Point(c, Textual(None));
    assert [w, x, y, z][1..] == [x, y, z] && [x, y, z][1..] == [y, z] && [y, z][1..] == [z] && [z][1..] == [];
    assert Sort([z]) == [z];
    assert Sort([y, z]) == [y, z];
    assert [y, z][1..] == [z] && Insert(x, [z]) == [z, x] && Sort([x, y, z]) == [y, z, x];
    assert [y, z, x][1..] == [z, x] && Insert(w, [z, x]) == [w, z, x];
  }
}
