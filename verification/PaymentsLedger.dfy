/** The aggregation in tools/payments-mcp/src/payments_service.py. Amounts are whole cents (the column is
    NUMERIC(15,2)); no column is null. A GROUP BY result is any list of rows, in any order, that holds one row
    for each key that occurs. */
module PaymentsLedger {
  import opened Common
  import opened Unicode

  datatype Transaction = Transaction(
    date: int, payor: Str, payorBank: Str, payee: Str, payeeBank: Str,
    kind: Str, amount: int, currency: Str, status: Str)

  const COMPLETED := Lit("Completed")

  // ----- Windows -----

  /** `TransactionDate >= CURRENT_DATE - days` */
  predicate InWindow(t: Transaction, today: int, days: int) {
    t.date >= today - days
  }

  predicate InPriorWindow(t: Transaction, today: int, days: int) {
    today - days * 2 <= t.date < today - days
  }

  /** The current and the prior window never overlap, and together they are the window of twice the length. */
  lemma WindowsPartition(t: Transaction, today: int, days: int)
    ensures !(InWindow(t, today, days) && InPriorWindow(t, today, days))
    ensures days >= 0 ==> (InWindow(t, today, days) || InPriorWindow(t, today, days) <==> InWindow(t, today, days * 2))
    ensures days < 0 ==> !InPriorWindow(t, today, days)
  {
  }

  // ----- Grouped rows -----

  /** What a query feeds to GROUP BY, and a row that comes out. A query that groups by one column leaves the
      second key empty. */
  datatype Entry = Entry(k1: Str, k2: Str, amount: int)

  datatype Row = Row(k1: Str, k2: Str, total: int, count: int)

  function Sum(es: seq<Entry>): int {
    if es == [] then 0 else es[0].amount + Sum(es[1..])
  }

  function SumKind(es: seq<Entry>, kind: Str): int {
    if es == [] then 0 else (if es[0].k1 == kind then es[0].amount else 0) + SumKind(es[1..], kind)
  }

  function CountKind(es: seq<Entry>, kind: Str): nat {
    if es == [] then 0 else (if es[0].k1 == kind then 1 else 0) + CountKind(es[1..], kind)
  }

  function SumKey(es: seq<Entry>, k1: Str, k2: Str): int {
    if es == [] then 0 else (if es[0].k1 == k1 && es[0].k2 == k2 then es[0].amount else 0) + SumKey(es[1..], k1, k2)
  }

  function CountKey(es: seq<Entry>, k1: Str, k2: Str): nat {
    if es == [] then 0 else (if es[0].k1 == k1 && es[0].k2 == k2 then 1 else 0) + CountKey(es[1..], k1, k2)
  }

  ghost predicate IsGroupBy(rows: seq<Row>, es: seq<Entry>) {
    && (forall i, j | 0 <= i < j < |rows| :: !(rows[i].k1 == rows[j].k1 && rows[i].k2 == rows[j].k2))
    && (forall i | 0 <= i < |rows| ::
          && rows[i].total == SumKey(es, rows[i].k1, rows[i].k2)
          && rows[i].count == CountKey(es, rows[i].k1, rows[i].k2) > 0)
    && (forall e | e in es :: HasRow(rows, e.k1, e.k2))
  }

  ghost predicate HasRow(rows: seq<Row>, k1: Str, k2: Str) {
    exists i | 0 <= i < |rows| :: rows[i].k1 == k1 && rows[i].k2 == k2
  }

  function SumRows(rows: seq<Row>): int {
    if rows == [] then 0 else SumRows(rows[..|rows| - 1]) + rows[|rows| - 1].total
  }

  function SumRowsKind(rows: seq<Row>, kind: Str): int {
    if rows == [] then 0
    else SumRowsKind(rows[..|rows| - 1], kind) + if rows[|rows| - 1].k1 == kind then rows[|rows| - 1].total else 0
  }

  function CountRowsKind(rows: seq<Row>, kind: Str): int {
    if rows == [] then 0
    else CountRowsKind(rows[..|rows| - 1], kind) + if rows[|rows| - 1].k1 == kind then rows[|rows| - 1].count else 0
  }

  function Without(es: seq<Entry>, k1: Str, k2: Str): seq<Entry> {
    if es == [] then []
    else if es[0].k1 == k1 && es[0].k2 == k2 then Without(es[1..], k1, k2)
    else [es[0]] + Without(es[1..], k1, k2)
  }

  lemma {:induction false} WithoutSums(es: seq<Entry>, k1: Str, k2: Str, kind: Str)
    ensures Sum(es) == Sum(Without(es, k1, k2)) + SumKey(es, k1, k2)
    ensures SumKind(es, kind) == SumKind(Without(es, k1, k2), kind) + if k1 == kind then SumKey(es, k1, k2) else 0
    ensures CountKind(es, kind) == CountKind(Without(es, k1, k2), kind) + if k1 == kind then CountKey(es, k1, k2) else 0
  {
    if es != [] {
      WithoutSums(es[1..], k1, k2, kind);
      if !(es[0].k1 == k1 && es[0].k2 == k2) { assert Without(es, k1, k2)[1..] == Without(es[1..], k1, k2); }
    }
  }

  lemma {:induction false} WithoutOthers(es: seq<Entry>, k1: Str, k2: Str, l1: Str, l2: Str)
    requires !(k1 == l1 && k2 == l2)
    ensures SumKey(Without(es, k1, k2), l1, l2) == SumKey(es, l1, l2)
    ensures CountKey(Without(es, k1, k2), l1, l2) == CountKey(es, l1, l2)
  {
    if es != [] {
      WithoutOthers(es[1..], k1, k2, l1, l2);
      if !(es[0].k1 == k1 && es[0].k2 == k2) { assert Without(es, k1, k2)[1..] == Without(es[1..], k1, k2); }
    }
  }

  lemma {:induction false} WithoutElements(es: seq<Entry>, k1: Str, k2: Str)
    ensures forall e | e in Without(es, k1, k2) :: e in es && !(e.k1 == k1 && e.k2 == k2)
  {
    if es != [] {
      WithoutElements(es[1..], k1, k2);
    }
  }

  /** Rows grouped by two columns carry the sums by the first column, and the grand total. */
  lemma {:induction false} GroupSums(rows: seq<Row>, es: seq<Entry>, kind: Str)
    requires IsGroupBy(rows, es)
    ensures SumRows(rows) == Sum(es)
    ensures SumRowsKind(rows, kind) == SumKind(es, kind)
    ensures CountRowsKind(rows, kind) == CountKind(es, kind)
    decreases |rows|
  {
    assert es != [] ==> HasRow(rows, es[0].k1, es[0].k2);
    if rows != [] {
      var n := |rows| - 1;
      var last, fewer := rows[n], Without(es, rows[n].k1, rows[n].k2);
      GroupByRest(rows, es);
      GroupSums(rows[..n], fewer, kind);
      WithoutSums(es, last.k1, last.k2, kind);
    }
  }

  lemma {:induction false} GroupByRest(rows: seq<Row>, es: seq<Entry>)
    requires IsGroupBy(rows, es) && rows != []
    ensures IsGroupBy(rows[..|rows| - 1], Without(es, rows[|rows| - 1].k1, rows[|rows| - 1].k2))
  {
    var n := |rows| - 1;
    var last, fewer := rows[n], Without(es, rows[n].k1, rows[n].k2);
    WithoutElements(es, last.k1, last.k2);
    forall i | 0 <= i < n
      ensures rows[i].total == SumKey(fewer, rows[i].k1, rows[i].k2)
          && rows[i].count == CountKey(fewer, rows[i].k1, rows[i].k2)
    {
      WithoutOthers(es, last.k1, last.k2, rows[i].k1, rows[i].k2);
    }
    forall e | e in fewer ensures HasRow(rows[..n], e.k1, e.k2) {
      var i :| 0 <= i < |rows| && rows[i].k1 == e.k1 && rows[i].k2 == e.k2;
      assert rows[..n][i] == rows[i];
    }
  }

  // ----- The per-rail table -----

  datatype Totals = Totals(sent: int, received: int, count: int)

  function SeenKinds(rows: seq<Row>): set<Str> {
    set i | 0 <= i < |rows| :: rows[i].k1
  }

  /** `setdefault`: a rail that is not in the table yet counts as zero. */
  function At(byType: map<Str, Totals>, kind: Str): Totals {
    if kind in byType then byType[kind] else Totals(0, 0, 0)
  }

  /** The loops over outgoing and incoming rows. `get_summary` counts outgoing rows only, `get_bank_summary`
      counts both (`countReceived`). */
  method Aggregate(outgoing: seq<Row>, incoming: seq<Row>, countReceived: bool)
      returns (byType: map<Str, Totals>, totalOut: int, totalIn: int)
    ensures totalOut == SumRows(outgoing) && totalIn == SumRows(incoming)
    ensures byType.Keys == SeenKinds(outgoing) + SeenKinds(incoming)
    ensures forall kind | kind in byType ::
              byType[kind] == Totals(SumRowsKind(outgoing, kind), SumRowsKind(incoming, kind),
                                     CountRowsKind(outgoing, kind)
                                     + if countReceived then CountRowsKind(incoming, kind) else 0)
  {
    var sent: map<Str, Totals>;
    sent, totalOut := AddOutgoing(outgoing);
    byType, totalIn := AddIncoming(sent, incoming, countReceived);
    assert forall kind | kind in byType :: byType[kind] == At(byType, kind);
  }

  method AddOutgoing(rows: seq<Row>) returns (byType: map<Str, Totals>, total: int)
    ensures total == SumRows(rows) && byType.Keys == SeenKinds(rows)
    ensures forall kind :: At(byType, kind) == Totals(SumRowsKind(rows, kind), 0, CountRowsKind(rows, kind))
  {
    total, byType := 0, map[];
    var i := 0;
    while i < |rows|
      invariant i <= |rows|
      invariant total == SumRows(rows[..i]) && byType.Keys == SeenKinds(rows[..i])
      invariant forall kind :: At(byType, kind) == Totals(SumRowsKind(rows[..i], kind), 0,
                                                          CountRowsKind(rows[..i], kind))
    {
      var r := rows[i];
      KindsStep(rows, i);
      assert rows[..i + 1][..i] == rows[..i];
      total := total + r.total;
      var was := At(byType, r.k1);
      byType := byType[r.k1 := was.(sent := was.sent + r.total, count := was.count + r.count)];
      i := i + 1;
    }
    assert rows[..i] == rows;
  }

  method AddIncoming(before: map<Str, Totals>, rows: seq<Row>, countReceived: bool)
      returns (byType: map<Str, Totals>, total: int)
    ensures total == SumRows(rows) && byType.Keys == before.Keys + SeenKinds(rows)
    ensures forall kind :: At(byType, kind) ==
              At(before, kind).(received := At(before, kind).received + SumRowsKind(rows, kind),
                                count := At(before, kind).count
                                         + if countReceived then CountRowsKind(rows, kind) else 0)
  {
    hide SeenKinds;
    total, byType := 0, before;
    NoKinds();
    var i := 0;
    while i < |rows|
      invariant i <= |rows|
      invariant total == SumRows(rows[..i]) && byType.Keys == before.Keys + SeenKinds(rows[..i])
      invariant forall kind :: At(byType, kind) ==
                  At(before, kind).(received := At(before, kind).received + SumRowsKind(rows[..i], kind),
                                    count := At(before, kind).count
                                             + if countReceived then CountRowsKind(rows[..i], kind) else 0)
    {
      var r := rows[i];
      KindsStep(rows, i);
      assert rows[..i + 1][..i] == rows[..i];
      total := total + r.total;
      var was := At(byType, r.k1);
      byType := byType[r.k1 := was.(received := was.received + r.total,
                                    count := was.count + if countReceived then r.count else 0)];
      i := i + 1;
    }
    assert rows[..i] == rows;
  }

  lemma NoKinds()
    ensures SeenKinds([]) == {}
  {
  }

  lemma KindsStep(rows: seq<Row>, i: nat)
    requires i < |rows|
    ensures SeenKinds(rows[..i + 1]) == SeenKinds(rows[..i]) + {rows[i].k1}
  {
    var a, b := rows[..i], rows[..i + 1];
    assert b[i] == rows[i];
    assert forall j | 0 <= j < i :: a[j] == b[j];
  }

  // ----- The queries -----

  datatype Side = ByPayor | ByPayee | ByPayorBank | ByPayeeBank

  function Party(t: Transaction, side: Side): Str {
    match side
    case ByPayor => t.payor
    case ByPayee => t.payee
    case ByPayorBank => t.payorBank
    case ByPayeeBank => t.payeeBank
  }

  predicate Selected(t: Transaction, side: Side, name: Str, today: int, days: int) {
    Party(t, side) == name && t.status == COMPLETED && InWindow(t, today, days)
  }

  /** The rows a volume query feeds to GROUP BY. */
  function Entries(table: seq<Transaction>, side: Side, name: Str, today: int, days: int,
                   byCurrency: bool): seq<Entry> {
    if table == [] then []
    else
      var rest := Entries(table[1..], side, name, today, days, byCurrency);
      if Selected(table[0], side, name, today, days)
      then [Entry(table[0].kind, if byCurrency then table[0].currency else [], table[0].amount)] + rest
      else rest
  }

  /** One pass over the transactions: those of one rail, or all. */
  function Volume(table: seq<Transaction>, side: Side, name: Str, today: int, days: int, kind: Option<Str>): int {
    if table == [] then 0
    else (if Selected(table[0], side, name, today, days) && (kind.None? || kind.value == table[0].kind)
          then table[0].amount else 0)
         + Volume(table[1..], side, name, today, days, kind)
  }

  function Number(table: seq<Transaction>, side: Side, name: Str, today: int, days: int, kind: Str): nat {
    if table == [] then 0
    else (if Selected(table[0], side, name, today, days) && kind == table[0].kind then 1 else 0)
         + Number(table[1..], side, name, today, days, kind)
  }

  lemma {:induction false} EntriesVolume(table: seq<Transaction>, side: Side, name: Str, today: int, days: int,
                                         byCurrency: bool, kind: Str)
    ensures var es := Entries(table, side, name, today, days, byCurrency);
            && Sum(es) == Volume(table, side, name, today, days, None)
            && SumKind(es, kind) == Volume(table, side, name, today, days, Some(kind))
            && CountKind(es, kind) == Number(table, side, name, today, days, kind)
  {
    if table != [] {
      EntriesVolume(table[1..], side, name, today, days, byCurrency, kind);
      if Selected(table[0], side, name, today, days) {
        var es := Entries(table, side, name, today, days, byCurrency);
        assert es[1..] == Entries(table[1..], side, name, today, days, byCurrency);
      }
    }
  }

  // ----- The trend -----

  datatype Trend = Increasing | Declining | Stable

  /** Tenths of x, rounded to the nearest, a tie to the even neighbour: `round(x, 1)` in tenths. */
  function Tenths(x: real): int {
    var f := (10.0 * x).Floor;
    var r := 10.0 * x - f as real;
    if r < 0.5 || (r == 0.5 && f % 2 == 0) then f else f + 1
  }

  function Percent(current: int, prior: int): real
    requires prior > 0
  {
    (current - prior) as real / prior as real * 100.0
  }

  function TrendLabel(current: int, prior: int): Trend {
    if prior <= 0 then Stable
    else
      var tenths := Tenths(Percent(current, prior));
      if tenths > 50 then Increasing else if tenths < -50 then Declining else Stable
  }

  /** Because the percentage is rounded before it is compared, the label changes past 5.05 percent and not
      past 5: it is Increasing exactly above it, and Declining exactly below its negative. */
  lemma {:induction false} TrendLabelIff(current: int, prior: int)
    ensures TrendLabel(current, prior) == Increasing <==> prior > 0 && 2000 * (current - prior) > 101 * prior
    ensures TrendLabel(current, prior) == Declining <==> prior > 0 && 2000 * (current - prior) < -101 * prior
  {
    if prior > 0 {
      var x := Percent(current, prior);
      TenthsThreshold(x);
      var p, d := prior as real, (current - prior) as real;
      var q := d / p;
      assert q * p == d;
      assert x == q * 100.0;
      Scale(q, p, d);
    }
  }

  lemma Scale(q: real, p: real, d: real)
    requires p > 0.0 && q * p == d
    ensures q * 100.0 > 5.05 <==> 2000.0 * d > 101.0 * p
    ensures q * 100.0 < -5.05 <==> 2000.0 * d < -101.0 * p
  {
    assert 2000.0 * d - 101.0 * p == (2000.0 * q - 101.0) * p;
    assert 2000.0 * d + 101.0 * p == (2000.0 * q + 101.0) * p;
  }

  lemma TenthsThreshold(x: real)
    ensures Tenths(x) > 50 <==> x > 5.05
    ensures Tenths(x) < -50 <==> x < -5.05
  {
  }

  /** What the query for the prior period adds up: its answer is NULL when no row qualifies. */
  function PriorVolume(table: seq<Transaction>, side: Side, name: Str, today: int, days: int): int {
    if table == [] then 0
    else (if InPrior(table[0], side, name, today, days) then table[0].amount else 0)
         + PriorVolume(table[1..], side, name, today, days)
  }

  predicate InPrior(t: Transaction, side: Side, name: Str, today: int, days: int) {
    Party(t, side) == name && t.status == COMPLETED && InPriorWindow(t, today, days)
  }

  /** Every transaction of the doubled period is counted in exactly one of the two periods that are compared. */
  lemma {:induction false} PeriodsAddUp(table: seq<Transaction>, side: Side, name: Str, today: int, days: int)
    requires days >= 0
    ensures Volume(table, side, name, today, days, None) + PriorVolume(table, side, name, today, days)
            == Volume(table, side, name, today, days * 2, None)
  {
    if table != [] {
      PeriodsAddUp(table[1..], side, name, today, days);
      WindowsPartition(table[0], today, days);
    }
  }

  ghost predicate IsPriorAnswer(answer: Option<int>, table: seq<Transaction>, side: Side, name: Str, today: int,
                                days: int) {
    if exists t | t in table :: InPrior(t, side, name, today, days)
    then answer == Some(PriorVolume(table, side, name, today, days))
    else answer == None
  }

  lemma {:induction false} NoPriorVolume(table: seq<Transaction>, side: Side, name: Str, today: int, days: int)
    requires forall t | t in table :: !InPrior(t, side, name, today, days)
    ensures PriorVolume(table, side, name, today, days) == 0
  {
    if table != [] {
      assert table[0] in table && forall t | t in table[1..] :: t in table;
      NoPriorVolume(table[1..], side, name, today, days);
    }
  }

  /** A grouped answer is empty exactly when no transaction qualifies. */
  lemma {:induction false} EmptyAnswer(rows: seq<Row>, table: seq<Transaction>, side: Side, name: Str, today: int,
                                       days: int, byCurrency: bool)
    requires IsGroupBy(rows, Entries(table, side, name, today, days, byCurrency))
    ensures rows == [] <==> forall t | t in table :: !Selected(t, side, name, today, days)
  {
    var es := Entries(table, side, name, today, days, byCurrency);
    NoEntries(table, side, name, today, days, byCurrency);
    if es != [] {
      assert es[0] in es;
    }
    if rows != [] {
      assert rows[0].count == CountKey(es, rows[0].k1, rows[0].k2);
    }
  }

  lemma {:induction false} NoEntries(table: seq<Transaction>, side: Side, name: Str, today: int, days: int,
                                     byCurrency: bool)
    ensures Entries(table, side, name, today, days, byCurrency) == [] <==>
              forall t | t in table :: !Selected(t, side, name, today, days)
  {
    if table != [] {
      NoEntries(table[1..], side, name, today, days, byCurrency);
      assert table[0] in table && forall t | t in table[1..] :: t in table;
      assert forall t | t in table :: t == table[0] || t in table[1..];
    }
  }

  datatype Report = NoData | Report(byType: map<Str, Totals>, totalOut: int, totalIn: int, trend: Trend)

  /** The report, from any answers the database may give to the three volume queries: there is none exactly when
      no transaction qualifies on either side; otherwise it holds per rail the one-pass sums over completed
      transactions in the window, whatever order the rows came in and although the outgoing rows were split by
      currency, the one-pass grand totals, and the trend between the two periods. */
  method Summary(table: seq<Transaction>, outSide: Side, inSide: Side, name: Str, today: int, days: int,
                 byCurrency: bool, countReceived: bool, outgoing: seq<Row>, incoming: seq<Row>, prior: Option<int>)
      returns (report: Report)
    requires IsGroupBy(outgoing, Entries(table, outSide, name, today, days, byCurrency))
    requires IsGroupBy(incoming, Entries(table, inSide, name, today, days, false))
    requires IsPriorAnswer(prior, table, outSide, name, today, days)
    ensures report.NoData? <==>
              forall t | t in table ::
                !Selected(t, outSide, name, today, days) && !Selected(t, inSide, name, today, days)
    ensures report.Report? ==>
              && report.totalOut == Volume(table, outSide, name, today, days, None)
              && report.totalIn == Volume(table, inSide, name, today, days, None)
              && report.trend == TrendLabel(report.totalOut, PriorVolume(table, outSide, name, today, days))
    ensures report.Report? ==> forall kind :: kind in report.byType <==>
              Number(table, outSide, name, today, days, kind) + Number(table, inSide, name, today, days, kind) > 0
    ensures report.Report? ==> forall kind | kind in report.byType ::
              report.byType[kind] == Totals(Volume(table, outSide, name, today, days, Some(kind)),
                                            Volume(table, inSide, name, today, days, Some(kind)),
                                            Number(table, outSide, name, today, days, kind)
                                            + if countReceived
                                              then Number(table, inSide, name, today, days, kind) else 0)
  {
    hide TrendLabel, Volume, Number, Selected, InPrior;
    EmptyAnswer(outgoing, table, outSide, name, today, days, byCurrency);
    EmptyAnswer(incoming, table, inSide, name, today, days, false);
    if outgoing == [] && incoming == [] {
      return NoData;
    }
    var byType, totalOut, totalIn := Aggregate(outgoing, incoming, countReceived);
    RowsAreVolumes(table, outSide, name, today, days, byCurrency, outgoing);
    RowsAreVolumes(table, inSide, name, today, days, false, incoming);
    if prior.None? {
      NoPriorVolume(table, outSide, name, today, days);
    }
    var priorTotal := if prior.Some? then prior.value else 0;
    report := Report(byType, totalOut, totalIn, TrendLabel(totalOut, priorTotal));
  }

  lemma {:induction false} RowsAreVolumes(table: seq<Transaction>, side: Side, name: Str, today: int, days: int,
                                          byCurrency: bool, rows: seq<Row>)
    requires IsGroupBy(rows, Entries(table, side, name, today, days, byCurrency))
    ensures SumRows(rows) == Volume(table, side, name, today, days, None)
    ensures forall kind :: SumRowsKind(rows, kind) == Volume(table, side, name, today, days, Some(kind))
    ensures forall kind :: CountRowsKind(rows, kind) == Number(table, side, name, today, days, kind)
    ensures forall kind :: kind in SeenKinds(rows) <==> Number(table, side, name, today, days, kind) > 0
  {
    var es := Entries(table, side, name, today, days, byCurrency);
    GroupSums(rows, es, []);
    EntriesVolume(table, side, name, today, days, byCurrency, []);
    forall kind: Str
      ensures SumRowsKind(rows, kind) == Volume(table, side, name, today, days, Some(kind))
      ensures CountRowsKind(rows, kind) == Number(table, side, name, today, days, kind)
      ensures kind in SeenKinds(rows) <==> Number(table, side, name, today, days, kind) > 0
    {
      GroupSums(rows, es, kind);
      EntriesVolume(table, side, name, today, days, byCurrency, kind);
      SeenIffCounted(rows, kind);
    }
  }

  lemma {:induction false} SeenIffCounted(rows: seq<Row>, kind: Str)
    requires forall i | 0 <= i < |rows| :: rows[i].count > 0
    ensures CountRowsKind(rows, kind) >= 0
    ensures kind in SeenKinds(rows) <==> CountRowsKind(rows, kind) > 0
  {
    if rows != [] {
      var n := |rows| - 1;
      SeenIffCounted(rows[..n], kind);
      KindsStep(rows, n);
      assert rows[..n + 1] == rows;
    }
  }

  function SumVolumes(table: seq<Transaction>, side: Side, name: Str, today: int, days: int, kinds: seq<Str>): int {
    if kinds == [] then 0
    else Volume(table, side, name, today, days, Some(kinds[0])) + SumVolumes(table, side, name, today, days, kinds[1..])
  }

  /** The rails of a report, listed without repetition in any order, add up to the grand total. */
  lemma {:induction false} RailsAddUp(table: seq<Transaction>, side: Side, name: Str, today: int, days: int,
                                      kinds: seq<Str>)
    requires forall i, j | 0 <= i < j < |kinds| :: kinds[i] != kinds[j]
    requires forall t | t in table && Selected(t, side, name, today, days) :: t.kind in kinds
    ensures SumVolumes(table, side, name, today, days, kinds) == Volume(table, side, name, today, days, None)
  {
    if table == [] {
      NoVolume(side, name, today, days, kinds);
    } else {
      assert table[0] in table && forall t | t in table[1..] :: t in table;
      RailsAddUp(table[1..], side, name, today, days, kinds);
      OneMore(table, side, name, today, days, kinds);
    }
  }

  lemma {:induction false} NoVolume(side: Side, name: Str, today: int, days: int, kinds: seq<Str>)
    ensures SumVolumes([], side, name, today, days, kinds) == 0
  {
    if kinds != [] {
      NoVolume(side, name, today, days, kinds[1..]);
    }
  }

  lemma {:induction false} OneMore(table: seq<Transaction>, side: Side, name: Str, today: int, days: int,
                                   kinds: seq<Str>)
    requires table != [] && forall i, j | 0 <= i < j < |kinds| :: kinds[i] != kinds[j]
    ensures SumVolumes(table, side, name, today, days, kinds) ==
              SumVolumes(table[1..], side, name, today, days, kinds)
              + if Selected(table[0], side, name, today, days) && table[0].kind in kinds then table[0].amount else 0
  {
    if kinds != [] {
      OneMore(table, side, name, today, days, kinds[1..]);
      assert table[0].kind in kinds <==> table[0].kind == kinds[0] || table[0].kind in kinds[1..];
      assert table[0].kind == kinds[0] ==> table[0].kind !in kinds[1..];
    }
  }

  // ----- The banks on the other side -----

  /** The two halves of the UNION ALL, before the filter. */
  function Legs(table: seq<Transaction>, bank: Str, today: int, days: int): seq<Entry> {
    if table == [] then []
    else
      (if Selected(table[0], ByPayorBank, bank, today, days) then [Entry(table[0].payeeBank, [], table[0].amount)]
       else [])
      + (if Selected(table[0], ByPayeeBank, bank, today, days) then [Entry(table[0].payorBank, [], table[0].amount)]
         else [])
      + Legs(table[1..], bank, today, days)
  }

  /** `WHERE counterparty_bank <> $1` */
  function OtherBanks(es: seq<Entry>, bank: Str): seq<Entry> {
    if es == [] then []
    else if es[0].k1 == bank then OtherBanks(es[1..], bank)
    else [es[0]] + OtherBanks(es[1..], bank)
  }

  /** What the bank sent to itself. */
  function OwnVolume(table: seq<Transaction>, bank: Str, today: int, days: int): int {
    if table == [] then 0
    else (if Selected(table[0], ByPayorBank, bank, today, days) && table[0].payeeBank == bank then table[0].amount
          else 0)
         + OwnVolume(table[1..], bank, today, days)
  }

  lemma {:induction false} OtherBanksConcat(a: seq<Entry>, b: seq<Entry>, bank: Str)
    ensures Sum(OtherBanks(a + b, bank)) == Sum(OtherBanks(a, bank)) + Sum(OtherBanks(b, bank))
  {
    if a == [] {
      assert a + b == b;
    } else {
      assert (a + b)[1..] == a[1..] + b;
      OtherBanksConcat(a[1..], b, bank);
      if a[0].k1 != bank {
        assert OtherBanks(a + b, bank)[1..] == OtherBanks(a[1..] + b, bank);
        assert OtherBanks(a, bank)[1..] == OtherBanks(a[1..], bank);
      }
    }
  }

  lemma OtherBanksOne(e: Entry, bank: Str)
    ensures Sum(OtherBanks([e], bank)) == if e.k1 == bank then 0 else e.amount
  {
    assert [e][1..] == [];
    assert OtherBanks([e][1..], bank) == [];
    if e.k1 != bank { assert OtherBanks([e], bank) == [e]; }
  }

  lemma {:induction false} LegsVolume(table: seq<Transaction>, bank: Str, today: int, days: int)
    ensures Sum(OtherBanks(Legs(table, bank, today, days), bank)) + 2 * OwnVolume(table, bank, today, days) ==
              Volume(table, ByPayorBank, bank, today, days, None) + Volume(table, ByPayeeBank, bank, today, days, None)
  {
    if table != [] {
      var t, rest := table[0], Legs(table[1..], bank, today, days);
      var sent := if Selected(t, ByPayorBank, bank, today, days) then [Entry(t.payeeBank, [], t.amount)] else [];
      var got := if Selected(t, ByPayeeBank, bank, today, days) then [Entry(t.payorBank, [], t.amount)] else [];
      LegsVolume(table[1..], bank, today, days);
      OtherBanksConcat(sent + got, rest, bank);
      OtherBanksConcat(sent, got, bank);
      OtherBanksOne(Entry(t.payeeBank, [], t.amount), bank);
      OtherBanksOne(Entry(t.payorBank, [], t.amount), bank);
    }
  }

  /** Conservation: what a bank sent plus what it received is the sum over all counterparty banks, before the
      LIMIT and in any order, plus twice what it sent to itself. */
  lemma {:induction false} CounterpartyConservation(table: seq<Transaction>, bank: Str, today: int, days: int,
                                                    groups: seq<Row>)
    requires IsGroupBy(groups, OtherBanks(Legs(table, bank, today, days), bank))
    ensures Volume(table, ByPayorBank, bank, today, days, None) + Volume(table, ByPayeeBank, bank, today, days, None)
            == SumRows(groups) + 2 * OwnVolume(table, bank, today, days)
  {
    GroupSums(groups, OtherBanks(Legs(table, bank, today, days), bank), []);
    LegsVolume(table, bank, today, days);
  }

  // ----- One transaction more -----

  /** A transaction counts for a side if its party there has the name, it is completed, and it lies in the window. */
  predicate Counts(t: Transaction, side: Side, name: Str, today: int, days: int) {
    && (match side
        case ByPayor => t.payor == name
        case ByPayee => t.payee == name
        case ByPayorBank => t.payorBank == name
        case ByPayeeBank => t.payeeBank == name)
    && t.status == Lit("Completed")
    && today - t.date <= days
  }

  /** One transaction more changes the volumes by its amount and the numbers by one where it counts, and nothing
      otherwise. */
  lemma {:induction false} OneTransactionMore(table: seq<Transaction>, t: Transaction, side: Side, name: Str,
                                              today: int, days: int, kind: Str)
    ensures Volume(table + [t], side, name, today, days, None) == Volume(table, side, name, today, days, None)
              + if Counts(t, side, name, today, days) then t.amount else 0
    ensures Volume(table + [t], side, name, today, days, Some(kind)) ==
              Volume(table, side, name, today, days, Some(kind))
              + if Counts(t, side, name, today, days) && t.kind == kind then t.amount else 0
    ensures Number(table + [t], side, name, today, days, kind) == Number(table, side, name, today, days, kind)
              + if Counts(t, side, name, today, days) && t.kind == kind then 1 else 0
    ensures PriorVolume(table + [t], side, name, today, days) == PriorVolume(table, side, name, today, days)
              + if Counts(t, side, name, today, days * 2) && !Counts(t, side, name, today, days) then t.amount else 0
  {
    hide Lit;
    if table == [] {
      assert (table + [t])[1..] == [];
    } else {
      assert (table + [t])[1..] == table[1..] + [t];
      OneTransactionMore(table[1..], t, side, name, today, days, kind);
    }
  }
}
