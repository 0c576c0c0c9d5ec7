/** The SQL markers: agents/analytics-agent/src/streaming/data_stream_encoder.py wraps each query in them,
    and frontends/analytics-dashboard/components/chat/Message.tsx takes the queries out again. */
module SqlMarkers {
  import opened Common
  import opened Unicode
  import opened JsText

  const OPEN: Units := Ascii("__SQL_QUERY__:")
  const CLOSE: Units := Ascii(":__END_SQL__")

  /** The global, lazy pattern `OPEN([\s\S]*?)CLOSE` with every match replaced by nothing: the trimmed
      groups, and the text that is left. A marker that is never closed ends the search. */
  function Extract(s: Units): (seq<Units>, Units)
    decreases |s|
  {
    match Find(s, OPEN)
    case None => ([], s)
    case Some(i) =>
      var body := s[i + |OPEN|..];
      match Find(body, CLOSE)
      case None => ([], s)
      case Some(j) =>
        var (queries, shown) := Extract(body[j + |CLOSE|..]);
        ([Trim(body[..j])] + queries, s[..i] + shown)
  }

  method ExtractSql(raw: Units) returns (sqlQueries: seq<Units>, reasoningText: Units)
    ensures sqlQueries == Extract(raw).0 && reasoningText == Extract(raw).1
  {
    hide Find, Trim, Ascii;
    sqlQueries, reasoningText := [], [];
    var rest := raw;
    while true
      invariant Extract(raw).0 == sqlQueries + Extract(rest).0
      invariant Extract(raw).1 == reasoningText + Extract(rest).1
      decreases |rest|
    {
      var start := Find(rest, OPEN);
      if start.None? {
        break;
      }
      var body := rest[start.value + |OPEN|..];
      var end := Find(body, CLOSE);
      if end.None? {
        break;
      }
      ghost var next := Extract(body[end.value + |CLOSE|..]);
      Assoc(sqlQueries, [Trim(body[..end.value])], next.0);
      Assoc(reasoningText, rest[..start.value], next.1);
      sqlQueries := sqlQueries + [Trim(body[..end.value])];
      reasoningText := reasoningText + rest[..start.value];
      rest := body[end.value + |CLOSE|..];
    }
    reasoningText := reasoningText + rest;
  }

  // ----- What the encoder writes -----

  /** Plain text and wrapped queries in turn; the text between two queries is one run. */
  datatype Doc = Plain(text: Units) | Marked(text: Units, sql: Units, rest: Doc)

  function Render(d: Doc): Units {
    match d
    case Plain(text) => text
    case Marked(text, sql, rest) => text + OPEN + (sql + CLOSE + Render(rest))
  }

  function Queries(d: Doc): seq<Units> {
    match d
    case Plain(_) => []
    case Marked(_, sql, rest) => [Trim(sql)] + Queries(rest)
  }

  function Shown(d: Doc): Units {
    match d
    case Plain(text) => text
    case Marked(text, _, rest) => text + Shown(rest)
  }

  /** No run of plain text before a query holds the opening marker, and if the last run does, no closing one follows. */
  ghost predicate PlainRuns(d: Doc) {
    match d
    case Plain(text) => Unclosed(text)
    case Marked(text, _, rest) => !Contains(text, OPEN) && PlainRuns(rest)
  }

  predicate Unclosed(s: Units) {
    Find(s, OPEN).Some? ==> Find(s[Find(s, OPEN).value + |OPEN|..], CLOSE).None?
  }

  /** No query holds the closing marker. */
  ghost predicate ClosedQueries(d: Doc) {
    d.Marked? ==> !Contains(d.sql, CLOSE) && ClosedQueries(d.rest)
  }

  lemma {:induction false} MarkersBorderFree()
    ensures BorderFree(OPEN) && BorderFree(CLOSE)
  {
    forall k | 0 < k < |OPEN| ensures OPEN[k..] != OPEN[..|OPEN| - k] {
      assert OPEN[k..][|OPEN| - k - 1] == ':' as int;
    }
    forall k | 0 < k < |CLOSE| ensures CLOSE[k..] != CLOSE[..|CLOSE| - k] {
      assert CLOSE[..|CLOSE| - k][0] == ':' as int;
    }
  }

  /** One wrapped query, whatever it holds: the group ends at the first closing marker. */
  lemma {:induction false} ExtractStep(d: Doc)
    requires d.Marked? && !Contains(d.text, OPEN)
    ensures var tail := d.sql + CLOSE + Render(d.rest);
            && Find(tail, CLOSE).Some?
            && Extract(Render(d)) ==
                 var j := Find(tail, CLOSE).value;
                 var (queries, shown) := Extract(tail[j + |CLOSE|..]);
                 ([Trim(tail[..j])] + queries, d.text + shown)
  {
    MarkersBorderFree();
    var s, tail := Render(d), d.sql + CLOSE + Render(d.rest);
    FindMarker(d.text, OPEN, tail);
    assert s[|d.text| + |OPEN|..] == tail && s[..|d.text|] == d.text;
    assert tail[|d.sql|..|d.sql| + |CLOSE|] == CLOSE;
    FindLeast(tail, CLOSE, |d.sql|);
  }

  /** Extraction recovers exactly the trimmed queries, in order, and leaves all other text as it was. */
  lemma {:induction false} ExtractRender(d: Doc)
    requires PlainRuns(d) && ClosedQueries(d)
    ensures Extract(Render(d)) == (Queries(d), Shown(d))
  {
    if d.Marked? {
      MarkersBorderFree();
      ExtractStep(d);
      var tail := d.sql + CLOSE + Render(d.rest);
      FindMarker(d.sql, CLOSE, Render(d.rest));
      assert tail[|d.sql| + |CLOSE|..] == Render(d.rest) && tail[..|d.sql|] == d.sql;
      ExtractRender(d.rest);
    }
  }

  /** With clean plain text the queries come back if and only if none of them holds the closing marker. */
  lemma {:induction false} QueriesRecoveredIff(d: Doc)
    requires PlainRuns(d)
    ensures Extract(Render(d)).0 == Queries(d) <==> ClosedQueries(d)
  {
    if d.Marked? {
      MarkersBorderFree();
      ExtractStep(d);
      var tail := d.sql + CLOSE + Render(d.rest);
      if Contains(d.sql, CLOSE) {
        CutQuery(d.sql, Render(d.rest));
        assert Extract(Render(d)).0[0] != Queries(d)[0];
      } else {
        FindMarker(d.sql, CLOSE, Render(d.rest));
        assert tail[|d.sql| + |CLOSE|..] == Render(d.rest) && tail[..|d.sql|] == d.sql;
        QueriesRecoveredIff(d.rest);
        assert Extract(Render(d)).0[1..] == Extract(Render(d.rest)).0;
        assert Queries(d)[1..] == Queries(d.rest);
      }
    }
  }

  /** A query that holds the closing marker is cut there, and what is left of it is another query. */
  lemma {:induction false} CutQuery(sql: Units, rest: Units)
    requires Contains(sql, CLOSE)
    ensures var j := Find(sql + CLOSE + rest, CLOSE);
            j.Some? && j.value <= |sql| && Trim((sql + CLOSE + rest)[..j.value]) != Trim(sql)
  {
    var i: nat :| OccursAt(sql, CLOSE, i);
    FindLeast(sql, CLOSE, i);
    assert sql + CLOSE + rest == sql + (CLOSE + rest);
    FindEarlier(sql, CLOSE, CLOSE + rest);
    var j := Find(sql, CLOSE).value;
    assert (sql + CLOSE + rest)[..j] == sql[..j];
    CutInk(sql, j);
  }

  lemma {:induction false} CutInk(sql: Units, j: nat)
    requires OccursAt(sql, CLOSE, j)
    ensures Trim(sql[..j]) != Trim(sql)
  {
    var head, tail := sql[..j], sql[j..];
    assert tail[0] == sql[j..j + |CLOSE|][0] == ':' as int;
    assert sql == head + tail;
    InkConcat(head, tail);
    InkTrim(head);
    InkTrim(sql);
  }

  // ----- Reading any text as a document -----

  /** The document that the extraction takes the text for. */
  function Segment(s: Units): Doc
    decreases |s|
  {
    match Find(s, OPEN)
    case None => Plain(s)
    case Some(i) =>
      var body := s[i + |OPEN|..];
      match Find(body, CLOSE)
      case None => Plain(s)
      case Some(j) => Marked(s[..i], body[..j], Segment(body[j + |CLOSE|..]))
  }

  lemma {:induction false} ExtractSegment(s: Units)
    ensures Extract(s) == (Queries(Segment(s)), Shown(Segment(s)))
    decreases |s|
  {
    hide Ascii, Trim, Find;
    if Find(s, OPEN).Some? {
      var body := s[Find(s, OPEN).value + |OPEN|..];
      if Find(body, CLOSE).Some? {
        ExtractSegment(body[Find(body, CLOSE).value + |CLOSE|..]);
      }
    }
  }

  /** The text before the first occurrence holds none. */
  lemma {:induction false} NoneBefore(s: Units, m: Units)
    requires m != [] && Find(s, m).Some?
    ensures !Contains(s[..Find(s, m).value], m)
  {
    var i := Find(s, m).value;
    if k: nat :| OccursAt(s[..i], m, k) {
      assert s[k..k + |m|] == s[..i][k..k + |m|];
      FindLeast(s, m, k);
    }
  }

  /** The text around the first occurrence. */
  lemma {:induction false} FirstSplit(s: Units, m: Units)
    requires m != [] && Find(s, m).Some?
    ensures var i := Find(s, m).value;
            && i + |m| <= |s| && !Contains(s[..i], m)
            && s == s[..i] + m + s[i + |m|..] && s == s[..i] + (m + s[i + |m|..])
  {
    NoneBefore(s, m);
  }

  /** Whatever the text, it is the rendering of the document it is taken for, and that document is clean. */
  lemma {:induction false} SegmentClean(s: Units)
    ensures Render(Segment(s)) == s && PlainRuns(Segment(s)) && ClosedQueries(Segment(s))
    decreases |s|
  {
    hide Ascii, Contains, Find;
    MarkersBorderFree();
    if Find(s, OPEN).Some? {
      FirstSplit(s, OPEN);
      var i := Find(s, OPEN).value;
      var body := s[i + |OPEN|..];
      if Find(body, CLOSE).Some? {
        FirstSplit(body, CLOSE);
        SegmentClean(body[Find(body, CLOSE).value + |CLOSE|..]);
      }
    }
  }

  lemma {:induction false} SegmentRender(d: Doc)
    requires PlainRuns(d) && ClosedQueries(d)
    ensures Segment(Render(d)) == d
  {
    if d.Marked? {
      MarkersBorderFree();
      var s, tail := Render(d), d.sql + CLOSE + Render(d.rest);
      FindMarker(d.text, OPEN, tail);
      assert s[|d.text| + |OPEN|..] == tail && s[..|d.text|] == d.text;
      FindMarker(d.sql, CLOSE, Render(d.rest));
      assert tail[|d.sql| + |CLOSE|..] == Render(d.rest) && tail[..|d.sql|] == d.sql;
      SegmentRender(d.rest);
    }
  }

  /** Every document is taken for what it is, run by run and query by query, if and only if it is clean. */
  lemma {:induction false} SegmentIff(d: Doc)
    ensures Segment(Render(d)) == d <==> PlainRuns(d) && ClosedQueries(d)
  {
    SegmentClean(Render(d));
    if PlainRuns(d) && ClosedQueries(d) {
      SegmentRender(d);
    }
  }
}
