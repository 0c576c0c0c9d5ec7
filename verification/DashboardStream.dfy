/** From graph events to what the dashboard shows: the encoder's frames go over the wire, are read back, and
    the SQL queries are taken out of the joined reasoning text. */
module DashboardStream {
  import opened Common
  import opened Unicode
  import opened Json
  import opened WireFrames
  import opened StreamEncoding
  import opened SqlMarkers
  import JsText

  /** A piece of reasoning: words, or a query that the encoder wraps in the markers. */
  datatype Piece = Words(text: Str) | Sql(query: Str)

  function PlanPieces(plan: seq<Step>): seq<Piece> {
    if plan == [] then []
    else (if ToolName(plan[0]) == EXECUTE_READ_QUERY && plan[0].query != [] then [Sql(plan[0].query)] else [])
         + PlanPieces(plan[1..])
  }

  function SqlPieces(sql: seq<Str>): seq<Piece> {
    if sql == [] then [] else [Sql(sql[0])] + SqlPieces(sql[1..])
  }

  function ErrorPieces(errors: seq<Str>): seq<Piece> {
    if errors == [] then [] else [Words(ErrorText(errors[0]))] + ErrorPieces(errors[1..])
  }

  /** The reasoning an event gives rise to. */
  function Pieces(es: seq<Event>, uuid: nat -> Str): seq<Piece> {
    if es == [] then []
    else Pieces(es[..|es| - 1], uuid) + EventPieces(After(es[..|es| - 1], uuid), es[|es| - 1])
  }

  function EventPieces(st: Tracker, e: Event): seq<Piece> {
    match e
    case Start(n) => if n.ErrorHandler? then [] else [Words(StartText(n))]
    case End(IntentRouter, o) =>
      if o.intentReasoning.None? then [] else [Words(Header(o))] + PlanPieces(o.plan)
    case End(McpToolCaller, o) =>
      SqlPieces(o.toolSql) + ErrorPieces(o.errors)
    case Token(Some(Text(t))) =>
      if st.current.Some? && ReasoningNode(st.current.value) then [Words(t)] else []
    case _ => []
  }

  /** Model tokens are plain strings. */
  predicate StringTokens(es: seq<Event>) {
    forall e | e in es :: e.Token? && e.content.Some? ==> e.content.value.Text?
  }

  /** Component and follow-up payloads print as JSON. */
  predicate ValidPayloads(es: seq<Event>) {
    forall e | e in es :: e.End? ==>
      && (forall i | 0 <= i < |ComponentsOf(e.output)| :: Valid(ComponentsOf(e.output)[i]))
      && (forall i | 0 <= i < |e.output.followUps| :: Valid(e.output.followUps[i]))
  }

  // ----- The reasoning text as the dashboard joins it -----

  predicate AllUnits(s: Str) {
    forall i | 0 <= i < |s| :: s[i] < 0x1_0000
  }

  /** The text of a reasoning part; every text that was read consists of UTF-16 units. */
  function PartText(p: Part): Units {
    if p.tag == "g" && p.value.Text? && AllUnits(p.value.text) then p.value.text else []
  }

  function ReasoningText(parts: seq<Part>): Units {
    if parts == [] then [] else PartText(parts[0]) + ReasoningText(parts[1..])
  }

  function FrameText(f: Frame): Units {
    if f.Reasoning? && f.text.Text? then Utf16(f.text.text) else []
  }

  function FramesText(fs: seq<Frame>): Units {
    if fs == [] then [] else FrameText(fs[0]) + FramesText(fs[1..])
  }

  lemma ReceivedPart(f: Frame)
    ensures PartText(Received(f)) == FrameText(f)
  {
    hide Lit;
  }

  lemma {:induction false} ReceivedText(fs: seq<Frame>)
    ensures ReasoningText(ReceivedAll(fs)) == FramesText(fs)
  {
    hide Received, PartText, FrameText;
    if fs != [] {
      ReceivedText(fs[1..]);
      ReceivedPart(fs[0]);
      assert ReceivedAll(fs)[0] == Received(fs[0]);
      assert ReceivedAll(fs)[1..] == ReceivedAll(fs[1..]);
    }
  }

  lemma {:induction false} FramesTextConcat(a: seq<Frame>, b: seq<Frame>)
    ensures FramesText(a + b) == FramesText(a) + FramesText(b)
  {
    if a == [] {
      assert a + b == b;
    } else {
      assert (a + b)[1..] == a[1..] + b;
      FramesTextConcat(a[1..], b);
      Assoc(FrameText(a[0]), FramesText(a[1..]), FramesText(b));
    }
  }

  lemma FramesTextOne(f: Frame)
    ensures FramesText([f]) == FrameText(f)
  {
    assert [f][1..] == [];
  }

  function PieceText(p: Piece): Units {
    match p
    case Words(t) => Utf16(t)
    case Sql(q) => Utf16(Wrapped(q))
  }

  function PiecesText(ps: seq<Piece>): Units {
    if ps == [] then [] else PieceText(ps[0]) + PiecesText(ps[1..])
  }

  lemma {:induction false} PiecesTextConcat(a: seq<Piece>, b: seq<Piece>)
    ensures PiecesText(a + b) == PiecesText(a) + PiecesText(b)
  {
    if a == [] {
      assert a + b == b;
    } else {
      assert (a + b)[1..] == a[1..] + b;
      PiecesTextConcat(a[1..], b);
      Assoc(PieceText(a[0]), PiecesText(a[1..]), PiecesText(b));
    }
  }

  lemma PiecesTextOne(p: Piece)
    ensures PiecesText([p]) == PieceText(p)
  {
    assert [p][1..] == [];
  }

  // ----- What the encoder sends is the text of the pieces -----

  lemma {:induction false} PlanText(plan: seq<Step>, drawn: nat, uuid: nat -> Str)
    ensures FramesText(PlanFrames(plan, drawn, uuid)) == PiecesText(PlanPieces(plan))
    decreases plan
  {
    hide Lit, ToolName, Wrapped;
    if plan != [] {
      var step, rest := plan[0], PlanFrames(plan[1..], drawn + 1, uuid);
      var begin := BeginFrame(step, uuid(drawn));
      PlanText(plan[1..], drawn + 1, uuid);
      FramesTextConcat(StepFrames(step, uuid(drawn)), rest);
      FramesTextOne(begin);
      if ToolName(step) == EXECUTE_READ_QUERY && step.query != [] {
        FramesTextConcat([begin], [Said(Wrapped(step.query))]);
        FramesTextOne(Said(Wrapped(step.query)));
        PiecesTextConcat([Sql(step.query)], PlanPieces(plan[1..]));
        PiecesTextOne(Sql(step.query));
      } else {
        assert StepFrames(step, uuid(drawn)) == [begin];
        assert PlanPieces(plan) == PlanPieces(plan[1..]);
      }
    }
  }

  lemma {:induction false} SqlText(sql: seq<Str>)
    ensures FramesText(SqlFrames(sql)) == PiecesText(SqlPieces(sql))
  {
    hide Wrapped;
    if sql != [] {
      SqlText(sql[1..]);
      assert SqlFrames(sql)[1..] == SqlFrames(sql[1..]) && SqlPieces(sql)[1..] == SqlPieces(sql[1..]);
    }
  }

  lemma {:induction false} ErrorsText(errors: seq<Str>)
    ensures FramesText(ErrorFrames(errors)) == PiecesText(ErrorPieces(errors))
  {
    hide ErrorText;
    if errors != [] {
      ErrorsText(errors[1..]);
      assert ErrorFrames(errors)[1..] == ErrorFrames(errors[1..])
          && ErrorPieces(errors)[1..] == ErrorPieces(errors[1..]);
    }
  }

  lemma {:induction false} ResultsAreSilent(active: map<Str, Str>, tools: seq<Str>, drawn: nat, uuid: nat -> Str)
    ensures FramesText(ResultFrames(active, tools, drawn, uuid)) == []
  {
    hide StatusText;
    if tools != [] {
      ResultsAreSilent(active, tools[1..], drawn + 1, uuid);
      assert ResultFrames(active, tools, drawn, uuid)[1..] == ResultFrames(active, tools[1..], drawn + 1, uuid);
    }
  }

  lemma SilentFrames(fs: seq<Frame>)
    requires forall f | f in fs :: !f.Reasoning?
    ensures FramesText(fs) == []
  {
  }

  lemma {:induction false} EventText(st: Tracker, e: Event, uuid: nat -> Str)
    requires e.Token? && e.content.Some? ==> e.content.value.Text?
    ensures FramesText(Frames(st, e, uuid)) == PiecesText(EventPieces(st, e))
  {
    hide Lit, Header, Joined, StatusText, StartText;
    match e
    case Start(n) =>
      if !n.ErrorHandler? {
        FramesTextOne(Said(StartText(n)));
        PiecesTextOne(Words(StartText(n)));
      }
    case End(IntentRouter, o) =>
      if o.intentReasoning.Some? {
        PlanText(o.plan, st.drawn, uuid);
        FramesTextConcat([Said(Header(o))], PlanFrames(o.plan, st.drawn, uuid));
        FramesTextOne(Said(Header(o)));
        PiecesTextConcat([Words(Header(o))], PlanPieces(o.plan));
        PiecesTextOne(Words(Header(o)));
      }
    case End(McpToolCaller, o) =>
      var results := ResultFrames(st.active, o.activeTools, st.drawn, uuid);
      ResultsAreSilent(st.active, o.activeTools, st.drawn, uuid);
      SqlText(o.toolSql);
      ErrorsText(o.errors);
      FramesTextConcat(results + SqlFrames(o.toolSql), ErrorFrames(o.errors));
      FramesTextConcat(results, SqlFrames(o.toolSql));
      assert [] + FramesText(SqlFrames(o.toolSql)) == FramesText(SqlFrames(o.toolSql));
      PiecesTextConcat(SqlPieces(o.toolSql), ErrorPieces(o.errors));
    case End(Synthesis, o) => SilentFrames(SynthesisFrames(st, o));
    case End(ErrorHandler, o) => SilentFrames(ErrorHandlerFrames(o));
    case Token(None) =>
    case Token(Some(content)) =>
      if st.current.Some? && ReasoningNode(st.current.value) {
        FramesTextOne(Reasoning(content));
        PiecesTextOne(Words(content.text));
      } else {
        FramesTextOne(Narrative(content));
      }
    case Other =>
  }

  lemma {:induction false} SentText(es: seq<Event>, uuid: nat -> Str)
    requires StringTokens(es)
    ensures FramesText(Sent(es, uuid)) == PiecesText(Pieces(es, uuid))
  {
    if es != [] {
      var before, e := es[..|es| - 1], es[|es| - 1];
      assert e in es && forall d | d in before :: d in es;
      SentText(before, uuid);
      EventText(After(before, uuid), e, uuid);
      FramesTextConcat(Sent(before, uuid), Frames(After(before, uuid), e, uuid));
      PiecesTextConcat(Pieces(before, uuid), EventPieces(After(before, uuid), e));
    }
  }

  // ----- The pieces as a document with markers -----

  const NL: Units := JsText.Ascii("\n")

  /** The words before, between and after the queries, each run joined; a line break follows every query. */
  function ToDoc(run: Units, ps: seq<Piece>): Doc
    decreases ps
  {
    if ps == [] then Plain(run)
    else match ps[0]
      case Words(t) => ToDoc(run + Utf16(t), ps[1..])
      case Sql(q) => Marked(run, Utf16(q), ToDoc(NL, ps[1..]))
  }

  /** The queries among the pieces, as the dashboard should list them. */
  function QueriesIn(ps: seq<Piece>): seq<Units> {
    if ps == [] then []
    else (if ps[0].Sql? then [JsText.Trim(Utf16(ps[0].query))] else []) + QueriesIn(ps[1..])
  }

  lemma {:induction false} Utf16Ascii(s: string)
    requires forall i | 0 <= i < |s| :: s[i] < 128 as char
    ensures Utf16(Lit(s)) == JsText.Ascii(s)
  {
    if s != "" {
      assert Lit(s)[1..] == Lit(s[1..]);
      Utf16Ascii(s[1..]);
    }
  }

  lemma {:induction false} WrappedText(q: Str)
    ensures Utf16(Wrapped(q)) == OPEN + Utf16(q) + (CLOSE + NL)
  {
    hide Lit, JsText.Ascii;
    MarkerTexts();
    Utf16Concat(Lit("__SQL_QUERY__:") + q, Lit(":__END_SQL__\n"));
    Utf16Concat(Lit("__SQL_QUERY__:"), q);
  }

  lemma AsciiConcat(a: string, b: string)
    requires forall i | 0 <= i < |a| :: a[i] < 128 as char
    requires forall i | 0 <= i < |b| :: b[i] < 128 as char
    ensures JsText.Ascii(a + b) == JsText.Ascii(a) + JsText.Ascii(b)
  {
  }

  lemma MarkerTexts()
    ensures Utf16(Lit("__SQL_QUERY__:")) == OPEN && Utf16(Lit(":__END_SQL__\n")) == CLOSE + NL
  {
    hide Lit, Utf16, JsText.Ascii;
    Utf16Ascii("__SQL_QUERY__:");
    Utf16Ascii(":__END_SQL__\n");
    AsciiConcat(":__END_SQL__", "\n");
    assert ":__END_SQL__" + "\n" == ":__END_SQL__\n";
  }

  lemma {:induction false} RenderToDoc(run: Units, ps: seq<Piece>)
    ensures Render(ToDoc(run, ps)) == run + PiecesText(ps)
    ensures Queries(ToDoc(run, ps)) == QueriesIn(ps)
    decreases ps
  {
    if ps != [] {
      var rest := PiecesText(ps[1..]);
      match ps[0]
      case Words(t) =>
        RenderToDoc(run + Utf16(t), ps[1..]);
        Assoc(run, Utf16(t), rest);
      case Sql(q) =>
        RenderToDoc(NL, ps[1..]);
        WrappedText(q);
        MarkedText(run, Utf16(q), rest);
    }
  }

  lemma MarkedText(run: Units, q: Units, rest: Units)
    ensures run + OPEN + (q + CLOSE + (NL + rest)) == run + ((OPEN + q + (CLOSE + NL)) + rest)
  {
    hide JsText.Ascii;
    var o, c, n := OPEN, CLOSE, NL;
    assert run + o + (q + c + (n + rest)) == run + ((o + q + (c + n)) + rest);
  }

  /** The document a run of events amounts to. */
  function Document(es: seq<Event>, uuid: nat -> Str): Doc {
    ToDoc([], Pieces(es, uuid))
  }

  lemma {:induction false} SentValid(es: seq<Event>, uuid: nat -> Str)
    requires StringTokens(es) && ValidPayloads(es)
    ensures forall f | f in Sent(es, uuid) :: ValidFrame(f)
  {
    if es != [] {
      var before, e := es[..|es| - 1], es[|es| - 1];
      assert e in es && forall d | d in before :: d in es;
      SentValid(before, uuid);
      EventValid(After(before, uuid), e, uuid);
    }
  }

  lemma {:induction false} EventValid(st: Tracker, e: Event, uuid: nat -> Str)
    requires StringTokens([e]) && ValidPayloads([e])
    ensures forall f | f in Frames(st, e, uuid) :: ValidFrame(f)
  {
    hide Lit, Header, Joined, StatusText, StartText, Wrapped, ErrorText;
    assert e in [e];
    match e
    case End(IntentRouter, o) => PlanValid(o.plan, st.drawn, uuid);
    case End(McpToolCaller, o) =>
      ResultsValid(st.active, o.activeTools, st.drawn, uuid);
      TextsValid(o.toolSql, o.errors);
    case End(_, o) => FollowUpsValid(o.followUps);
    case _ =>
  }

  lemma FollowUpsValid(followUps: seq<Json>)
    requires forall i | 0 <= i < |followUps| :: Valid(followUps[i])
    ensures forall f | f in FollowUpFrames(followUps) :: ValidFrame(f)
  {
    hide Lit;
    var fields := [Field(Lit("type"), Text(Lit("follow_up_suggestions"))), Field(Lit("suggestions"), Arr(followUps))];
    assert Valid(Arr(followUps));
    assert Valid(Obj(fields));
    assert Valid(Arr([Obj(fields)]));
  }

  lemma ToolFramesValid(id: Str, name: Str)
    ensures ValidFrame(ToolCallBegin(id, name)) && ValidFrame(WireFrames.ToolResult(id, name))
  {
    hide Lit;
    var begin, result := [Field(ID, Text(id)), Field(NAME, Text(name))],
        [Field(ID, Text(id)), Field(RESULT, Text(name))];
    assert Valid(Text(id)) && Valid(Text(name));
    assert Valid(Obj(begin)) && Valid(Obj(result));
    assert Payload(ToolCallBegin(id, name)) == Obj(begin) && Payload(WireFrames.ToolResult(id, name)) == Obj(result);
  }

  lemma {:induction false} PlanValid(plan: seq<Step>, drawn: nat, uuid: nat -> Str)
    ensures forall f | f in PlanFrames(plan, drawn, uuid) :: ValidFrame(f)
    decreases plan
  {
    hide Lit, Wrapped;
    if plan != [] {
      PlanValid(plan[1..], drawn + 1, uuid);
      ToolFramesValid(uuid(drawn), ServerName(plan[0]) + Lit("/") + ToolName(plan[0]));
    }
  }

  lemma {:induction false} ResultsValid(active: map<Str, Str>, tools: seq<Str>, drawn: nat, uuid: nat -> Str)
    ensures forall f | f in ResultFrames(active, tools, drawn, uuid) :: ValidFrame(f)
  {
    hide Lit, StatusText;
    if tools != [] {
      ResultsValid(active, tools[1..], drawn + 1, uuid);
      ToolFramesValid(ResultId(active, tools[0], drawn, uuid), StatusText(tools[0]));
    }
  }

  lemma {:induction false} TextsValid(sql: seq<Str>, errors: seq<Str>)
    ensures forall f | f in SqlFrames(sql) + ErrorFrames(errors) :: ValidFrame(f)
  {
    hide Wrapped, ErrorText;
    if sql != [] {
      TextsValid(sql[1..], errors);
    } else if errors != [] {
      TextsValid(sql, errors[1..]);
    }
  }

  /** End to end, for every run of events: the bytes read back as the frames that were sent, and the dashboard takes
      the reasoning text for exactly the words and the queries that were sent if and only if no words before a query
      hold the opening marker, none after the last query are taken for one, and no query holds the closing marker. With
      such words it lists exactly the trimmed queries the encoder wrapped, in order, if and only if no query holds the
      closing marker; what it shows is then the remaining words. */
  lemma {:induction false} DashboardRecoversSql(es: seq<Event>, uuid: nat -> Str)
    requires StringTokens(es) && ValidPayloads(es)
    ensures ReadStream(EncodeAll(Sent(es, uuid))).Some?
    ensures var text, d := ReasoningText(ReadStream(EncodeAll(Sent(es, uuid))).value), Document(es, uuid);
            && Extract(text) == (Queries(Segment(text)), Shown(Segment(text)))
            && (Segment(text) == d <==> PlainRuns(d) && ClosedQueries(d))
            && (PlainRuns(d) ==> (Extract(text).0 == QueriesIn(Pieces(es, uuid)) <==> ClosedQueries(d)))
            && (PlainRuns(d) && ClosedQueries(d) ==> Extract(text).1 == Shown(d))
  {
    hide Extract, Segment, PlainRuns, ClosedQueries, Queries, Shown, Sent, Pieces, ReadStream, EncodeAll;
    var fs := Sent(es, uuid);
    SentValid(es, uuid);
    StreamRoundTrip(fs);
    ReceivedText(fs);
    SentText(es, uuid);
    RenderToDoc([], Pieces(es, uuid));
    var d := Document(es, uuid);
    assert [] + PiecesText(Pieces(es, uuid)) == PiecesText(Pieces(es, uuid));
    assert ReasoningText(ReceivedAll(fs)) == Render(d);
    ExtractSegment(Render(d));
    SegmentIff(d);
    if PlainRuns(d) {
      QueriesRecoveredIff(d);
      if ClosedQueries(d) {
        ExtractRender(d);
      }
    }
  }
}
