/** The line frames of agents/analytics-agent/src/streaming/data_stream_encoder.py, and a reader for the
    stream they form. */
module WireFrames {
  import opened Common
  import opened Unicode
  import opened Json

  datatype Frame =
    | Narrative(token: Json)
    | Reasoning(text: Json)
    | ToolCallBegin(id: Str, name: Str)
    | ToolResult(id: Str, result: Str)
    | Data(payload: seq<Json>)
    | Error(message: Str)
    | Finish(reason: Str)

  function Tag(f: Frame): char {
    match f
    case Narrative(_) => '0'
    case Reasoning(_) => 'g'
    case ToolCallBegin(_, _) => 'b'
    case ToolResult(_, _) => 'a'
    case Data(_) => '2'
    case Error(_) => '3'
    case Finish(_) => 'd'
  }

  const ID := Lit("toolCallId")
  const NAME := Lit("toolName")
  const RESULT := Lit("result")
  const USAGE := Obj([Field(Lit("promptTokens"), Num("0")), Field(Lit("completionTokens"), Num("0"))])

  function Payload(f: Frame): Json {
    match f
    case Narrative(token) => token
    case Reasoning(text) => text
    case ToolCallBegin(id, name) => Obj([Field(ID, Text(id)), Field(NAME, Text(name))])
    case ToolResult(id, result) => Obj([Field(ID, Text(id)), Field(RESULT, Text(result))])
    case Data(payload) => Arr(payload)
    case Error(message) => Text(message)
    case Finish(reason) => Obj([Field(Lit("finishReason"), Text(reason)), Field(Lit("usage"), USAGE)])
  }

  function Encode(f: Frame): string {
    [Tag(f), ':'] + Print(Payload(f)) + "\n"
  }

  function EncodeAll(fs: seq<Frame>): string {
    if fs == [] then "" else Encode(fs[0]) + EncodeAll(fs[1..])
  }

  // ----- The reader -----

  datatype Part = Part(tag: string, value: Json)

  function IndexOf(s: string, c: char): (n: nat)
    ensures n <= |s|
    ensures n < |s| ==> s[n] == c
    ensures forall i | 0 <= i < n :: s[i] != c
  {
    if s == "" || s[0] == c then 0 else 1 + IndexOf(s[1..], c)
  }

  /** A line is a tag, a colon and one JSON text. */
  function ReadLine(line: string): Option<Part> {
    var n := IndexOf(line, ':');
    if n == |line| then None
    else match Read(line[n + 1..]) { case None => None case Some(v) => Some(Part(line[..n], v)) }
  }

  /** Every line must end in a newline and be a frame. */
  function ReadStream(s: string): Option<seq<Part>> {
    if s == "" then Some([])
    else
      var n := IndexOf(s, '\n');
      if n == |s| then None
      else match (ReadLine(s[..n]), ReadStream(s[n + 1..]))
        case (Some(p), Some(ps)) => Some([p] + ps)
        case _ => None
  }

  function Received(f: Frame): Part {
    Part([Tag(f)], Wire(Payload(f)))
  }

  function ReceivedAll(fs: seq<Frame>): seq<Part> {
    seq(|fs|, i requires 0 <= i < |fs| => Received(fs[i]))
  }

  predicate ValidFrame(f: Frame) {
    Valid(Payload(f))
  }

  lemma {:induction false} LineRoundTrip(f: Frame)
    requires ValidFrame(f)
    ensures var line := [Tag(f), ':'] + Print(Payload(f));
            IndexOf(line + "\n", '\n') == |line| && ReadLine(line) == Some(Received(f))
  {
    var payload := Print(Payload(f));
    var line := [Tag(f), ':'] + payload;
    PrintPrintable(Payload(f));
    RoundTrip(Payload(f));
    assert forall i | 2 <= i < |line| :: line[i] == payload[i - 2];
    assert line[1] == ':' && line[0] != ':';
    assert line[2..] == payload && line[..1] == [Tag(f)];
    assert (line + "\n")[|line|] == '\n';
  }

  lemma FirstLine(line: string, rest: string, part: Part, parts: seq<Part>)
    requires IndexOf(line + "\n", '\n') == |line|
    requires ReadLine(line) == Some(part) && ReadStream(rest) == Some(parts)
    ensures ReadStream((line + "\n") + rest) == Some([part] + parts)
  {
    var s := (line + "\n") + rest;
    assert forall i | 0 <= i < |line| :: s[i] == (line + "\n")[i];
    assert s[|line|] == '\n';
    assert IndexOf(s, '\n') == |line|;
    assert s[..|line|] == line && s[|line| + 1..] == rest;
  }

  /** Reading the concatenated output line by line gives back exactly the frames, in order: whatever the
      payloads, no frame is lost, split, merged or moved. */
  lemma {:induction false} StreamRoundTrip(fs: seq<Frame>)
    requires forall f | f in fs :: ValidFrame(f)
    ensures ReadStream(EncodeAll(fs)) == Some(ReceivedAll(fs))
  {
    hide Print, Payload, Tag, Received, ReadStream, ReadLine, IndexOf, ValidFrame;
    if fs == [] {
      NothingRead();
    } else {
      LineRoundTrip(fs[0]);
      StreamRoundTrip(fs[1..]);
      FirstLine([Tag(fs[0]), ':'] + Print(Payload(fs[0])), EncodeAll(fs[1..]), Received(fs[0]), ReceivedAll(fs[1..]));
      assert ReceivedAll(fs) == [Received(fs[0])] + ReceivedAll(fs[1..]);
    }
  }

  lemma NothingRead()
    ensures ReadStream("") == Some([])
  {
  }

  /** Two runs of frames with the same bytes carry the same tags and, when no string holds two adjacent
      lone surrogates, the same payloads. */
  lemma {:induction false} StreamInjective(fs: seq<Frame>, gs: seq<Frame>)
    requires forall f | f in fs + gs :: ValidFrame(f) && AllClean(Payload(f))
    requires EncodeAll(fs) == EncodeAll(gs)
    ensures fs == gs
  {
    assert (forall f | f in fs :: f in fs + gs) && (forall f | f in gs :: f in fs + gs);
    StreamRoundTrip(fs);
    StreamRoundTrip(gs);
    assert |ReceivedAll(fs)| == |fs| && |ReceivedAll(gs)| == |gs|;
    forall i | 0 <= i < |fs| ensures fs[i] == gs[i] {
      assert ReceivedAll(fs)[i] == ReceivedAll(gs)[i];
      DecodedWire(Payload(fs[i]));
      DecodedWire(Payload(gs[i]));
      PayloadInjective(fs[i], gs[i]);
    }
  }

  lemma PayloadInjective(f: Frame, g: Frame)
    requires Tag(f) == Tag(g) && Payload(f) == Payload(g)
    ensures f == g
  {
    match f
    case ToolCallBegin(id, name) =>
      assert Payload(f).fields[0].value == Text(id) && Payload(f).fields[1].value == Text(name);
    case ToolResult(id, result) =>
      assert Payload(f).fields[0].value == Text(id) && Payload(f).fields[1].value == Text(result);
    case Finish(reason) =>
      assert Payload(f).fields[0].value == Text(reason);
    case _ =>
  }

  lemma {:induction false} EncodeAllConcat(a: seq<Frame>, b: seq<Frame>)
    ensures EncodeAll(a + b) == EncodeAll(a) + EncodeAll(b)
  {
    if a == [] {
      assert a + b == b;
    } else {
      assert (a + b)[1..] == a[1..] + b;
      EncodeAllConcat(a[1..], b);
    }
  }

  // ----- The lines, letter by letter -----

  /** Printable ASCII without quotes and backslashes, which JSON prints as it is. */
  predicate PlainText(s: string) {
    forall i | 0 <= i < |s| :: ' ' <= s[i] <= '~' && s[i] != '"' && s[i] != '\\'
  }

  lemma {:induction false} PlainQuote(s: string)
    requires PlainText(s)
    ensures Quote(Lit(s)) == "\"" + s + "\""
  {
    PlainEscape(s);
  }

  lemma {:induction false} PlainEscape(s: string)
    requires PlainText(s)
    ensures Escape(Utf16(Lit(s))) == s
  {
    if s != "" {
      assert Lit(s)[1..] == Lit(s[1..]);
      assert Utf16(Lit(s)) == [s[0] as int] + Utf16(Lit(s[1..]));
      assert Utf16(Lit(s))[1..] == Utf16(Lit(s[1..]));
      PlainEscape(s[1..]);
      assert EscapeUnit(s[0] as int) == [s[0]];
      assert s == [s[0]] + s[1..];
    }
  }

  /** A plain text in quotes, and an entry of an object. */
  function Quoted(s: string): string {
    "\"" + s + "\""
  }

  function Pair(key: string, value: string): string {
    Quoted(key) + ": " + value
  }

  /** The tags of the protocol, in the order of its table. */
  lemma Tags(v: Json, items: seq<Json>, s: Str)
    ensures Tag(Narrative(v)) == '0' && Tag(Reasoning(v)) == 'g' && Tag(ToolCallBegin(s, s)) == 'b'
    ensures Tag(ToolResult(s, s)) == 'a' && Tag(Data(items)) == '2' && Tag(Error(s)) == '3' && Tag(Finish(s)) == 'd'
  {
  }

  /** The payloads of plain texts, letter by letter. */
  lemma {:induction false} TextPayloads(s: string)
    requires PlainText(s)
    ensures Print(Payload(Narrative(Text(Lit(s))))) == Quoted(s)
    ensures Print(Payload(Reasoning(Text(Lit(s))))) == Quoted(s)
    ensures Print(Payload(Error(Lit(s)))) == Quoted(s)
    ensures Print(Payload(Data([Text(Lit(s))]))) == "[" + Quoted(s) + "]"
  {
    hide Lit, Quote;
    PlainQuote(s);
    OneItem(Text(Lit(s)));
  }

  lemma OneItem(v: Json)
    ensures Print(Arr([v])) == "[" + Print(v) + "]"
  {
    assert [v][1..] == [];
    assert PrintItems([v][1..]) == "]";
  }

  /** One field of an object, printed. */
  lemma PlainField(key: string, v: Json)
    requires PlainText(key)
    ensures PrintField(Field(Lit(key), v)) == Pair(key, Print(v))
  {
    hide Lit, Quote, Print;
    PlainQuote(key);
  }

  lemma TwoFields(f: Field, g: Field)
    ensures Print(Obj([f, g])) == "{" + PrintField(f) + (", " + PrintField(g) + "}")
  {
    hide PrintField;
    assert [f, g][1..] == [g] && [g][1..] == [];
    assert PrintFields([g]) == ", " + PrintField(g) + PrintFields([g][1..]);
    assert PrintFields([g][1..]) == "}";
  }

  lemma {:induction false} ToolPayloads(id: string, s: string)
    requires PlainText(id) && PlainText(s)
    ensures Print(Payload(ToolCallBegin(Lit(id), Lit(s))))
         == "{" + Pair("toolCallId", Quoted(id)) + (", " + Pair("toolName", Quoted(s)) + "}")
    ensures Print(Payload(ToolResult(Lit(id), Lit(s))))
         == "{" + Pair("toolCallId", Quoted(id)) + (", " + Pair("result", Quoted(s)) + "}")
  {
    hide Lit, Quote, PrintField, PlainText, Pair, Quoted;
    TextPayloads(id);
    TextPayloads(s);
    PlainKeys();
    PlainField("toolCallId", Text(Lit(id)));
    PlainField("toolName", Text(Lit(s)));
    PlainField("result", Text(Lit(s)));
    TwoFields(Field(ID, Text(Lit(id))), Field(NAME, Text(Lit(s))));
    TwoFields(Field(ID, Text(Lit(id))), Field(RESULT, Text(Lit(s))));
  }

  lemma PlainKeys()
    ensures PlainText("toolCallId") && PlainText("toolName") && PlainText("result") && PlainText("finishReason")
    ensures PlainText("usage") && PlainText("promptTokens") && PlainText("completionTokens")
  {
  }

  lemma {:induction false} FinishPayload(s: string)
    requires PlainText(s)
    ensures Print(Payload(Finish(Lit(s))))
         == "{" + Pair("finishReason", Quoted(s)) + (", " + Pair("usage",
              "{" + Pair("promptTokens", "0") + (", " + Pair("completionTokens", "0") + "}")) + "}")
  {
    hide Lit, Quote, PrintField, PlainText, Pair, Quoted;
    TextPayloads(s);
    PlainKeys();
    PlainField("finishReason", Text(Lit(s)));
    PlainField("usage", USAGE);
    PlainField("promptTokens", Num("0"));
    PlainField("completionTokens", Num("0"));
    TwoFields(Field(Lit("promptTokens"), Num("0")), Field(Lit("completionTokens"), Num("0")));
    TwoFields(Field(Lit("finishReason"), Text(Lit(s))), Field(Lit("usage"), USAGE));
  }
}
