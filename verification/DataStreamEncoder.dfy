/** The stateful encoder of agents/analytics-agent/src/streaming/data_stream_encoder.py. Graph events come
    in any order; the ids that `uuid4` yields are the values of a function `uuid` from draw number to id. */
module StreamEncoding {
  import opened Common
  import opened Unicode
  import opened Json
  import opened WireFrames
  import Decimal

  /** The graph nodes the protocol surfaces. */
  datatype Node = IntentRouter | McpToolCaller | Synthesis | ErrorHandler

  predicate ReasoningNode(n: Node) {
    n.IntentRouter? || n.McpToolCaller? || n.ErrorHandler?
  }

  /** A plan step; an absent name reads as "unknown", an absent query as the empty string. */
  datatype Step = Step(tool: Option<Str>, server: Option<Str>, query: Str)

  /** The node output at the end of a node; an absent narrative or component list reads as empty. `toolSql`
      lists the `_sql_queries` entries found in the raw data. */
  datatype Output = Output(
    intent: Option<Str>,
    intentReasoning: Option<Str>,
    plan: seq<Step>,
    activeTools: seq<Str>,
    toolSql: seq<Str>,
    errors: seq<Str>,
    components: Option<seq<Json>>,
    followUps: seq<Json>,
    narrative: Option<Str>)

  /** `Token(None)` is a model chunk without content. */
  datatype Event = Start(node: Node) | End(node: Node, output: Output) | Token(content: Option<Json>) | Other

  datatype Tracker = Tracker(current: Option<Node>, streamed: bool, active: map<Str, Str>, drawn: nat)

  const INITIAL := Tracker(None, false, map[], 0)

  const MCP_TOOL_CALLER := Lit("mcp_tool_caller")
  const EXECUTE_READ_QUERY := Lit("execute_read_query")
  const NEWLINE := Lit("\n")

  function Said(s: Str): Frame {
    Reasoning(Text(s))
  }

  function NarrativeOf(o: Output): Str {
    if o.narrative.Some? then o.narrative.value else []
  }

  function ComponentsOf(o: Output): seq<Json> {
    if o.components.Some? then o.components.value else []
  }

  function ToolName(step: Step): Str {
    if step.tool.Some? then step.tool.value else Lit("unknown")
  }

  function ServerName(step: Step): Str {
    if step.server.Some? then step.server.value else Lit("unknown")
  }

  function Wrapped(sql: Str): Str {
    Lit("__SQL_QUERY__:") + sql + Lit(":__END_SQL__\n")
  }

  function Header(o: Output): Str
    requires o.intentReasoning.Some?
  {
    Lit("Intent: ") + (if o.intent.Some? then o.intent.value else Lit("unknown"))
    + Lit(" | ") + o.intentReasoning.value
    + Lit(" | Plan: ") + Lit(Decimal.Decimal(|o.plan|)) + Lit(" steps\n")
  }

  function BeginFrame(step: Step, id: Str): Frame {
    ToolCallBegin(id, ServerName(step) + Lit("/") + ToolName(step))
  }

  function StepFrames(step: Step, id: Str): seq<Frame> {
    [BeginFrame(step, id)]
    + if ToolName(step) == EXECUTE_READ_QUERY && step.query != [] then [Said(Wrapped(step.query))] else []
  }

  function PlanFrames(plan: seq<Step>, drawn: nat, uuid: nat -> Str): seq<Frame> {
    if plan == [] then [] else StepFrames(plan[0], uuid(drawn)) + PlanFrames(plan[1..], drawn + 1, uuid)
  }

  function PlanActive(active: map<Str, Str>, plan: seq<Step>, drawn: nat, uuid: nat -> Str): map<Str, Str>
    decreases plan
  {
    if plan == [] then active else PlanActive(active[ToolName(plan[0]) := uuid(drawn)], plan[1..], drawn + 1, uuid)
  }

  function StatusText(tool: Str): Str {
    Lit(Print(Obj([Field(Lit("status"), Text(Lit("complete"))), Field(Lit("tool"), Text(tool))])))
  }

  function ResultId(active: map<Str, Str>, tool: Str, drawn: nat, uuid: nat -> Str): Str {
    if tool in active then active[tool] else uuid(drawn)
  }

  /** An id is drawn for every result, also when the lookup succeeds. */
  function ResultFrames(active: map<Str, Str>, tools: seq<Str>, drawn: nat, uuid: nat -> Str): seq<Frame> {
    if tools == [] then []
    else [WireFrames.ToolResult(ResultId(active, tools[0], drawn, uuid), StatusText(tools[0]))]
         + ResultFrames(active, tools[1..], drawn + 1, uuid)
  }

  function SqlFrames(sql: seq<Str>): seq<Frame> {
    if sql == [] then [] else [Said(Wrapped(sql[0]))] + SqlFrames(sql[1..])
  }

  function ErrorText(e: Str): Str {
    Lit("Tool error: ") + e + NEWLINE
  }

  function ErrorFrames(errors: seq<Str>): seq<Frame> {
    if errors == [] then [] else [Said(ErrorText(errors[0]))] + ErrorFrames(errors[1..])
  }

  function FollowUpFrames(followUps: seq<Json>): seq<Frame> {
    if followUps == [] then []
    else [Data([Obj([Field(Lit("type"), Text(Lit("follow_up_suggestions"))),
                     Field(Lit("suggestions"), Arr(followUps))])])]
  }

  function Joined(errors: seq<Str>): Str {
    if errors == [] then [] else if |errors| == 1 then errors[0] else errors[0] + Lit("; ") + Joined(errors[1..])
  }

  function StartText(n: Node): Str {
    match n
    case IntentRouter => Lit("Classifying intent...\n")
    case McpToolCaller => Lit("Executing data retrieval...\n")
    case Synthesis => Lit("Generating analysis...\n")
    case ErrorHandler => []
  }

  function StartFrames(n: Node): seq<Frame> {
    if n.ErrorHandler? then [] else [Said(StartText(n))]
  }

  function IntentRouterFrames(st: Tracker, o: Output, uuid: nat -> Str): seq<Frame> {
    if o.intentReasoning.None? then [] else [Said(Header(o))] + PlanFrames(o.plan, st.drawn, uuid)
  }

  function McpToolCallerFrames(st: Tracker, o: Output, uuid: nat -> Str): seq<Frame> {
    ResultFrames(st.active, o.activeTools, st.drawn, uuid) + SqlFrames(o.toolSql) + ErrorFrames(o.errors)
  }

  function SynthesisFrames(st: Tracker, o: Output): seq<Frame> {
    (if ComponentsOf(o) != [] then [Data(ComponentsOf(o))] else [])
    + FollowUpFrames(o.followUps)
    + (if NarrativeOf(o) != [] && !st.streamed then [Narrative(Text(NarrativeOf(o)))] else [])
  }

  function ErrorHandlerFrames(o: Output): seq<Frame> {
    (if NarrativeOf(o) != [] then [Narrative(Text(NarrativeOf(o)))]
     else if o.errors != [] then [Narrative(Text(Lit("I encountered an issue: ") + Joined(o.errors)))]
     else [])
    + FollowUpFrames(o.followUps)
  }

  function EndFrames(st: Tracker, n: Node, o: Output, uuid: nat -> Str): seq<Frame> {
    match n
    case IntentRouter => IntentRouterFrames(st, o, uuid)
    case McpToolCaller => McpToolCallerFrames(st, o, uuid)
    case Synthesis => SynthesisFrames(st, o)
    case ErrorHandler => ErrorHandlerFrames(o)
  }

  function RouterNext(st: Tracker, o: Output, uuid: nat -> Str): Tracker {
    if o.intentReasoning.None? then st
    else st.(active := PlanActive(st.active, o.plan, st.drawn, uuid), drawn := st.drawn + |o.plan|)
  }

  function Frames(st: Tracker, e: Event, uuid: nat -> Str): seq<Frame> {
    match e
    case Start(n) => StartFrames(n)
    case End(n, o) => EndFrames(st, n, o, uuid)
    case Token(None) => []
    case Token(Some(content)) =>
      if st.current.Some? && ReasoningNode(st.current.value) then [Reasoning(content)] else [Narrative(content)]
    case Other => []
  }

  function Next(st: Tracker, e: Event, uuid: nat -> Str): Tracker {
    match e
    case Start(n) =>
      if n.McpToolCaller?
      then st.(current := Some(n), active := st.active[MCP_TOOL_CALLER := uuid(st.drawn)], drawn := st.drawn + 1)
      else st.(current := Some(n))
    case End(IntentRouter, o) => RouterNext(st, o, uuid).(current := None)
    case End(McpToolCaller, o) => st.(current := None, drawn := st.drawn + |o.activeTools|)
    case End(_, _) => st.(current := None)
    case Token(None) => st
    case Token(Some(_)) =>
      if st.current.Some? && ReasoningNode(st.current.value) then st else st.(streamed := true)
    case Other => st
  }

  /** The state after a run of events from a fresh encoder, and all frames it sent. */
  function After(es: seq<Event>, uuid: nat -> Str): Tracker {
    if es == [] then INITIAL else Next(After(es[..|es| - 1], uuid), es[|es| - 1], uuid)
  }

  function Sent(es: seq<Event>, uuid: nat -> Str): seq<Frame> {
    if es == [] then []
    else Sent(es[..|es| - 1], uuid) + Frames(After(es[..|es| - 1], uuid), es[|es| - 1], uuid)
  }

  class DataStreamEncoder {
    const uuid: nat -> Str
    var currentNode: Option<Node>
    var synthesisStreamed: bool
    var activeToolCalls: map<Str, Str>
    var drawn: nat

    function State(): Tracker
      reads this
    {
      Tracker(currentNode, synthesisStreamed, activeToolCalls, drawn)
    }

    constructor (uuid: nat -> Str)
      ensures State() == INITIAL && this.uuid == uuid
    {
      this.uuid := uuid;
      currentNode, synthesisStreamed, activeToolCalls, drawn := None, false, map[], 0;
    }

    method FreshId() returns (id: Str)
      modifies this`drawn
      ensures id == uuid(old(drawn)) && drawn == old(drawn) + 1
    {
      id := uuid(drawn);
      drawn := drawn + 1;
    }

    method EncodeEvent(e: Event) returns (out: string)
      modifies this
      ensures out == EncodeAll(Frames(old(State()), e, uuid))
      ensures State() == Next(old(State()), e, uuid)
    {
      match e
      case Start(n) =>
        out := OnChainStart(n);
      case End(n, o) =>
        match n {
          case IntentRouter => out := OnIntentRouterEnd(o);
          case McpToolCaller => out := OnMcpToolCallerEnd(o);
          case Synthesis => out := OnSynthesisEnd(o);
          case ErrorHandler => out := OnErrorHandlerEnd(o);
        }
        currentNode := None;
      case Token(content) =>
        out := OnChatModelStream(content);
      case Other =>
        out := "";
    }

    method OnChainStart(n: Node) returns (out: string)
      modifies this
      ensures out == EncodeAll(StartFrames(n))
      ensures State() == Next(old(State()), Start(n), uuid)
    {
      currentNode := Some(n);
      if n.McpToolCaller? {
        var id := FreshId();
        activeToolCalls := activeToolCalls[MCP_TOOL_CALLER := id];
      }
      if n.ErrorHandler? {
        return "";
      }
      out := EncodeOne(Said(StartText(n)));
    }

    method OnIntentRouterEnd(o: Output) returns (out: string)
      modifies this`activeToolCalls, this`drawn
      ensures out == EncodeAll(IntentRouterFrames(old(State()), o, uuid))
      ensures State() == RouterNext(old(State()), o, uuid)
    {
      if o.intentReasoning.None? {
        return "";
      }
      var plan := PlanChunks(o.plan);
      out := Encode(Said(Header(o))) + plan;
      EncodeAllCons(Said(Header(o)), PlanFrames(o.plan, old(drawn), uuid));
    }

    method PlanChunks(plan: seq<Step>) returns (out: string)
      modifies this`activeToolCalls, this`drawn
      ensures out == EncodeAll(PlanFrames(plan, old(drawn), uuid))
      ensures activeToolCalls == PlanActive(old(activeToolCalls), plan, old(drawn), uuid)
      ensures drawn == old(drawn) + |plan|
    {
      hide EncodeAll, StepFrames, PlanFrames, PlanActive, ToolName;
      out := "";
      ghost var goal := EncodeAll(PlanFrames(plan, drawn, uuid));
      ghost var active := PlanActive(activeToolCalls, plan, drawn, uuid);
      assert plan[0..] == plan;
      var i := 0;
      while i < |plan|
        invariant i <= |plan| && drawn == old(drawn) + i
        invariant out + EncodeAll(PlanFrames(plan[i..], drawn, uuid)) == goal
        invariant PlanActive(activeToolCalls, plan[i..], drawn, uuid) == active
      {
        var step := plan[i];
        PlanStep(plan, i, activeToolCalls, drawn, uuid);
        ghost var tail := EncodeAll(PlanFrames(plan[i + 1..], drawn + 1, uuid));
        var id := FreshId();
        activeToolCalls := activeToolCalls[ToolName(step) := id];
        var chunk := StepChunks(step, id);
        Assoc(out, chunk, tail);
        out := out + chunk;
        i := i + 1;
      }
      PlanEnd(activeToolCalls, drawn, uuid);
      assert plan[i..] == [] && out + "" == out && plan[0..] == plan;
    }

    method OnMcpToolCallerEnd(o: Output) returns (out: string)
      modifies this`drawn
      ensures out == EncodeAll(McpToolCallerFrames(old(State()), o, uuid))
      ensures drawn == old(drawn) + |o.activeTools|
    {
      ghost var results := ResultFrames(activeToolCalls, o.activeTools, drawn, uuid);
      out := ResultChunks(o.activeTools);
      var sql := SqlChunks(o.toolSql);
      var errors := ErrorChunks(o.errors);
      EncodeAllConcat(results, SqlFrames(o.toolSql));
      EncodeAllConcat(results + SqlFrames(o.toolSql), ErrorFrames(o.errors));
      out := out + sql + errors;
    }

    method ResultChunks(tools: seq<Str>) returns (out: string)
      modifies this`drawn
      ensures out == EncodeAll(ResultFrames(activeToolCalls, tools, old(drawn), uuid))
      ensures drawn == old(drawn) + |tools|
    {
      hide EncodeAll, ResultFrames, StatusText, Encode;
      out := "";
      ghost var goal := EncodeAll(ResultFrames(activeToolCalls, tools, drawn, uuid));
      assert tools[0..] == tools;
      var i := 0;
      while i < |tools|
        invariant i <= |tools| && drawn == old(drawn) + i
        invariant out + EncodeAll(ResultFrames(activeToolCalls, tools[i..], drawn, uuid)) == goal
      {
        var tool := tools[i];
        ResultStep(tools, i, activeToolCalls, drawn, uuid);
        ghost var tail := ResultFrames(activeToolCalls, tools[i + 1..], drawn + 1, uuid);
        var freshId := FreshId();
        var id := if tool in activeToolCalls then activeToolCalls[tool] else freshId;
        var chunk := Encode(WireFrames.ToolResult(id, StatusText(tool)));
        Assoc(out, chunk, EncodeAll(tail));
        out := out + chunk;
        i := i + 1;
      }
      ResultEnd(activeToolCalls, drawn, uuid);
      assert tools[i..] == [] && out + "" == out;
    }

    method OnSynthesisEnd(o: Output) returns (out: string)
      ensures out == EncodeAll(SynthesisFrames(State(), o))
    {
      ghost var done := [];
      out := "";
      if ComponentsOf(o) != [] {
        out := Append(out, done, [Data(ComponentsOf(o))]);
        done := done + [Data(ComponentsOf(o))];
      }
      out := Append(out, done, FollowUpFrames(o.followUps));
      done := done + FollowUpFrames(o.followUps);
      if NarrativeOf(o) != [] && !synthesisStreamed {
        out := Append(out, done, [Narrative(Text(NarrativeOf(o)))]);
        done := done + [Narrative(Text(NarrativeOf(o)))];
      }
      assert done == SynthesisFrames(State(), o);
    }

    method OnErrorHandlerEnd(o: Output) returns (out: string)
      ensures out == EncodeAll(ErrorHandlerFrames(o))
    {
      ghost var done := [];
      out := "";
      if NarrativeOf(o) != [] {
        out := EncodeOne(Narrative(Text(NarrativeOf(o))));
        done := [Narrative(Text(NarrativeOf(o)))];
      } else if o.errors != [] {
        var text := Lit("I encountered an issue: ") + Joined(o.errors);
        out := EncodeOne(Narrative(Text(text)));
        done := [Narrative(Text(text))];
      }
      out := Append(out, done, FollowUpFrames(o.followUps));
      assert done + FollowUpFrames(o.followUps) == ErrorHandlerFrames(o);
    }

    method OnChatModelStream(content: Option<Json>) returns (out: string)
      modifies this`synthesisStreamed
      ensures out == EncodeAll(Frames(old(State()), Token(content), uuid))
      ensures State() == Next(old(State()), Token(content), uuid)
    {
      if content.None? {
        return "";
      }
      if currentNode.Some? && ReasoningNode(currentNode.value) {
        out := EncodeOne(Reasoning(content.value));
        return;
      }
      synthesisStreamed := true;
      out := EncodeOne(Narrative(content.value));
    }
  }

  lemma EncodeAllCons(f: Frame, fs: seq<Frame>)
    ensures EncodeAll([f] + fs) == Encode(f) + EncodeAll(fs)
  {
    assert ([f] + fs)[1..] == fs;
  }

  lemma PlanEnd(active: map<Str, Str>, drawn: nat, uuid: nat -> Str)
    ensures EncodeAll(PlanFrames([], drawn, uuid)) == "" && PlanActive(active, [], drawn, uuid) == active
  {
  }

  lemma PlanStep(plan: seq<Step>, i: nat, active: map<Str, Str>, drawn: nat, uuid: nat -> Str)
    requires i < |plan|
    ensures EncodeAll(PlanFrames(plan[i..], drawn, uuid)) ==
              EncodeAll(StepFrames(plan[i], uuid(drawn))) + EncodeAll(PlanFrames(plan[i + 1..], drawn + 1, uuid))
    ensures PlanActive(active, plan[i..], drawn, uuid) ==
              PlanActive(active[ToolName(plan[i]) := uuid(drawn)], plan[i + 1..], drawn + 1, uuid)
  {
    assert plan[i..][0] == plan[i] && plan[i..][1..] == plan[i + 1..];
    EncodeAllConcat(StepFrames(plan[i], uuid(drawn)), PlanFrames(plan[i + 1..], drawn + 1, uuid));
  }

  lemma ResultEnd(active: map<Str, Str>, drawn: nat, uuid: nat -> Str)
    ensures EncodeAll(ResultFrames(active, [], drawn, uuid)) == ""
  {
  }

  lemma ResultStep(tools: seq<Str>, i: nat, active: map<Str, Str>, drawn: nat, uuid: nat -> Str)
    requires i < |tools|
    ensures EncodeAll(ResultFrames(active, tools[i..], drawn, uuid)) ==
              Encode(WireFrames.ToolResult(ResultId(active, tools[i], drawn, uuid), StatusText(tools[i])))
              + EncodeAll(ResultFrames(active, tools[i + 1..], drawn + 1, uuid))
  {
    hide StatusText, Encode;
    assert tools[i..][0] == tools[i] && tools[i..][1..] == tools[i + 1..];
    EncodeAllCons(WireFrames.ToolResult(ResultId(active, tools[i], drawn, uuid), StatusText(tools[i])),
                  ResultFrames(active, tools[i + 1..], drawn + 1, uuid));
  }

  method StepChunks(step: Step, id: Str) returns (out: string)
    ensures out == EncodeAll(StepFrames(step, id))
  {
    var begin := BeginFrame(step, id);
    out := Encode(begin);
    if ToolName(step) == EXECUTE_READ_QUERY {
      if step.query != [] {
        out := out + Encode(Said(Wrapped(step.query)));
      }
    }
    EncodeAllCons(begin, []);
    EncodeAllCons(Said(Wrapped(step.query)), []);
    EncodeAllCons(begin, [Said(Wrapped(step.query))]);
  }

  method SqlChunks(sql: seq<Str>) returns (out: string)
    ensures out == EncodeAll(SqlFrames(sql))
  {
    out := "";
    var i := 0;
    while i < |sql|
      invariant i <= |sql|
      invariant out + EncodeAll(SqlFrames(sql[i..])) == EncodeAll(SqlFrames(sql))
    {
      var chunk := Encode(Said(Wrapped(sql[i])));
      assert sql[i..][0] == sql[i] && sql[i..][1..] == sql[i + 1..];
      EncodeAllCons(Said(Wrapped(sql[i])), SqlFrames(sql[i + 1..]));
      Assoc(out, chunk, EncodeAll(SqlFrames(sql[i + 1..])));
      out := out + chunk;
      i := i + 1;
    }
    assert sql[i..] == [] && out + "" == out;
  }

  method ErrorChunks(errors: seq<Str>) returns (out: string)
    ensures out == EncodeAll(ErrorFrames(errors))
  {
    out := "";
    var i := 0;
    while i < |errors|
      invariant i <= |errors|
      invariant out + EncodeAll(ErrorFrames(errors[i..])) == EncodeAll(ErrorFrames(errors))
    {
      var chunk := Encode(Said(ErrorText(errors[i])));
      assert errors[i..][0] == errors[i] && errors[i..][1..] == errors[i + 1..];
      EncodeAllCons(Said(ErrorText(errors[i])), ErrorFrames(errors[i + 1..]));
      Assoc(out, chunk, EncodeAll(ErrorFrames(errors[i + 1..])));
      out := out + chunk;
      i := i + 1;
    }
    assert errors[i..] == [] && out + "" == out;
  }

  method EncodeOne(f: Frame) returns (out: string)
    ensures out == EncodeAll([f])
  {
    out := Encode(f);
    assert [f][1..] == [];
    assert out == out + "";
  }

  method Append(out: string, ghost done: seq<Frame>, more: seq<Frame>) returns (joined: string)
    requires out == EncodeAll(done)
    ensures joined == EncodeAll(done + more)
  {
    EncodeAllConcat(done, more);
    joined := out + EncodeAll(more);
  }
}
