/** What the frames of a run carry, kind by kind and in order, told by the events of the run alone. */
module StreamContents {
  import opened Common
  import opened Unicode
  import opened Json
  import opened WireFrames
  import opened StreamEncoding
  import opened StreamProperties
  import Decimal

  // ----- Charts and follow-ups -----

  /** The payloads of the data frames. */
  function DataSent(fs: seq<Frame>): seq<seq<Json>> {
    if fs == [] then [] else if fs[0].Data? then [fs[0].payload] + DataSent(fs[1..]) else DataSent(fs[1..])
  }

  lemma {:induction false} DataConcat(a: seq<Frame>, b: seq<Frame>)
    ensures DataSent(a + b) == DataSent(a) + DataSent(b)
  {
    if a == [] {
      assert a + b == b;
    } else {
      assert (a + b)[1..] == a[1..] + b;
      DataConcat(a[1..], b);
    }
  }

  function FollowUpObject(followUps: seq<Json>): Json {
    Obj([Field(Lit("type"), Text(Lit("follow_up_suggestions"))), Field(Lit("suggestions"), Arr(followUps))])
  }

  /** The end of synthesis gives its components, if there are any, and then its follow-ups; the end of the error handler
      gives its follow-ups; no other event gives data. */
  function DataOf(e: Event): seq<seq<Json>> {
    if !e.End? || e.node.IntentRouter? || e.node.McpToolCaller? then []
    else
      var followUps := if |e.output.followUps| > 0 then [[FollowUpObject(e.output.followUps)]] else [];
      if e.node.Synthesis? && e.output.components.Some? && |e.output.components.value| > 0
      then [e.output.components.value] + followUps
      else followUps
  }

  function AllData(es: seq<Event>): seq<seq<Json>> {
    if es == [] then [] else AllData(es[..|es| - 1]) + DataOf(es[|es| - 1])
  }

  lemma {:induction false} NoData(fs: seq<Frame>)
    requires forall f | f in fs :: !f.Data?
    ensures DataSent(fs) == []
  {
    if fs != [] {
      assert fs[0] in fs && forall f | f in fs[1..] :: f in fs;
      NoData(fs[1..]);
    }
  }

  lemma {:induction false} PlanHasNoData(plan: seq<Step>, drawn: nat, uuid: nat -> Str)
    ensures forall f | f in PlanFrames(plan, drawn, uuid) :: f.ToolCallBegin? || f.Reasoning?
    decreases plan
  {
    hide Lit, Wrapped;
    if plan != [] {
      PlanHasNoData(plan[1..], drawn + 1, uuid);
    }
  }

  lemma {:induction false} ToolsHaveNoData(active: map<Str, Str>, tools: seq<Str>, drawn: nat, uuid: nat -> Str)
    ensures forall f | f in ResultFrames(active, tools, drawn, uuid) :: f.ToolResult?
  {
    hide StatusText;
    if tools != [] {
      ToolsHaveNoData(active, tools[1..], drawn + 1, uuid);
    }
  }

  lemma {:induction false} TextsHaveNoData(sql: seq<Str>, errors: seq<Str>)
    ensures forall f | f in SqlFrames(sql) :: f.Reasoning?
    ensures forall f | f in ErrorFrames(errors) :: f.Reasoning?
  {
    hide Wrapped, ErrorText;
    if sql != [] {
      TextsHaveNoData(sql[1..], errors);
    } else if errors != [] {
      TextsHaveNoData(sql, errors[1..]);
    }
  }

  lemma {:induction false} FollowUpData(followUps: seq<Json>)
    ensures DataSent(FollowUpFrames(followUps)) == if |followUps| > 0 then [[FollowUpObject(followUps)]] else []
    ensures forall f | f in FollowUpFrames(followUps) :: f.Data?
    ensures |FollowUpFrames(followUps)| <= 1
  {
    hide Lit;
    var fs := FollowUpFrames(followUps);
    if fs != [] {
      assert DataSent(fs) == [fs[0].payload] + DataSent(fs[1..]);
    }
  }

  lemma {:induction false} SynthesisData(st: Tracker, o: Output)
    ensures DataSent(SynthesisFrames(st, o)) == DataOf(End(Synthesis, o))
  {
    hide Lit, FollowUpFrames, FollowUpObject;
    var components := if ComponentsOf(o) != [] then [Data(ComponentsOf(o))] else [];
    var narrative := if NarrativeOf(o) != [] && !st.streamed then [Narrative(Text(NarrativeOf(o)))] else [];
    FollowUpData(o.followUps);
    DataConcat(components + FollowUpFrames(o.followUps), narrative);
    DataConcat(components, FollowUpFrames(o.followUps));
    NoData(narrative);
    if components != [] {
      assert DataSent(components) == [ComponentsOf(o)] + DataSent(components[1..]);
    }
  }

  lemma {:induction false} HandlerData(o: Output)
    ensures DataSent(ErrorHandlerFrames(o)) == DataOf(End(ErrorHandler, o))
  {
    hide Lit, FollowUpFrames, FollowUpObject, Joined;
    FollowUpData(o.followUps);
    var all := ErrorHandlerFrames(o);
    var n := |all| - |FollowUpFrames(o.followUps)|;
    assert all == all[..n] + FollowUpFrames(o.followUps);
    DataConcat(all[..n], FollowUpFrames(o.followUps));
    NoData(all[..n]);
  }

  lemma {:induction false} EventDataSent(st: Tracker, e: Event, uuid: nat -> Str)
    ensures DataSent(Frames(st, e, uuid)) == DataOf(e)
  {
    hide Lit, Header, StartText, SynthesisFrames, ErrorHandlerFrames;
    var fs := Frames(st, e, uuid);
    match e
    case End(IntentRouter, o) =>
      PlanHasNoData(o.plan, st.drawn, uuid);
      NoData(fs);
    case End(McpToolCaller, o) =>
      ToolsHaveNoData(st.active, o.activeTools, st.drawn, uuid);
      TextsHaveNoData(o.toolSql, o.errors);
      NoData(fs);
    case End(Synthesis, o) => SynthesisData(st, o);
    case End(ErrorHandler, o) => HandlerData(o);
    case _ => NoData(fs);
  }

  /** Over every run the data frames are, in event order, the charts and follow-ups of the events: none is lost, added,
      repeated or moved. */
  lemma {:induction false} DataInOrder(es: seq<Event>, uuid: nat -> Str)
    ensures DataSent(Sent(es, uuid)) == AllData(es)
  {
    hide Frames, DataOf;
    if es != [] {
      var before, e := es[..|es| - 1], es[|es| - 1];
      DataInOrder(before, uuid);
      EventDataSent(After(before, uuid), e, uuid);
      DataConcat(Sent(before, uuid), Frames(After(before, uuid), e, uuid));
    }
  }

  // ----- Narrative text -----

  function Told(fs: seq<Frame>): seq<Json> {
    if fs == [] then [] else if fs[0].Narrative? then [fs[0].token] + Told(fs[1..]) else Told(fs[1..])
  }

  lemma {:induction false} ToldConcat(a: seq<Frame>, b: seq<Frame>)
    ensures Told(a + b) == Told(a) + Told(b)
  {
    if a == [] {
      assert a + b == b;
    } else {
      assert (a + b)[1..] == a[1..] + b;
      ToldConcat(a[1..], b);
    }
  }

  lemma {:induction false} ToldNothing(fs: seq<Frame>)
    requires forall f | f in fs :: !f.Narrative?
    ensures Told(fs) == []
  {
    if fs != [] {
      assert fs[0] in fs && forall f | f in fs[1..] :: f in fs;
      ToldNothing(fs[1..]);
    }
  }

  /** A token outside the reasoning nodes tells itself; the end of synthesis tells its narrative unless a token was told
      before; the end of the error handler tells its narrative or, without one, its errors. */
  ghost function TellsOf(before: seq<Event>, e: Event): seq<Json> {
    match e
    case Token(Some(content)) => if InReasoning(before) then [] else [content]
    case End(Synthesis, o) =>
      if o.narrative.Some? && |o.narrative.value| > 0 && !TokenSentAsText(before) then [Text(o.narrative.value)] else []
    case End(ErrorHandler, o) =>
      if o.narrative.Some? && |o.narrative.value| > 0 then [Text(o.narrative.value)]
      else if |o.errors| > 0 then [Text(Lit("I encountered an issue: ") + Joined(o.errors))]
      else []
    case _ => []
  }

  ghost function AllTold(es: seq<Event>): seq<Json> {
    if es == [] then [] else AllTold(es[..|es| - 1]) + TellsOf(es[..|es| - 1], es[|es| - 1])
  }

  lemma {:induction false} SynthesisTells(es: seq<Event>, o: Output, uuid: nat -> Str)
    ensures Told(SynthesisFrames(After(es, uuid), o)) == TellsOf(es, End(Synthesis, o))
  {
    hide After, TokenSentAsText, Lit, FollowUpFrames;
    StreamedMeaning(es, uuid);
    var st := After(es, uuid);
    var components := if ComponentsOf(o) != [] then [Data(ComponentsOf(o))] else [];
    var narrative := if NarrativeOf(o) != [] && !st.streamed then [Narrative(Text(NarrativeOf(o)))] else [];
    FollowUpData(o.followUps);
    ToldConcat(components + FollowUpFrames(o.followUps), narrative);
    ToldNothing(components + FollowUpFrames(o.followUps));
    if narrative != [] {
      assert Told(narrative) == [Text(NarrativeOf(o))] + Told(narrative[1..]);
    }
  }

  lemma {:induction false} HandlerTells(es: seq<Event>, o: Output)
    ensures Told(ErrorHandlerFrames(o)) == TellsOf(es, End(ErrorHandler, o))
  {
    hide Lit, FollowUpFrames, Joined;
    FollowUpData(o.followUps);
    var all := ErrorHandlerFrames(o);
    var n := |all| - |FollowUpFrames(o.followUps)|;
    assert all == all[..n] + FollowUpFrames(o.followUps);
    ToldConcat(all[..n], FollowUpFrames(o.followUps));
    ToldNothing(FollowUpFrames(o.followUps));
    if n > 0 {
      assert Told(all[..n]) == [all[0].token] + Told(all[..n][1..]);
    }
  }

  lemma {:induction false} EventTells(es: seq<Event>, e: Event, uuid: nat -> Str)
    ensures Told(Frames(After(es, uuid), e, uuid)) == TellsOf(es, e)
  {
    hide Lit, Header, StartText, SynthesisFrames, ErrorHandlerFrames, After, InReasoning, TokenSentAsText, Joined;
    var st := After(es, uuid);
    var fs := Frames(st, e, uuid);
    match e
    case End(IntentRouter, o) =>
      PlanHasNoData(o.plan, st.drawn, uuid);
      ToldNothing(fs);
    case End(McpToolCaller, o) =>
      ToolsHaveNoData(st.active, o.activeTools, st.drawn, uuid);
      TextsHaveNoData(o.toolSql, o.errors);
      ToldNothing(fs);
    case End(Synthesis, o) => SynthesisTells(es, o, uuid);
    case End(ErrorHandler, o) => HandlerTells(es, o);
    case Token(Some(content)) =>
      TokenRouting(es, content, uuid);
      assert |fs| == 1 && Told(fs) == (if fs[0].Narrative? then [fs[0].token] else []) + Told(fs[1..]);
    case _ => ToldNothing(fs);
  }

  /** Over every run the narrative frames are, in event order, what the events tell. */
  lemma {:induction false} NarrativeInOrder(es: seq<Event>, uuid: nat -> Str)
    ensures Told(Sent(es, uuid)) == AllTold(es)
  {
    hide Frames, TellsOf;
    if es != [] {
      var before, e := es[..|es| - 1], es[|es| - 1];
      NarrativeInOrder(before, uuid);
      EventTells(before, e, uuid);
      ToldConcat(Sent(before, uuid), Frames(After(before, uuid), e, uuid));
    }
  }

  /** Errors are joined with a semicolon and a space. */
  lemma {:induction false} JoinedMeaning(xs: seq<Str>, ys: seq<Str>)
    requires xs != [] && ys != []
    ensures Joined(xs + ys) == Joined(xs) + Lit("; ") + Joined(ys)
    ensures |xs| == 1 ==> Joined(xs) == xs[0]
  {
    if |xs| == 1 {
      assert (xs + ys)[1..] == ys;
    } else {
      assert (xs + ys)[1..] == xs[1..] + ys;
      JoinedMeaning(xs[1..], ys);
      JoinAssoc(xs[0], Lit("; "), Joined(xs[1..]), Joined(ys));
    }
  }

  lemma JoinAssoc(a: Str, sep: Str, b: Str, c: Str)
    ensures a + sep + (b + sep + c) == (a + sep + b) + sep + c
  {
  }

  // ----- Tool calls -----

  /** The ids and names of the begin frames. */
  function Begun(fs: seq<Frame>): seq<(Str, Str)> {
    if fs == [] then []
    else if fs[0].ToolCallBegin? then [(fs[0].id, fs[0].name)] + Begun(fs[1..])
    else Begun(fs[1..])
  }

  lemma {:induction false} BegunConcat(a: seq<Frame>, b: seq<Frame>)
    ensures Begun(a + b) == Begun(a) + Begun(b)
  {
    if a == [] {
      assert a + b == b;
    } else {
      assert (a + b)[1..] == a[1..] + b;
      BegunConcat(a[1..], b);
    }
  }

  /** `server/tool`, each "unknown" if absent. */
  function CallName(step: Step): Str {
    (match step.server case Some(s) => s case None => Lit("unknown"))
    + Lit("/")
    + (match step.tool case Some(t) => t case None => Lit("unknown"))
  }

  /** The end of the intent router announces one call for each step of its plan, in order, each under an id of its
      own. */
  lemma {:induction false} PlanBegun(plan: seq<Step>, drawn: nat, uuid: nat -> Str)
    ensures Begun(PlanFrames(plan, drawn, uuid))
         == seq(|plan|, i requires 0 <= i < |plan| => (uuid(drawn + i), CallName(plan[i])))
    decreases plan
  {
    hide Lit, StepFrames, CallName;
    if plan != [] {
      var rest := PlanFrames(plan[1..], drawn + 1, uuid);
      PlanBegun(plan[1..], drawn + 1, uuid);
      StepBegun(plan[0], uuid(drawn));
      BegunConcat(StepFrames(plan[0], uuid(drawn)), rest);
    }
  }

  lemma StepBegun(step: Step, id: Str)
    ensures Begun(StepFrames(step, id)) == [(id, CallName(step))]
  {
    hide Lit, Wrapped;
    var fs := StepFrames(step, id);
    assert Begun(fs) == [(id, CallName(step))] + Begun(fs[1..]);
    if |fs| == 2 {
      assert Begun(fs[1..]) == Begun(fs[1..][1..]);
    }
  }

  /** The SQL of a query step follows its begin frame at once. */
  lemma {:induction false} SqlFollows(plan: seq<Step>, drawn: nat, uuid: nat -> Str, i: nat)
    requires i < |plan| && plan[i].tool == Some(Lit("execute_read_query")) && |plan[i].query| > 0
    ensures Adjacent(PlanFrames(plan, drawn, uuid), ToolCallBegin(uuid(drawn + i), CallName(plan[i])),
                     SqlFrame(plan[i].query))
    decreases i
  {
    hide Lit, CallName, StepFrames;
    var first, rest := StepFrames(plan[0], uuid(drawn)), PlanFrames(plan[1..], drawn + 1, uuid);
    if i == 0 {
      StepSql(plan[0], uuid(drawn));
      AdjacentIn([], first, rest, first[0], first[1]);
      assert [] + first + rest == first + rest;
    } else {
      SqlFollows(plan[1..], drawn + 1, uuid, i - 1);
      AdjacentIn(first, rest, [], ToolCallBegin(uuid(drawn + i), CallName(plan[i])), SqlFrame(plan[i].query));
      assert first + rest + [] == first + rest;
    }
  }

  function SqlFrame(query: Str): Frame {
    Reasoning(Text(Lit("__SQL_QUERY__:") + query + Lit(":__END_SQL__\n")))
  }

  ghost predicate Adjacent(fs: seq<Frame>, f: Frame, g: Frame) {
    exists p | 0 <= p < |fs| - 1 :: fs[p] == f && fs[p + 1] == g
  }

  lemma AdjacentIn(a: seq<Frame>, b: seq<Frame>, c: seq<Frame>, f: Frame, g: Frame)
    requires Adjacent(b, f, g)
    ensures Adjacent(a + b + c, f, g)
  {
    var p :| 0 <= p < |b| - 1 && b[p] == f && b[p + 1] == g;
    var all, q := a + b + c, |a| + p;
    assert all[q] == f && all[q + 1] == g;
  }

  lemma StepSql(step: Step, id: Str)
    requires step.tool == Some(Lit("execute_read_query")) && |step.query| > 0
    ensures StepFrames(step, id) == [ToolCallBegin(id, CallName(step)), SqlFrame(step.query)]
    ensures Adjacent(StepFrames(step, id), ToolCallBegin(id, CallName(step)), SqlFrame(step.query))
  {
    hide Lit;
    var fs := StepFrames(step, id);
    assert fs[0] == ToolCallBegin(id, CallName(step)) && fs[1] == SqlFrame(step.query);
  }

  /** The status of a result reads back as complete, with the name of the tool. */
  lemma {:induction false} StatusReads(tool: Str)
    requires Clean(tool)
    ensures exists s ::
              && StatusText(tool) == Lit(s)
              && Loads(s) == Some(Obj([Field(Lit("status"), Text(Lit("complete"))), Field(Lit("tool"), Text(tool))]))
  {
    hide Print, Loads;
    LitClean("status");
    LitClean("complete");
    LitClean("tool");
    var fields := [Field(Lit("status"), Text(Lit("complete"))), Field(Lit("tool"), Text(tool))];
    hide Lit;
    assert Valid(Text(Lit("complete"))) && Valid(Text(tool)) && AllClean(Text(Lit("complete"))) && AllClean(Text(tool));
    assert Valid(Obj(fields)) && AllClean(Obj(fields));
    LoadsDumps(Obj(fields));
  }

  lemma LitClean(s: string)
    requires forall i | 0 <= i < |s| :: s[i] < 128 as char
    ensures Clean(Lit(s))
  {
  }

  // ----- Order within one event -----

  /** The narrative comes after the data of a synthesis end and before that of an error-handler end; the header comes
      first at a router end, and results come before words at a tool-caller end. */
  lemma {:induction false} OrderWithin(st: Tracker, o: Output, uuid: nat -> Str)
    ensures forall i | 0 <= i < |SynthesisFrames(st, o)| - 1 :: !SynthesisFrames(st, o)[i].Narrative?
    ensures forall i | 0 < i < |ErrorHandlerFrames(o)| :: !ErrorHandlerFrames(o)[i].Narrative?
    ensures o.intentReasoning.Some? ==>
              |IntentRouterFrames(st, o, uuid)| > 0 && IntentRouterFrames(st, o, uuid)[0] == Reasoning(Text(Header(o)))
    ensures forall i | 0 <= i < |McpToolCallerFrames(st, o, uuid)| ::
              McpToolCallerFrames(st, o, uuid)[i].ToolResult? <==> i < |o.activeTools|
  {
    hide Lit, Header, Joined;
    ToolsHaveNoData(st.active, o.activeTools, st.drawn, uuid);
    TextsHaveNoData(o.toolSql, o.errors);
    FollowUpData(o.followUps);
    ResultCount(st.active, o.activeTools, st.drawn, uuid);
    var results, all := ResultFrames(st.active, o.activeTools, st.drawn, uuid), McpToolCallerFrames(st, o, uuid);
    var words := SqlFrames(o.toolSql) + ErrorFrames(o.errors);
    assert all == results + words;
    forall i | 0 <= i < |all| ensures all[i].ToolResult? <==> i < |o.activeTools| {
      if i < |results| {
        assert all[i] == results[i] && results[i] in results;
      } else {
        assert all[i] == words[i - |results|] && words[i - |results|] in words;
      }
    }
  }

  lemma {:induction false} ResultCount(active: map<Str, Str>, tools: seq<Str>, drawn: nat, uuid: nat -> Str)
    ensures |ResultFrames(active, tools, drawn, uuid)| == |tools|
  {
    if tools != [] {
      ResultCount(active, tools[1..], drawn + 1, uuid);
    }
  }

  /** The header names the intent and the reasoning and ends with the number of steps. */
  lemma HeaderMeaning(o: Output)
    requires o.intentReasoning.Some?
    ensures var intent := match o.intent case Some(i) => i case None => Lit("unknown");
            && Lit("Intent: ") + intent + Lit(" | ") + o.intentReasoning.value <= Header(o)
            && exists front ::
                 Header(o) == front + (Lit(" | Plan: ") + Lit(Decimal.Decimal(|o.plan|)) + Lit(" steps\n"))
  {
    hide Lit;
    var intent := match o.intent case Some(i) => i case None => Lit("unknown");
    var front := Lit("Intent: ") + intent + Lit(" | ") + o.intentReasoning.value;
    assert Header(o) == front + (Lit(" | Plan: ") + Lit(Decimal.Decimal(|o.plan|)) + Lit(" steps\n"));
  }

  /** The fixed wordings of the reasoning. */
  lemma Wordings(e: Str)
    ensures ErrorText(e) == Lit("Tool error: ") + e + Lit("\n")
    ensures StartFrames(IntentRouter) == [Reasoning(Text(Lit("Classifying intent...\n")))]
    ensures StartFrames(McpToolCaller) == [Reasoning(Text(Lit("Executing data retrieval...\n")))]
    ensures StartFrames(Synthesis) == [Reasoning(Text(Lit("Generating analysis...\n")))]
    ensures StartFrames(ErrorHandler) == []
  {
    hide Lit;
  }

  // ----- Ids -----

  /** The id was drawn from `from` on and before `to`. */
  ghost predicate Drawn(id: Str, from: nat, to: nat, uuid: nat -> Str) {
    exists d | from <= d < to :: uuid(d) == id
  }

  lemma NoBegun(fs: seq<Frame>)
    requires forall f | f in fs :: !f.ToolCallBegin?
    ensures Begun(fs) == []
  {
  }

  /** Ids drawn in this stretch, all different. */
  ghost predicate Fresh(begun: seq<(Str, Str)>, from: nat, to: nat, uuid: nat -> Str) {
    && (forall i | 0 <= i < |begun| :: Drawn(begun[i].0, from, to, uuid))
    && forall i, j | 0 <= i < j < |begun| :: begun[i].0 != begun[j].0
  }

  lemma FreshAppend(a: seq<(Str, Str)>, b: seq<(Str, Str)>, from: nat, mid: nat, to: nat, uuid: nat -> Str)
    requires Injective(uuid) && from <= mid <= to && Fresh(a, from, mid, uuid) && Fresh(b, mid, to, uuid)
    ensures Fresh(a + b, from, to, uuid)
  {
    var all := a + b;
    forall i | 0 <= i < |all| ensures Drawn(all[i].0, from, to, uuid) {
      if i < |a| {
        DrawnWider(a[i].0, from, mid, from, to, uuid);
      } else {
        DrawnWider(b[i - |a|].0, mid, to, from, to, uuid);
      }
    }
    forall i, j | 0 <= i < j < |all| ensures all[i].0 != all[j].0 {
      if i < |a| <= j {
        DrawnApart(a[i].0, b[j - |a|].0, from, mid, to, uuid);
      }
    }
  }

  lemma DrawnWider(id: Str, from: nat, to: nat, lower: nat, upper: nat, uuid: nat -> Str)
    requires Drawn(id, from, to, uuid) && lower <= from && to <= upper
    ensures Drawn(id, lower, upper, uuid)
  {
  }

  lemma DrawnApart(id: Str, other: Str, from: nat, mid: nat, to: nat, uuid: nat -> Str)
    requires Injective(uuid) && Drawn(id, from, mid, uuid) && Drawn(other, mid, to, uuid)
    ensures id != other
  {
    var c :| from <= c < mid && uuid(c) == id;
    var d :| mid <= d < to && uuid(d) == other;
    assert c != d;
  }

  lemma PlanFresh(plan: seq<Step>, drawn: nat, uuid: nat -> Str)
    requires Injective(uuid)
    ensures Fresh(Begun(PlanFrames(plan, drawn, uuid)), drawn, drawn + |plan|, uuid)
  {
    hide CallName, PlanFrames;
    PlanBegun(plan, drawn, uuid);
    var begun := Begun(PlanFrames(plan, drawn, uuid));
    forall i | 0 <= i < |begun| ensures Drawn(begun[i].0, drawn, drawn + |plan|, uuid) {
      assert begun[i].0 == uuid(drawn + i);
    }
  }

  lemma {:induction false} OthersBeginNothing(st: Tracker, e: Event, uuid: nat -> Str)
    requires !(e.End? && e.node.IntentRouter?)
    ensures Begun(Frames(st, e, uuid)) == []
  {
    hide Lit, StartText, Joined, FollowUpFrames, ResultFrames, SqlFrames, ErrorFrames;
    if e.End? {
      ToolsHaveNoData(st.active, e.output.activeTools, st.drawn, uuid);
      TextsHaveNoData(e.output.toolSql, e.output.errors);
      FollowUpData(e.output.followUps);
    }
    NoBegun(Frames(st, e, uuid));
  }

  /** What one event announces is drawn at this event. */
  lemma {:induction false} EventFresh(st: Tracker, e: Event, uuid: nat -> Str)
    requires Injective(uuid)
    ensures st.drawn <= Next(st, e, uuid).drawn
    ensures Fresh(Begun(Frames(st, e, uuid)), st.drawn, Next(st, e, uuid).drawn, uuid)
  {
    hide Lit, Header, PlanFrames, Fresh, PlanActive;
    NothingFresh(st.drawn, Next(st, e, uuid).drawn, uuid);
    if e.End? && e.node.IntentRouter? {
      if e.output.intentReasoning.Some? {
        PlanFresh(e.output.plan, st.drawn, uuid);
        BegunConcat([Said(Header(e.output))], PlanFrames(e.output.plan, st.drawn, uuid));
        NoBegun([Said(Header(e.output))]);
        var begun := Begun(PlanFrames(e.output.plan, st.drawn, uuid));
        assert [] + begun == begun;
      }
    } else {
      OthersBeginNothing(st, e, uuid);
    }
  }

  lemma NothingFresh(from: nat, to: nat, uuid: nat -> Str)
    ensures Fresh([], from, to, uuid)
  {
  }

  /** In every run all announced ids are drawn so far and differ: no two calls, of one plan or of different plans, share
      an id. */
  lemma {:induction false} IdsDiffer(es: seq<Event>, uuid: nat -> Str)
    requires Injective(uuid)
    ensures Fresh(Begun(Sent(es, uuid)), 0, After(es, uuid).drawn, uuid)
  {
    hide Frames, Next, Fresh;
    if es == [] {
      NothingFresh(0, 0, uuid);
    } else {
      var before, e := es[..|es| - 1], es[|es| - 1];
      var st := After(before, uuid);
      IdsDiffer(before, uuid);
      EventFresh(st, e, uuid);
      BegunConcat(Sent(before, uuid), Frames(st, e, uuid));
      FreshAppend(Begun(Sent(before, uuid)), Begun(Frames(st, e, uuid)), 0, st.drawn, Next(st, e, uuid).drawn, uuid);
    }
  }
}
