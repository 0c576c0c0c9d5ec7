/** What the encoder guarantees over every sequence of graph events. */
module StreamProperties {
  import opened Common
  import opened Unicode
  import opened Json
  import opened WireFrames
  import opened StreamEncoding

  // ----- Routing of model tokens -----

  /** The last start of a node is that of `n`, and no node has ended since. */
  ghost predicate InNode(es: seq<Event>, n: Node) {
    exists i | 0 <= i < |es| :: es[i] == Start(n) && Quiet(es, i + 1)
  }

  ghost predicate Quiet(es: seq<Event>, from: nat) {
    forall j | from <= j < |es| :: !es[j].Start? && !es[j].End?
  }

  ghost predicate InReasoning(es: seq<Event>) {
    exists n :: InNode(es, n) && ReasoningNode(n)
  }

  lemma {:induction false} CurrentMeaning(es: seq<Event>, uuid: nat -> Str, n: Node)
    ensures After(es, uuid).current == Some(n) <==> InNode(es, n)
  {
    if es != [] {
      var before, e := es[..|es| - 1], es[|es| - 1];
      CurrentMeaning(before, uuid, n);
      if e.Start? {
        assert Quiet(es, |es|);
      } else if !e.End? {
        if i :| 0 <= i < |before| && before[i] == Start(n) && Quiet(before, i + 1) {
          assert es[i] == Start(n) && Quiet(es, i + 1);
        }
        if i :| 0 <= i < |es| && es[i] == Start(n) && Quiet(es, i + 1) {
          assert before[i] == Start(n) && Quiet(before, i + 1);
        }
      }
    }
  }

  /** A model token is sent as reasoning exactly when the last node start with no later node end was that of
      a reasoning node, and as narrative text otherwise. */
  lemma {:induction false} TokenRouting(es: seq<Event>, content: Json, uuid: nat -> Str)
    ensures Frames(After(es, uuid), Token(Some(content)), uuid) ==
              if InReasoning(es) then [Reasoning(content)] else [Narrative(content)]
  {
    var current := After(es, uuid).current;
    forall n: Node ensures current == Some(n) <==> InNode(es, n) {
      CurrentMeaning(es, uuid, n);
    }
  }

  /** Some token has been sent as narrative text. */
  ghost predicate TokenSentAsText(es: seq<Event>) {
    exists i | 0 <= i < |es| :: es[i].Token? && es[i].content.Some? && !InReasoning(es[..i])
  }

  lemma {:induction false} StreamedMeaning(es: seq<Event>, uuid: nat -> Str)
    ensures After(es, uuid).streamed <==> TokenSentAsText(es)
  {
    if es != [] {
      var before, e := es[..|es| - 1], es[|es| - 1];
      StreamedMeaning(before, uuid);
      forall n: Node ensures After(before, uuid).current == Some(n) <==> InNode(before, n) {
        CurrentMeaning(before, uuid, n);
      }
      if i :| 0 <= i < |before| && before[i].Token? && before[i].content.Some? && !InReasoning(before[..i]) {
        assert es[i] == before[i] && es[..i] == before[..i];
      }
      if i :| 0 <= i < |es| && es[i].Token? && es[i].content.Some? && !InReasoning(es[..i]) {
        if i < |before| { assert es[i] == before[i] && es[..i] == before[..i]; }
      }
    }
  }

  function Narratives(fs: seq<Frame>): seq<Frame> {
    if fs == [] then []
    else if fs[0].Narrative? then [fs[0]] + Narratives(fs[1..])
    else Narratives(fs[1..])
  }

  lemma {:induction false} NarrativesConcat(a: seq<Frame>, b: seq<Frame>)
    ensures Narratives(a + b) == Narratives(a) + Narratives(b)
  {
    if a == [] {
      assert a + b == b;
    } else {
      assert (a + b)[1..] == a[1..] + b;
      NarrativesConcat(a[1..], b);
    }
  }

  /** The end of the synthesis node sends its narrative, once, if and only if there is one and no token
      has been sent as text before: a streamed answer is not repeated, and an unstreamed one is not lost. */
  lemma {:induction false} NarrativeNotRepeated(es: seq<Event>, o: Output, uuid: nat -> Str)
    ensures Narratives(Frames(After(es, uuid), End(Synthesis, o), uuid)) ==
              if NarrativeOf(o) != [] && !TokenSentAsText(es) then [Narrative(Text(NarrativeOf(o)))] else []
  {
    hide After, TokenSentAsText, NarrativeOf, ComponentsOf, Lit;
    StreamedMeaning(es, uuid);
    var st := After(es, uuid);
    var components := if ComponentsOf(o) != [] then [Data(ComponentsOf(o))] else [];
    var narrative := if NarrativeOf(o) != [] && !st.streamed then [Narrative(Text(NarrativeOf(o)))] else [];
    NarrativesConcat(components + FollowUpFrames(o.followUps), narrative);
    NarrativesConcat(components, FollowUpFrames(o.followUps));
    assert Narratives(components) == [] && Narratives(FollowUpFrames(o.followUps)) == [];
    assert Narratives(narrative) == narrative;
  }

  // ----- Tool-call ids -----

  ghost predicate Opened(fs: seq<Frame>, id: Str) {
    exists f | f in fs :: f.ToolCallBegin? && f.id == id
  }

  /** Some intent-router end named the tool in its plan. */
  ghost predicate Planned(es: seq<Event>, t: Str) {
    exists e | e in es :: PlannedBy(e, t)
  }

  ghost predicate PlannedBy(e: Event, t: Str) {
    e.End? && e.node.IntentRouter? && e.output.intentReasoning.Some? && InPlan(e.output.plan, t)
  }

  ghost predicate InPlan(plan: seq<Step>, t: Str) {
    exists k | 0 <= k < |plan| :: ToolName(plan[k]) == t
  }

  lemma {:induction false} PlanActiveEntries(active: map<Str, Str>, plan: seq<Step>, drawn: nat, uuid: nat -> Str,
                                             t: Str)
    ensures t in active || InPlan(plan, t) ==> t in PlanActive(active, plan, drawn, uuid)
    ensures t in PlanActive(active, plan, drawn, uuid) ==>
              var id := PlanActive(active, plan, drawn, uuid)[t];
              (t in active && id == active[t] && !InPlan(plan, t)) || Opened(PlanFrames(plan, drawn, uuid), id)
    decreases plan
  {
    if plan != [] {
      var next := active[ToolName(plan[0]) := uuid(drawn)];
      PlanActiveEntries(next, plan[1..], drawn + 1, uuid, t);
      if InPlan(plan, t) {
        var k :| 0 <= k < |plan| && ToolName(plan[k]) == t;
        if k > 0 { assert plan[1..][k - 1] == plan[k]; }
      }
      var frames, rest := PlanFrames(plan, drawn, uuid), PlanFrames(plan[1..], drawn + 1, uuid);
      assert frames[0] == BeginFrame(plan[0], uuid(drawn));
      assert forall f | f in rest :: f in frames;
      assert InPlan(plan[1..], t) ==> InPlan(plan, t);
    }
  }

  lemma {:induction false} ActiveOpened(es: seq<Event>, uuid: nat -> Str, t: Str)
    requires t != MCP_TOOL_CALLER
    ensures Planned(es, t) ==> t in After(es, uuid).active
    ensures t in After(es, uuid).active ==> Opened(Sent(es, uuid), After(es, uuid).active[t])
  {
    if es != [] {
      var before, e := es[..|es| - 1], es[|es| - 1];
      var st := After(before, uuid);
      ActiveOpened(before, uuid, t);
      assert forall d | d in es :: d in before || d == e;
      var frames := Frames(st, e, uuid);
      assert Sent(es, uuid) == Sent(before, uuid) + frames;
      assert forall f | f in Sent(before, uuid) :: f in Sent(es, uuid);
      if e.End? && e.node.IntentRouter? && e.output.intentReasoning.Some? {
        var plan := e.output.plan;
        PlanActiveEntries(st.active, plan, st.drawn, uuid, t);
        assert frames == [Said(Header(e.output))] + PlanFrames(plan, st.drawn, uuid);
        assert forall f | f in PlanFrames(plan, st.drawn, uuid) :: f in Sent(es, uuid);
      }
    }
  }

  lemma {:induction false} ResultFrameAt(active: map<Str, Str>, tools: seq<Str>, drawn: nat, uuid: nat -> Str, i: nat)
    requires i < |tools|
    ensures |ResultFrames(active, tools, drawn, uuid)| == |tools|
    ensures ResultFrames(active, tools, drawn, uuid)[i] ==
              WireFrames.ToolResult(ResultId(active, tools[i], drawn + i, uuid), StatusText(tools[i]))
  {
    if i > 0 {
      ResultFrameAt(active, tools[1..], drawn + 1, uuid, i - 1);
    } else if |tools| > 1 {
      ResultFrameAt(active, tools[1..], drawn + 1, uuid, 0);
    }
  }

  /** The frame that the end of the tool caller sends for its `i`-th tool. */
  function ResultFor(es: seq<Event>, o: Output, i: nat, uuid: nat -> Str): Frame
    requires i < |o.activeTools|
  {
    WireFrames.ToolResult(ResultId(After(es, uuid).active, o.activeTools[i], After(es, uuid).drawn + i, uuid),
                          StatusText(o.activeTools[i]))
  }

  lemma {:induction false} ResultForIsSent(es: seq<Event>, o: Output, i: nat, uuid: nat -> Str)
    requires i < |o.activeTools|
    ensures i < |Frames(After(es, uuid), End(McpToolCaller, o), uuid)|
    ensures Frames(After(es, uuid), End(McpToolCaller, o), uuid)[i] == ResultFor(es, o, i, uuid)
  {
    var st := After(es, uuid);
    ResultFrameAt(st.active, o.activeTools, st.drawn, uuid, i);
    assert Frames(st, End(McpToolCaller, o), uuid) ==
           ResultFrames(st.active, o.activeTools, st.drawn, uuid) + (SqlFrames(o.toolSql) + ErrorFrames(o.errors));
  }

  ghost predicate Injective(uuid: nat -> Str) {
    forall m: nat, n: nat :: uuid(m) == uuid(n) ==> m == n
  }

  /** In every run in which the tool was planned before, its result carries the id of an earlier begin frame. */
  ghost predicate ResultsAlwaysOpened(t: Str, uuid: nat -> Str) {
    forall es: seq<Event>, o: Output, i: nat ::
      i < |o.activeTools| && o.activeTools[i] == t && Planned(es, t) ==>
        Opened(Sent(es, uuid), ResultFor(es, o, i, uuid).id)
  }

  /** Results of a planned tool always carry an opened id, except for a tool that is named like the node that
      runs the tools: the start of that node overwrites its id with one that is never announced. */
  lemma {:induction false} ResultsOpenedIff(t: Str, uuid: nat -> Str)
    requires Injective(uuid)
    ensures ResultsAlwaysOpened(t, uuid) <==> t != MCP_TOOL_CALLER
  {
    if t != MCP_TOOL_CALLER {
      forall es: seq<Event>, o: Output, i: nat | i < |o.activeTools| && o.activeTools[i] == t && Planned(es, t)
        ensures Opened(Sent(es, uuid), ResultFor(es, o, i, uuid).id)
      {
        ActiveOpened(es, uuid, t);
      }
    } else {
      NodeNamedTool(uuid);
    }
  }

  function Blank(): Output {
    Output(None, None, [], [], [], [], None, [], None)
  }

  /** A run of two events. */
  lemma TwoEvents(a: Event, b: Event, uuid: nat -> Str)
    ensures After([a, b], uuid) == Next(Next(INITIAL, a, uuid), b, uuid)
    ensures Sent([a, b], uuid) == Frames(INITIAL, a, uuid) + Frames(Next(INITIAL, a, uuid), b, uuid)
  {
    hide Frames, Next;
    assert [a, b][..1] == [a] && [a][..0] == [];
    assert After([a], uuid) == Next(INITIAL, a, uuid);
    assert Sent([a], uuid) == [] + Frames(INITIAL, a, uuid);
  }

  function NodeNamed(): Step {
    Step(Some(MCP_TOOL_CALLER), None, [])
  }

  function NodePlanned(): Event {
    End(IntentRouter, Blank().(intentReasoning := Some([]), plan := [NodeNamed()]))
  }

  lemma NodePlannedNext(uuid: nat -> Str)
    ensures var st := Next(INITIAL, NodePlanned(), uuid);
            st.drawn == 1 && Next(st, Start(McpToolCaller), uuid).active.Items >= {(MCP_TOOL_CALLER, uuid(1))}
  {
    hide Lit;
    var next := Next(Next(INITIAL, NodePlanned(), uuid), Start(McpToolCaller), uuid);
    assert MCP_TOOL_CALLER in next.active && next.active[MCP_TOOL_CALLER] == uuid(1);
  }

  lemma NodePlannedFrames(uuid: nat -> Str)
    ensures forall f | f in Frames(INITIAL, NodePlanned(), uuid) :: f.ToolCallBegin? ==> f.id == uuid(0)
    ensures forall st, f | f in Frames(st, Start(McpToolCaller), uuid) :: !f.ToolCallBegin?
  {
    hide Lit, Header, ServerName, Wrapped, StartText;
    assert PlanFrames([NodeNamed()], 0, uuid) == StepFrames(NodeNamed(), uuid(0)) + [];
  }

  /** A plan names that tool, the node starts, and the result carries an id that no begin frame had. */
  lemma NodeResult(uuid: nat -> Str)
    requires Injective(uuid)
    ensures var es, o := [NodePlanned(), Start(McpToolCaller)], Blank().(activeTools := [MCP_TOOL_CALLER]);
            Planned(es, MCP_TOOL_CALLER) && !Opened(Sent(es, uuid), ResultFor(es, o, 0, uuid).id)
  {
    hide Lit, Frames, Next, Sent, After, StatusText;
    var planned, start := NodePlanned(), Start(McpToolCaller);
    var es := [planned, start];
    TwoEvents(planned, start, uuid);
    NodePlannedNext(uuid);
    NodePlannedFrames(uuid);
    assert planned.output.plan[0] == NodeNamed();
    assert PlannedBy(planned, MCP_TOOL_CALLER) && planned in es;
    assert (MCP_TOOL_CALLER, uuid(1)) in After(es, uuid).active.Items;
  }

  lemma {:induction false} NodeNamedTool(uuid: nat -> Str)
    requires Injective(uuid)
    ensures !ResultsAlwaysOpened(MCP_TOOL_CALLER, uuid)
  {
    hide Lit, Sent, ResultFor, Planned, Opened, NodePlanned;
    NodeResult(uuid);
    var es, o := [NodePlanned(), Start(McpToolCaller)], Blank().(activeTools := [MCP_TOOL_CALLER]);
    assert o.activeTools[0] == MCP_TOOL_CALLER;
  }

  // ----- One plan, one batch of results -----

  function Names(plan: seq<Step>): seq<Str> {
    seq(|plan|, i requires 0 <= i < |plan| => ToolName(plan[i]))
  }

  function BeginIds(fs: seq<Frame>): seq<Str> {
    if fs == [] then []
    else if fs[0].ToolCallBegin? then [fs[0].id] + BeginIds(fs[1..])
    else BeginIds(fs[1..])
  }

  function ResultIds(fs: seq<Frame>): seq<Str> {
    if fs == [] then []
    else if fs[0].ToolResult? then [fs[0].id] + ResultIds(fs[1..])
    else ResultIds(fs[1..])
  }

  function Lookup(active: map<Str, Str>, tools: seq<Str>): seq<Str>
    requires forall t | t in tools :: t in active
  {
    seq(|tools|, i requires 0 <= i < |tools| => assert tools[i] in tools; active[tools[i]])
  }

  ghost predicate Distinct(names: seq<Str>) {
    forall i, j | 0 <= i < j < |names| :: names[i] != names[j]
  }

  lemma {:induction false} BeginIdsConcat(a: seq<Frame>, b: seq<Frame>)
    ensures BeginIds(a + b) == BeginIds(a) + BeginIds(b)
    ensures ResultIds(a + b) == ResultIds(a) + ResultIds(b)
  {
    if a == [] {
      assert a + b == b;
    } else {
      assert (a + b)[1..] == a[1..] + b;
      BeginIdsConcat(a[1..], b);
    }
  }

  /** With distinct names the table maps the plan's tools, in order, to the ids announced for them. */
  lemma {:induction false} PlanLookup(active: map<Str, Str>, plan: seq<Step>, drawn: nat, uuid: nat -> Str)
    requires Distinct(Names(plan))
    ensures var after := PlanActive(active, plan, drawn, uuid);
            && (forall t | t in Names(plan) :: t in after)
            && Lookup(after, Names(plan)) == BeginIds(PlanFrames(plan, drawn, uuid))
    decreases plan
  {
    hide StepFrames, ToolName;
    if plan != [] {
      var t, rest := ToolName(plan[0]), plan[1..];
      var next := active[t := uuid(drawn)];
      NamesCons(plan);
      PlanLookup(next, rest, drawn + 1, uuid);
      Untouched(next, rest, drawn + 1, uuid, t);
      BeginIdsConcat(StepFrames(plan[0], uuid(drawn)), PlanFrames(rest, drawn + 1, uuid));
      StepBeginIds(plan[0], uuid(drawn));
      LookupCons(PlanActive(next, rest, drawn + 1, uuid), t, Names(rest));
    }
  }

  lemma NamesCons(plan: seq<Step>)
    requires plan != []
    ensures Names(plan) == [ToolName(plan[0])] + Names(plan[1..])
    ensures Distinct(Names(plan)) ==> Distinct(Names(plan[1..])) && ToolName(plan[0]) !in Names(plan[1..])
  {
    var rest := Names(plan[1..]);
    assert forall i | 0 <= i < |rest| :: rest[i] == Names(plan)[i + 1];
    assert Names(plan)[0] == ToolName(plan[0]);
  }

  lemma LookupCons(active: map<Str, Str>, t: Str, names: seq<Str>)
    requires t in active && forall n | n in names :: n in active
    ensures (forall n | n in [t] + names :: n in active)
    ensures Lookup(active, [t] + names) == [active[t]] + Lookup(active, names)
  {
  }

  lemma StepBeginIds(step: Step, id: Str)
    ensures BeginIds(StepFrames(step, id)) == [id]
  {
    hide Lit, Wrapped;
    var fs := StepFrames(step, id);
    assert fs[0] == BeginFrame(step, id);
    assert BeginIds(fs) == [id] + BeginIds(fs[1..]);
    if |fs| == 2 {
      assert BeginIds(fs[1..]) == BeginIds(fs[1..][1..]);
    }
  }

  lemma {:induction false} Untouched(active: map<Str, Str>, plan: seq<Step>, drawn: nat, uuid: nat -> Str, t: Str)
    requires t in active && t !in Names(plan)
    ensures t in PlanActive(active, plan, drawn, uuid) && PlanActive(active, plan, drawn, uuid)[t] == active[t]
    decreases plan
  {
    if plan != [] {
      assert Names(plan)[0] == ToolName(plan[0]);
      assert forall i | 0 <= i < |plan| - 1 :: Names(plan[1..])[i] == Names(plan)[i + 1];
      Untouched(active[ToolName(plan[0]) := uuid(drawn)], plan[1..], drawn + 1, uuid, t);
    }
  }

  /** The state after more events from a given state. */
  function Onward(st: Tracker, es: seq<Event>, uuid: nat -> Str): Tracker
    decreases es
  {
    if es == [] then st else Onward(Next(st, es[0], uuid), es[1..], uuid)
  }

  predicate Replans(e: Event) {
    e.End? && e.node.IntentRouter?
  }

  lemma {:induction false} TableKept(st: Tracker, es: seq<Event>, uuid: nat -> Str, t: Str)
    requires t in st.active && forall e | e in es :: !Replans(e)
    requires t != MCP_TOOL_CALLER || Start(McpToolCaller) !in es
    ensures t in Onward(st, es, uuid).active && Onward(st, es, uuid).active[t] == st.active[t]
    decreases es
  {
    if es != [] {
      assert es[0] in es;
      TableKept(Next(st, es[0], uuid), es[1..], uuid, t);
    }
  }

  /** Once the node that runs the tools has started, the entry under its name is an id drawn since. */
  lemma {:induction false} NodeEntry(st: Tracker, es: seq<Event>, uuid: nat -> Str)
    requires Start(McpToolCaller) in es && forall e | e in es :: !Replans(e)
    ensures exists d | d >= st.drawn :: Onward(st, es, uuid).active.Items >= {(MCP_TOOL_CALLER, uuid(d))}
    decreases es
  {
    var next := Next(st, es[0], uuid);
    assert es[0] in es;
    if Start(McpToolCaller) in es[1..] {
      NodeEntry(next, es[1..], uuid);
    } else {
      assert es[0] == Start(McpToolCaller);
      TableKept(next, es[1..], uuid, MCP_TOOL_CALLER);
      assert (MCP_TOOL_CALLER, uuid(st.drawn)) in Onward(st, es, uuid).active.Items;
    }
  }

  lemma {:induction false} BeginIdsDrawn(plan: seq<Step>, drawn: nat, uuid: nat -> Str, d: nat)
    requires Injective(uuid) && d >= drawn + |plan|
    ensures uuid(d) !in BeginIds(PlanFrames(plan, drawn, uuid))
    decreases plan
  {
    if plan != [] {
      BeginIdsDrawn(plan[1..], drawn + 1, uuid, d);
      BeginIdsConcat(StepFrames(plan[0], uuid(drawn)), PlanFrames(plan[1..], drawn + 1, uuid));
      StepBeginIds(plan[0], uuid(drawn));
      assert uuid(d) != uuid(drawn);
    }
  }

  lemma {:induction false} ResultIdsAre(active: map<Str, Str>, tools: seq<Str>, drawn: nat, uuid: nat -> Str)
    requires forall t | t in tools :: t in active
    ensures ResultIds(ResultFrames(active, tools, drawn, uuid)) == Lookup(active, tools)
  {
    if tools != [] {
      ResultIdsAre(active, tools[1..], drawn + 1, uuid);
      assert ResultFrames(active, tools, drawn, uuid)[1..] == ResultFrames(active, tools[1..], drawn + 1, uuid);
      assert Lookup(active, tools) == [active[tools[0]]] + Lookup(active, tools[1..]);
    }
  }

  lemma {:induction false} NoIdsInText(sql: seq<Str>, errors: seq<Str>)
    ensures ResultIds(SqlFrames(sql)) == [] && ResultIds(ErrorFrames(errors)) == []
  {
    if sql != [] {
      NoIdsInText(sql[1..], errors);
      assert SqlFrames(sql)[1..] == SqlFrames(sql[1..]);
    } else if errors != [] {
      NoIdsInText(sql, errors[1..]);
      assert ErrorFrames(errors)[1..] == ErrorFrames(errors[1..]);
    }
  }

  lemma DropSame<T>(xs: seq<T>, ys: seq<T>, k: nat)
    requires xs != [] && k < |ys| && ys[k] == xs[0] && multiset(xs) == multiset(ys)
    ensures multiset(xs[1..]) == multiset(ys[..k] + ys[k + 1..])
  {
    assert xs == [xs[0]] + xs[1..] && ys == ys[..k] + [ys[k]] + ys[k + 1..];
    assert multiset(xs[1..]) == multiset(xs) - multiset{xs[0]};
    assert multiset(ys[..k] + ys[k + 1..]) == multiset(ys) - multiset{ys[k]};
  }

  lemma LookupSplit(active: map<Str, Str>, ys: seq<Str>, k: nat)
    requires k < |ys| && forall t | t in ys :: t in active
    ensures forall t | t in ys[..k] + ys[k + 1..] :: t in active
    ensures multiset(Lookup(active, ys)) == multiset{active[ys[k]]} + multiset(Lookup(active, ys[..k] + ys[k + 1..]))
  {
    var l := Lookup(active, ys);
    assert l == l[..k] + [l[k]] + l[k + 1..];
    assert Lookup(active, ys[..k] + ys[k + 1..]) == l[..k] + l[k + 1..];
  }

  /** Looking up a permutation of the tools gives a permutation of the ids. */
  lemma {:induction false} LookupPermutes(active: map<Str, Str>, xs: seq<Str>, ys: seq<Str>)
    requires multiset(xs) == multiset(ys)
    requires (forall t | t in xs :: t in active) && (forall t | t in ys :: t in active)
    ensures multiset(Lookup(active, xs)) == multiset(Lookup(active, ys))
    decreases |xs|
  {
    if xs != [] {
      assert xs[0] in multiset(ys);
      var k :| 0 <= k < |ys| && ys[k] == xs[0];
      DropSame(xs, ys, k);
      LookupSplit(active, ys, k);
      LookupSplit(active, xs, 0);
      assert xs[..0] + xs[1..] == xs[1..];
      LookupPermutes(active, xs[1..], ys[..k] + ys[k + 1..]);
    } else {
      assert |multiset(ys)| == 0;
      assert ys == [];
    }
  }

  /** A plan, what follows it up to the end of the tool caller, and the results of exactly its tools in any order. */
  ghost predicate Episode(plan: Output, between: seq<Event>, results: Output) {
    && plan.intentReasoning.Some? && Distinct(Names(plan.plan))
    && (forall e | e in between :: !Replans(e))
    && multiset(results.activeTools) == multiset(Names(plan.plan))
  }

  /** The ids announced for the plan, and those of the results. */
  function Announced(st: Tracker, plan: Output, uuid: nat -> Str): seq<Str> {
    BeginIds(Frames(st, End(IntentRouter, plan), uuid))
  }

  function Later(st: Tracker, plan: Output, between: seq<Event>, uuid: nat -> Str): Tracker {
    Onward(Next(st, End(IntentRouter, plan), uuid), between, uuid)
  }

  function Reported(st: Tracker, plan: Output, between: seq<Event>, results: Output, uuid: nat -> Str): seq<Str> {
    ResultIds(Frames(Later(st, plan, between, uuid), End(McpToolCaller, results), uuid))
  }

  lemma {:induction false} AnnouncedAre(st: Tracker, plan: Output, uuid: nat -> Str)
    requires plan.intentReasoning.Some? && Distinct(Names(plan.plan))
    ensures var names, planned := Names(plan.plan), Next(st, End(IntentRouter, plan), uuid);
            && (forall t | t in names :: t in planned.active)
            && Announced(st, plan, uuid) == Lookup(planned.active, names)
            && Announced(st, plan, uuid) == BeginIds(PlanFrames(plan.plan, st.drawn, uuid))
            && planned.drawn == st.drawn + |plan.plan|
  {
    hide Lit, Header, StepFrames;
    PlanLookup(st.active, plan.plan, st.drawn, uuid);
    BeginIdsConcat([Said(Header(plan))], PlanFrames(plan.plan, st.drawn, uuid));
  }

  lemma {:induction false} ReportedAre(st: Tracker, results: Output, uuid: nat -> Str)
    requires forall t | t in results.activeTools :: t in st.active
    ensures ResultIds(Frames(st, End(McpToolCaller, results), uuid)) == Lookup(st.active, results.activeTools)
  {
    hide Lit, StatusText, SqlFrames, ErrorFrames;
    var rf := ResultFrames(st.active, results.activeTools, st.drawn, uuid);
    ResultIdsAre(st.active, results.activeTools, st.drawn, uuid);
    NoIdsInText(results.toolSql, results.errors);
    BeginIdsConcat(rf + SqlFrames(results.toolSql), ErrorFrames(results.errors));
    BeginIdsConcat(rf, SqlFrames(results.toolSql));
  }

  lemma SameMembers(a: seq<Str>, b: seq<Str>)
    requires multiset(a) == multiset(b)
    ensures forall t :: t in a <==> t in b
  {
    assert forall t :: t in a <==> t in multiset(a);
    assert forall t :: t in b <==> t in multiset(b);
  }

  lemma {:induction false} LookupKept(st: Tracker, es: seq<Event>, uuid: nat -> Str, names: seq<Str>)
    requires forall t | t in names :: t in st.active
    requires forall e | e in es :: !Replans(e)
    requires MCP_TOOL_CALLER !in names || Start(McpToolCaller) !in es
    ensures forall t | t in names :: t in Onward(st, es, uuid).active
    ensures Lookup(Onward(st, es, uuid).active, names) == Lookup(st.active, names)
  {
    hide Onward;
    forall t | t in names ensures t in Onward(st, es, uuid).active && Onward(st, es, uuid).active[t] == st.active[t] {
      TableKept(st, es, uuid, t);
    }
  }

  /** The result ids are a permutation of the ids announced for the plan. */
  lemma {:induction false} ResultsMatchPlan(st: Tracker, plan: Output, between: seq<Event>, results: Output,
                                            uuid: nat -> Str)
    requires Episode(plan, between, results)
    requires MCP_TOOL_CALLER !in Names(plan.plan) || Start(McpToolCaller) !in between
    ensures multiset(Reported(st, plan, between, results, uuid)) == multiset(Announced(st, plan, uuid))
  {
    hide Frames, Next, Onward, Names, Lookup, Announced;
    var names := Names(plan.plan);
    var planned, later := Next(st, End(IntentRouter, plan), uuid), Later(st, plan, between, uuid);
    AnnouncedAre(st, plan, uuid);
    LookupKept(planned, between, uuid, names);
    SameMembers(results.activeTools, names);
    LookupPermutes(later.active, results.activeTools, names);
    ReportedAre(later, results, uuid);
  }

  lemma {:induction false} NodeIdReported(st: Tracker, plan: Output, between: seq<Event>, results: Output,
                                          uuid: nat -> Str)
    requires Episode(plan, between, results) && Injective(uuid)
    requires MCP_TOOL_CALLER in Names(plan.plan) && Start(McpToolCaller) in between
    ensures multiset(Reported(st, plan, between, results, uuid)) != multiset(Announced(st, plan, uuid))
  {
    hide Frames;
    var names := Names(plan.plan);
    var planned, later := Next(st, End(IntentRouter, plan), uuid), Later(st, plan, between, uuid);
    AnnouncedAre(st, plan, uuid);
    NodeEntry(planned, between, uuid);
    var d :| d >= planned.drawn && later.active.Items >= {(MCP_TOOL_CALLER, uuid(d))};
    assert (MCP_TOOL_CALLER, uuid(d)) in later.active.Items;
    forall t | t in names ensures t in later.active {
      if t != MCP_TOOL_CALLER {
        TableKept(planned, between, uuid, t);
      }
    }
    SameMembers(results.activeTools, names);
    ReportedAre(later, results, uuid);
    var i :| 0 <= i < |results.activeTools| && results.activeTools[i] == MCP_TOOL_CALLER;
    assert Reported(st, plan, between, results, uuid)[i] == uuid(d);
    assert uuid(d) in multiset(Reported(st, plan, between, results, uuid));
    BeginIdsDrawn(plan.plan, st.drawn, uuid, d);
    assert uuid(d) !in multiset(Announced(st, plan, uuid));
  }

  /** For every plan with distinct tool names and fresh ids, the result ids are a permutation of the announced ids, if
      and only if no tool named like the node that runs the tools was planned before that node started. */
  lemma {:induction false} ResultsMatchPlanIff(st: Tracker, plan: Output, between: seq<Event>, results: Output,
                                               uuid: nat -> Str)
    requires Episode(plan, between, results) && Injective(uuid)
    ensures multiset(Reported(st, plan, between, results, uuid)) == multiset(Announced(st, plan, uuid)) <==>
              MCP_TOOL_CALLER !in Names(plan.plan) || Start(McpToolCaller) !in between
  {
    if MCP_TOOL_CALLER !in Names(plan.plan) || Start(McpToolCaller) !in between {
      ResultsMatchPlan(st, plan, between, results, uuid);
    } else {
      NodeIdReported(st, plan, between, results, uuid);
    }
  }
}
