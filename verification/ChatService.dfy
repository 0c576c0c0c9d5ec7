/** `ChatService.execute` of agents/analytics-agent/src/services/chat_service.py: the order of the stream and
    what is saved. The graph, the encoder and the store may each fail at any point. */
module ChatService {
  import opened Common
  import opened Unicode
  import opened Json
  import opened WireFrames
  import opened StreamEncoding

  /** What one turn of the event loop does: an event is sent and captured; nothing is sent because the graph or
      the encoder raised; or an event is sent and its capture raised. */
  datatype Turn = Deliver(e: Event) | Raise(message: Str) | DeliverThenRaise(e: Event, message: Str)

  datatype Role = User | Assistant

  datatype Message = Message(role: Role, content: Str, components: Option<seq<Json>>)

  /** How the store behaves: preparing the conversation may raise, it may lack `add_message`, and each of the
      two writes may fail. */
  datatype StoreFaults = StoreFaults(prepareError: Option<Str>, canAdd: bool, userSaved: bool, assistantSaved: bool)

  const STOP: Frame := Finish(Lit("stop"))

  /** The events that were sent, and the error that ended the loop, if any. */
  function Delivered(turns: seq<Turn>): seq<Event> {
    if turns == [] || turns[0].Raise? then []
    else [turns[0].e] + (if turns[0].DeliverThenRaise? then [] else Delivered(turns[1..]))
  }

  function Failure(turns: seq<Turn>): Option<Str> {
    if turns == [] then None
    else if turns[0].Deliver? then Failure(turns[1..])
    else Some(turns[0].message)
  }

  function Ending(failure: Option<Str>): seq<Frame> {
    (if failure.Some? then [Error(failure.value)] else []) + [STOP]
  }

  function StreamFrames(faults: StoreFaults, turns: seq<Turn>, uuid: nat -> Str): seq<Frame> {
    if faults.prepareError.Some? then Ending(faults.prepareError)
    else Sent(Delivered(turns), uuid) + Ending(Failure(turns))
  }

  /** The narrative and components as captured so far; an output without the key leaves them alone. */
  datatype Captured = Captured(narrative: Str, components: seq<Json>)

  function Capture(c: Captured, e: Event): Captured {
    if e.End? && e.node.Synthesis? then
      Captured(if e.output.narrative.Some? then e.output.narrative.value else c.narrative,
               if e.output.components.Some? then e.output.components.value else c.components)
    else c
  }

  function CaptureAll(es: seq<Event>): Captured {
    if es == [] then Captured([], []) else Capture(CaptureAll(es[..|es| - 1]), es[|es| - 1])
  }

  function Saved(faults: StoreFaults, turns: seq<Turn>, request: Str): seq<Message> {
    var c := CaptureAll(Delivered(turns));
    if faults.prepareError.Some? || Failure(turns).Some? || c.narrative == [] || !faults.canAdd
        || !faults.userSaved then []
    else
      [Message(User, request, None)]
      + if faults.assistantSaved
        then [Message(Assistant, c.narrative, if c.components == [] then None else Some(c.components))] else []
  }

  class ChatService {
    const uuid: nat -> Str
    var store: seq<Message>

    constructor (uuid: nat -> Str)
      ensures this.uuid == uuid && store == []
    {
      this.uuid := uuid;
      store := [];
    }

    method Execute(request: Str, turns: seq<Turn>, faults: StoreFaults) returns (stream: string)
      modifies this
      ensures stream == EncodeAll(StreamFrames(faults, turns, uuid))
      ensures store == old(store) + Saved(faults, turns, request)
    {
      hide Sent, After, Next, Frames, EncodeAll, Ending, Capture, Lit;
      var encoder := new DataStreamEncoder(uuid);
      SentNothing(uuid);
      stream := "";
      if faults.prepareError.Some? {
        stream := Closing(faults.prepareError);
        return;
      }
      var captured := Captured([], []);
      ghost var sent := [];
      var i := 0;
      while i < |turns|
        invariant i <= |turns| && store == old(store)
        invariant fresh(encoder) && encoder.uuid == uuid && encoder.State() == After(sent, uuid)
        invariant stream == EncodeAll(Sent(sent, uuid)) && captured == CaptureAll(sent)
        invariant Delivered(turns) == sent + Delivered(turns[i..])
        invariant Failure(turns) == Failure(turns[i..])
      {
        var turn := turns[i];
        assert turns[i..][0] == turn && turns[i..][1..] == turns[i + 1..];
        if turn.Raise? {
          assert sent + [] == sent;
          var closing := Closing(Some(turn.message));
          EncodeAllConcat(Sent(sent, uuid), Ending(Some(turn.message)));
          stream := stream + closing;
          return;
        }
        var chunk := encoder.EncodeEvent(turn.e);
        SentStep(sent, turn.e, uuid);
        stream := stream + chunk;
        if turn.DeliverThenRaise? {
          assert Delivered(turns) == sent + [turn.e];
          var closing := Closing(Some(turn.message));
          EncodeAllConcat(Sent(sent + [turn.e], uuid), Ending(Some(turn.message)));
          stream := stream + closing;
          return;
        }
        captured := Capture(captured, turn.e);
        Assoc(sent, [turn.e], Delivered(turns[i + 1..]));
        sent := sent + [turn.e];
        i := i + 1;
      }
      assert turns[i..] == [] && sent + [] == sent;
      var closing := Closing(None);
      EncodeAllConcat(Sent(sent, uuid), Ending(None));
      stream := stream + closing;
      if captured.narrative != [] && faults.canAdd {
        Save(request, captured, faults);
      }
    }

    method Save(request: Str, captured: Captured, faults: StoreFaults)
      modifies this
      ensures store == old(store)
                       + if !faults.userSaved then []
                         else [Message(User, request, None)]
                              + if faults.assistantSaved
                                then [Message(Assistant, captured.narrative,
                                              if captured.components == [] then None else Some(captured.components))]
                                else []
    {
      if !faults.userSaved {
        return;
      }
      store := store + [Message(User, request, None)];
      if !faults.assistantSaved {
        return;
      }
      var components := if captured.components == [] then None else Some(captured.components);
      store := store + [Message(Assistant, captured.narrative, components)];
    }
  }

  method Closing(failure: Option<Str>) returns (out: string)
    ensures out == EncodeAll(Ending(failure))
  {
    var finish := EncodeOne(STOP);
    if failure.None? {
      assert Ending(failure) == [STOP];
      return finish;
    }
    out := Encode(Error(failure.value)) + finish;
    EncodeAllCons(Error(failure.value), [STOP]);
  }

  lemma SentNothing(uuid: nat -> Str)
    ensures After([], uuid) == INITIAL && EncodeAll(Sent([], uuid)) == ""
  {
  }

  lemma SentStep(sent: seq<Event>, e: Event, uuid: nat -> Str)
    ensures After(sent + [e], uuid) == Next(After(sent, uuid), e, uuid)
    ensures EncodeAll(Sent(sent + [e], uuid)) ==
              EncodeAll(Sent(sent, uuid)) + EncodeAll(Frames(After(sent, uuid), e, uuid))
    ensures CaptureAll(sent + [e]) == Capture(CaptureAll(sent), e)
  {
    assert (sent + [e])[..|sent|] == sent;
    EncodeAllConcat(Sent(sent, uuid), Frames(After(sent, uuid), e, uuid));
  }

  // ----- The shape of the stream -----

  predicate EventFrame(f: Frame) {
    !f.Error? && !f.Finish?
  }

  lemma {:induction false} PlanFramesAreEvents(plan: seq<Step>, drawn: nat, uuid: nat -> Str)
    ensures forall f | f in PlanFrames(plan, drawn, uuid) :: EventFrame(f)
    decreases plan
  {
    hide Lit, Wrapped;
    if plan != [] {
      PlanFramesAreEvents(plan[1..], drawn + 1, uuid);
    }
  }

  lemma {:induction false} ToolFramesAreEvents(active: map<Str, Str>, tools: seq<Str>, drawn: nat, uuid: nat -> Str)
    ensures forall f | f in ResultFrames(active, tools, drawn, uuid) :: EventFrame(f)
  {
    hide StatusText;
    if tools != [] {
      ToolFramesAreEvents(active, tools[1..], drawn + 1, uuid);
    }
  }

  lemma {:induction false} TextFramesAreEvents(sql: seq<Str>, errors: seq<Str>)
    ensures forall f | f in SqlFrames(sql) + ErrorFrames(errors) :: EventFrame(f)
  {
    hide Wrapped, ErrorText;
    if sql != [] {
      TextFramesAreEvents(sql[1..], errors);
    } else if errors != [] {
      TextFramesAreEvents(sql, errors[1..]);
    }
  }

  lemma {:induction false} FramesAreEvents(st: Tracker, e: Event, uuid: nat -> Str)
    ensures forall f | f in Frames(st, e, uuid) :: EventFrame(f)
  {
    hide Lit, Header, Joined, StartText, PlanFrames, ResultFrames, SqlFrames, ErrorFrames;
    match e
    case End(IntentRouter, o) => PlanFramesAreEvents(o.plan, st.drawn, uuid);
    case End(McpToolCaller, o) =>
      ToolFramesAreEvents(st.active, o.activeTools, st.drawn, uuid);
      TextFramesAreEvents(o.toolSql, o.errors);
    case _ =>
  }

  /** No event makes the encoder send an error or finish frame. */
  lemma {:induction false} SentAreEvents(es: seq<Event>, uuid: nat -> Str)
    ensures forall f | f in Sent(es, uuid) :: EventFrame(f)
  {
    hide Frames, EventFrame;
    if es != [] {
      SentAreEvents(es[..|es| - 1], uuid);
      FramesAreEvents(After(es[..|es| - 1], uuid), es[|es| - 1], uuid);
    }
  }

  /** For every event sequence and every failure point: event frames, then at most one error frame, then
      exactly one finish frame in last place; there is an error frame exactly when something failed. */
  lemma {:induction false} StreamShape(faults: StoreFaults, turns: seq<Turn>, uuid: nat -> Str)
    ensures var fs := StreamFrames(faults, turns, uuid);
            && |fs| > 0 && fs[|fs| - 1] == STOP
            && (forall i | 0 <= i < |fs| - 1 :: !fs[i].Finish?)
            && (forall i | 0 <= i < |fs| :: fs[i].Error? ==> i == |fs| - 2)
            && ((exists f | f in fs :: f.Error?) <==> faults.prepareError.Some? || Failure(turns).Some?)
  {
    SentAreEvents(Delivered(turns), uuid);
    var fs := StreamFrames(faults, turns, uuid);
    if faults.prepareError.None? {
      var sent := Sent(Delivered(turns), uuid);
      assert forall i | 0 <= i < |sent| :: fs[i] == sent[i] && sent[i] in sent;
      if Failure(turns).Some? { assert fs[|sent|] == Error(Failure(turns).value); }
    } else {
      assert fs[0] == Error(faults.prepareError.value);
    }
  }

  lemma ReceivedTags(fs: seq<Frame>)
    ensures |ReceivedAll(fs)| == |fs|
    ensures forall i | 0 <= i < |fs| :: ReceivedAll(fs)[i].tag == [Tag(fs[i])]
  {
    hide Wire, Payload, Tag;
  }

  lemma TagMeaning()
    ensures forall f: Frame :: ([Tag(f)] == "d" <==> f.Finish?) && ([Tag(f)] == "3" <==> f.Error?)
  {
  }

  /** The same on the bytes: what a client reads always ends in one finish part and has no other. */
  lemma {:induction false} StreamEnds(faults: StoreFaults, turns: seq<Turn>, uuid: nat -> Str)
    requires forall f | f in Sent(Delivered(turns), uuid) :: ValidFrame(f)
    ensures var parts := ReadStream(EncodeAll(StreamFrames(faults, turns, uuid)));
            && parts.Some? && |parts.value| > 0
            && parts.value[|parts.value| - 1].tag == "d"
            && forall i | 0 <= i < |parts.value| - 1 ::
                 && parts.value[i].tag != "d"
                 && (parts.value[i].tag == "3" ==> i == |parts.value| - 2)
  {
    hide StreamFrames, Wire, Payload, ValidFrame, Lit, Tag, ReceivedAll, Sent, Delivered, Failure, ReadStream,
        EncodeAll;
    var fs := StreamFrames(faults, turns, uuid);
    StreamShape(faults, turns, uuid);
    StreamValid(faults, turns, uuid);
    StreamRoundTrip(fs);
    ReceivedTags(fs);
    TagMeaning();
  }

  lemma StreamValid(faults: StoreFaults, turns: seq<Turn>, uuid: nat -> Str)
    requires forall f | f in Sent(Delivered(turns), uuid) :: ValidFrame(f)
    ensures forall f | f in StreamFrames(faults, turns, uuid) :: ValidFrame(f)
  {
    hide Lit;
    FinishValid(Lit("stop"));
  }

  lemma FinishValid(reason: Str)
    ensures ValidFrame(Finish(reason))
  {
    hide Lit;
    assert Number("0") by { assert SpanDigits("0"[1..]) == 0; assert SpanDigits("0") == 1; }
    var usage := [Field(Lit("promptTokens"), Num("0")), Field(Lit("completionTokens"), Num("0"))];
    assert Valid(Num("0")) && Valid(Text(reason));
    assert Valid(Obj(usage));
    var fields := [Field(Lit("finishReason"), Text(reason)), Field(Lit("usage"), USAGE)];
    assert Valid(Obj(fields));
  }

  // ----- What is saved -----

  /** The last synthesis output that has a narrative has this one. */
  ghost predicate LastNarrative(es: seq<Event>, narrative: Str) {
    exists i | 0 <= i < |es| :: GivesNarrative(es[i], narrative) && NoNarrativeFrom(es, i + 1)
  }

  ghost predicate GivesNarrative(e: Event, narrative: Str) {
    e.End? && e.node.Synthesis? && e.output.narrative == Some(narrative)
  }

  ghost predicate NoNarrativeFrom(es: seq<Event>, from: nat) {
    forall j | from <= j < |es| :: !(es[j].End? && es[j].node.Synthesis? && es[j].output.narrative.Some?)
  }

  lemma {:induction false} CapturedMeaning(es: seq<Event>, narrative: Str)
    requires narrative != []
    ensures CaptureAll(es).narrative == narrative <==> LastNarrative(es, narrative)
  {
    if es != [] {
      var before, e := es[..|es| - 1], es[|es| - 1];
      CapturedMeaning(before, narrative);
      if e.End? && e.node.Synthesis? && e.output.narrative.Some? {
        if e.output.narrative.value == narrative { assert GivesNarrative(es[|es| - 1], narrative)
            && NoNarrativeFrom(es, |es|); }
      } else {
        if i :| 0 <= i < |before| && GivesNarrative(before[i], narrative) && NoNarrativeFrom(before, i + 1) {
          assert GivesNarrative(es[i], narrative) && NoNarrativeFrom(es, i + 1);
        }
        if i :| 0 <= i < |es| && GivesNarrative(es[i], narrative) && NoNarrativeFrom(es, i + 1) {
          assert GivesNarrative(before[i], narrative) && NoNarrativeFrom(before, i + 1);
        }
      }
    }
  }

  /** With a working store, the user's message and then the answer are saved if and only if nothing failed and
      the last narrative that synthesis gave is not empty. */
  lemma {:induction false} SavedIff(faults: StoreFaults, turns: seq<Turn>, request: Str, answer: Str)
    requires faults.canAdd && faults.userSaved && faults.assistantSaved && answer != []
    ensures (&& |Saved(faults, turns, request)| == 2
             && Saved(faults, turns, request)[0] == Message(User, request, None)
             && Saved(faults, turns, request)[1].role == Assistant
             && Saved(faults, turns, request)[1].content == answer)
            <==> faults.prepareError.None? && Failure(turns).None? && LastNarrative(Delivered(turns), answer)
  {
    CapturedMeaning(Delivered(turns), answer);
  }

  /** Whatever the store does, something is saved only after a complete run with a narrative, the user's message
      goes first, and the answer is never saved without it. */
  lemma {:induction false} SavedOnlyIf(faults: StoreFaults, turns: seq<Turn>, request: Str)
    requires Saved(faults, turns, request) != []
    ensures faults.prepareError.None? && Failure(turns).None?
    ensures exists answer :: answer != [] && LastNarrative(Delivered(turns), answer)
    ensures Saved(faults, turns, request)[0] == Message(User, request, None) && |Saved(faults, turns, request)| <= 2
    ensures |Saved(faults, turns, request)| == 2 <==> faults.assistantSaved
  {
    CapturedMeaning(Delivered(turns), CaptureAll(Delivered(turns)).narrative);
  }

  // ----- The stream, failure point by failure point -----

  /** The first `n` turns delivered their events. */
  predicate Delivering(turns: seq<Turn>, n: nat)
    requires n <= |turns|
  {
    forall i | 0 <= i < n :: turns[i].Deliver?
  }

  function EventsOf(turns: seq<Turn>, n: nat): seq<Event>
    requires n <= |turns| && Delivering(turns, n)
  {
    seq(n, i requires 0 <= i < n => turns[i].e)
  }

  lemma {:induction false} DeliveredAre(turns: seq<Turn>, n: nat)
    requires n <= |turns| && Delivering(turns, n) && (n < |turns| ==> !turns[n].Deliver?)
    ensures Delivered(turns) ==
              EventsOf(turns, n) + if n < |turns| && turns[n].DeliverThenRaise? then [turns[n].e] else []
    ensures Failure(turns) == if n < |turns| then Some(turns[n].message) else None
    decreases n
  {
    if n > 0 {
      assert forall i | 0 <= i < n - 1 :: turns[1..][i] == turns[i + 1];
      DeliveredAre(turns[1..], n - 1);
      assert EventsOf(turns, n) == [turns[0].e] + EventsOf(turns[1..], n - 1);
    } else if turns != [] {
      assert EventsOf(turns, 0) == [];
    }
  }

  /** For every failure point: all frames of the events before it, those of the event that was sent before its capture
      failed, the message of the failure, and the finish frame; without a failure, all frames and the finish frame. A
      store that cannot be prepared fails before the first event. */
  lemma {:induction false} StreamIs(faults: StoreFaults, turns: seq<Turn>, uuid: nat -> Str, n: nat)
    requires n <= |turns| && Delivering(turns, n) && (n < |turns| ==> !turns[n].Deliver?)
    ensures var fs := StreamFrames(faults, turns, uuid);
            if faults.prepareError.Some? then fs == [Error(faults.prepareError.value), Finish(Lit("stop"))]
            else if n == |turns| then fs == Sent(EventsOf(turns, n), uuid) + [Finish(Lit("stop"))]
            else if turns[n].Raise?
            then fs == Sent(EventsOf(turns, n), uuid) + [Error(turns[n].message), Finish(Lit("stop"))]
            else fs == Sent(EventsOf(turns, n) + [turns[n].e], uuid) + [Error(turns[n].message), Finish(Lit("stop"))]
  {
    hide Lit, Sent;
    DeliveredAre(turns, n);
    assert EventsOf(turns, n) + [] == EventsOf(turns, n);
  }

  // ----- The saved components -----

  ghost predicate GivesComponents(e: Event, components: seq<Json>) {
    e.End? && e.node.Synthesis? && e.output.components == Some(components)
  }

  ghost predicate NoComponentsFrom(es: seq<Event>, from: nat) {
    forall j | from <= j < |es| :: !(es[j].End? && es[j].node.Synthesis? && es[j].output.components.Some?)
  }

  /** The last synthesis output that has components has these, or none has any. */
  ghost predicate LastComponents(es: seq<Event>, components: seq<Json>) {
    || (exists i | 0 <= i < |es| :: GivesComponents(es[i], components) && NoComponentsFrom(es, i + 1))
    || (components == [] && NoComponentsFrom(es, 0))
  }

  lemma {:induction false} ComponentsMeaning(es: seq<Event>, components: seq<Json>)
    ensures CaptureAll(es).components == components <==> LastComponents(es, components)
  {
    if es != [] {
      var n := |es| - 1;
      var before, e := es[..n], es[n];
      ComponentsMeaning(before, components);
      if e.End? && e.node.Synthesis? && e.output.components.Some? {
        if e.output.components.value == components {
          assert GivesComponents(es[n], components) && NoComponentsFrom(es, n + 1);
        }
      } else {
        if i :| 0 <= i < n && GivesComponents(before[i], components) && NoComponentsFrom(before, i + 1) {
          assert GivesComponents(es[i], components) && NoComponentsFrom(es, i + 1);
        }
        if i :| 0 <= i < |es| && GivesComponents(es[i], components) && NoComponentsFrom(es, i + 1) {
          assert GivesComponents(before[i], components) && NoComponentsFrom(before, i + 1);
        }
      }
    }
  }

  /** What is saved, whole: with a working store and a complete run whose last narrative is not empty, the question and
      the answer with the last components, none standing for an empty list. */
  lemma {:induction false} SavedExactly(faults: StoreFaults, turns: seq<Turn>, request: Str, answer: Str,
                                        components: seq<Json>)
    requires faults.canAdd && faults.userSaved && faults.assistantSaved && answer != []
    requires faults.prepareError.None? && Failure(turns).None?
    requires LastNarrative(Delivered(turns), answer) && LastComponents(Delivered(turns), components)
    ensures Saved(faults, turns, request)
         == [Message(User, request, None),
             Message(Assistant, answer, if |components| > 0 then Some(components) else None)]
  {
    CapturedMeaning(Delivered(turns), answer);
    ComponentsMeaning(Delivered(turns), components);
  }
}
