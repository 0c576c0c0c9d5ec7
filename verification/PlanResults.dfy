/** Result keys and the merge loop of agents/analytics-agent/src/nodes/mcp_tool_caller.py, and the reducers of
    agents/analytics-agent/src/state.py that carry results from turn to turn. */
module PlanResults {
  import opened Common
  import opened Unicode
  import opened Json
  import Decimal

  const COLON: Code := ':' as int
  const SUGGESTIONS := Lit("_client_suggestions")
  const ERROR := Lit("error")
  const CLIENT_NAME := Lit("client_name")

  /** A plan step that is a dictionary: absent names read as "unknown", absent parameters as an empty dictionary. */
  datatype Call = Call(server: Option<Str>, tool: Option<Str>, parameters: Option<Json>)

  /** Anything else has no `get`; `raised` is the text of the exception. */
  datatype Step = Dict(call: Call) | NotDict(raised: Str)

  function Named(name: Option<Str>): Str {
    if name.Some? then name.value else Lit("unknown")
  }

  /** `f"{server_name}:{tool_name}:{index}"` */
  function Key(call: Call, index: nat): Str {
    Named(call.server) + [COLON] + Named(call.tool) + [COLON] + Lit(Decimal.Decimal(index))
  }

  // ----- Keys -----

  lemma DigitsHaveNoColon(n: nat)
    ensures COLON !in Lit(Decimal.Decimal(n))
  {
    var d := Decimal.Decimal(n);
    forall i | 0 <= i < |d| ensures Lit(d)[i] != COLON {
      assert Decimal.IsDigit(d[i]);
    }
  }

  lemma LitInjective(a: string, b: string)
    requires Lit(a) == Lit(b)
    ensures a == b
  {
    forall i | 0 <= i < |a| ensures a[i] == b[i] {
      assert Lit(a)[i] == Lit(b)[i];
    }
  }

  /** When two colon-terminated texts end differently, the longer ending holds a colon. */
  lemma LongerEnd(a: Str, d: Str, b: Str, e: Str)
    requires a + [COLON] + d == b + [COLON] + e && |d| < |e|
    ensures COLON in e
  {
    var s := b + [COLON] + e;
    assert s[|a|] == (a + [COLON] + d)[|a|] == COLON;
    assert s[|a|] == e[|a| - |b| - 1];
  }

  /** A text with a colon determines what follows its last colon, and what precedes it. */
  lemma {:induction false} LastColon(a: Str, d: Str, b: Str, e: Str)
    requires a + [COLON] + d == b + [COLON] + e && COLON !in d && COLON !in e
    ensures a == b && d == e
  {
    if |d| < |e| {
      LongerEnd(a, d, b, e);
    } else if |e| < |d| {
      LongerEnd(b, e, a, d);
    } else {
      var s := a + [COLON] + d;
      assert s[..|a|] == a && s[..|b|] == b && s[|a| + 1..] == d && s[|b| + 1..] == e;
    }
  }

  /** Two keys are equal if and only if the indices are equal and the names agree once joined with a colon:
      colons inside names never confuse two steps of one plan, but can confuse steps of different turns. */
  lemma {:induction false} KeysEqualIff(c: Call, i: nat, d: Call, j: nat)
    ensures Key(c, i) == Key(d, j) <==>
              i == j && Named(c.server) + [COLON] + Named(c.tool) == Named(d.server) + [COLON] + Named(d.tool)
  {
    DigitsHaveNoColon(i);
    DigitsHaveNoColon(j);
    if Key(c, i) == Key(d, j) {
      LastColon(Named(c.server) + [COLON] + Named(c.tool), Lit(Decimal.Decimal(i)),
                Named(d.server) + [COLON] + Named(d.tool), Lit(Decimal.Decimal(j)));
      LitInjective(Decimal.Decimal(i), Decimal.Decimal(j));
      Decimal.DecimalInjective(i, j);
    }
  }

  lemma KeyHasColon(c: Call, i: nat)
    ensures Key(c, i) != SUGGESTIONS
  {
    var k := Key(c, i);
    assert k[|Named(c.server)|] == COLON;
    assert forall j | 0 <= j < |SUGGESTIONS| :: SUGGESTIONS[j] != COLON;
  }

  // ----- Executing the steps -----

  /** How awaiting the tool ends. */
  datatype Run = Returns(value: Json) | Raises(message: Str) | Cancelled

  /** What `gather` holds for a step. A cancellation is not an `Exception`, so the merge loop passes over it. */
  datatype Ended = Stored(key: Str, value: Json) | Failed(message: Str) | Dropped

  function ErrorValue(message: Str): Json {
    Obj([Field(ERROR, Text(message))])
  }

  /** The tools at hand and what the environment answers: the text for an unknown tool, whether a result says that
      a client was not found, the names a search for similar ones yields, and `str`. */
  datatype World = World(
    available: seq<Str>, unknownTool: Call -> Str, missing: Json -> bool, similar: Json -> seq<Json>, show: Json -> Str)

  /** `execute_step`: an unknown tool and a tool that raises store an error. */
  function Execute(step: Step, index: nat, run: Run, w: World): Ended {
    match step
    case NotDict(raised) => Failed(raised)
    case Dict(c) =>
      if Named(c.tool) !in w.available then Stored(Key(c, index), ErrorValue(w.unknownTool(c)))
      else match run
        case Returns(v) => Stored(Key(c, index), v)
        case Raises(m) => Stored(Key(c, index), ErrorValue(m))
        case Cancelled => Dropped
  }

  function Outcomes(plan: seq<Step>, runs: seq<Run>, w: World): (ended: seq<Ended>)
    requires |plan| == |runs|
    ensures |ended| == |plan|
    ensures forall i | 0 <= i < |plan| :: ended[i] == Execute(plan[i], i, runs[i], w)
  {
    seq(|plan|, i requires 0 <= i < |plan| => Execute(plan[i], i, runs[i], w))
  }

  function Find(fields: seq<Field>, key: Str): Option<Json> {
    if fields == [] then None else if fields[0].key == key then Some(fields[0].value) else Find(fields[1..], key)
  }

  function ErrorOf(v: Json): Option<Json> {
    if v.Obj? then Find(v.fields, ERROR) else None
  }

  /** The error line of one step, if it has one. */
  function ErrorLine(ended: Ended, w: World): seq<Str> {
    match ended
    case Failed(m) => [Lit("mcp_tool_caller: ") + m]
    case Stored(key, v) => if ErrorOf(v).Some? then [key + Lit(": ") + w.show(ErrorOf(v).value)] else []
    case Dropped => []
  }

  function Errors(ended: seq<Ended>, w: World): seq<Str> {
    if ended == [] then [] else Errors(ended[..|ended| - 1], w) + ErrorLine(ended[|ended| - 1], w)
  }

  /** A step leaves neither a result nor an error line exactly when awaiting its tool was cancelled; it is reported
      as an error exactly when its tool is unknown, the tool raised, or the value returned has an error entry. */
  lemma StepReportedIff(c: Call, index: nat, run: Run, w: World)
    ensures var ended := Execute(Dict(c), index, run, w);
            var known := Named(c.tool) in w.available;
            && (ended.Stored? <==> !known || !run.Cancelled?)
            && (ended.Stored? ==> ended.key == Key(c, index))
            && (ended.Stored? && known && run.Returns? ==> ended.value == run.value)
            && (ended.Stored? && known && run.Raises? ==> ErrorOf(ended.value) == Some(Text(run.message)))
            && (!known ==> ErrorOf(ended.value) == Some(Text(w.unknownTool(c))))
            && (ended.Stored? && ErrorOf(ended.value).Some? ==>
                  ErrorLine(ended, w) == [Key(c, index) + Lit(": ") + w.show(ErrorOf(ended.value).value)])
            && (ErrorLine(ended, w) != [] <==> !known || run.Raises? || (run.Returns? && ErrorOf(run.value).Some?))
  {
    hide Key, Lit;
    Reported(w.unknownTool(c));
    if run.Raises? {
      Reported(run.message);
    }
  }

  lemma Reported(message: Str)
    ensures ErrorOf(ErrorValue(message)) == Some(Text(message))
  {
  }

  // ----- The scan for client names -----

  /** The exceptions that leave the node: `get` on something that is not a dictionary, a client name that is not
      hashable, and a similar name that is not a string. */
  datatype Crash = NoGet | Unhashable | NotText

  function ClientName(c: Call): Option<Json> {
    if c.parameters.None? then None
    else if c.parameters.value.Obj? then Find(c.parameters.value.fields, CLIENT_NAME)
    else None
  }

  /** A number is true unless its value is zero. */
  predicate NonZero(lexeme: string) {
    lexeme != "" && lexeme[0] != 'e' && lexeme[0] != 'E' && ('1' <= lexeme[0] <= '9' || NonZero(lexeme[1..]))
  }

  predicate Truthy(v: Json) {
    match v
    case Null => false
    case Bool(b) => b
    case Num(lexeme) => NonZero(lexeme)
    case Text(t) => t != []
    case Arr(items) => items != []
    case Obj(fields) => fields != []
  }

  /** What does not count as true, and some numbers. */
  lemma FalseValues()
    ensures !Truthy(Null) && !Truthy(Bool(false)) && !Truthy(Text([])) && !Truthy(Arr([])) && !Truthy(Obj([]))
    ensures forall v: Json :: !Truthy(v) && !v.Num? ==> v in {Null, Bool(false), Text([]), Arr([]), Obj([])}
    ensures !Truthy(Num("0")) && !Truthy(Num("-0.0")) && !Truthy(Num("0e5")) && Truthy(Num("0.5")) && Truthy(Num("-7"))
  {
    assert "0"[1..] == "" && !NonZero("") && "0e5"[1..] == "e5";
    assert "-0.0"[1..] == "0.0" && "0.0"[1..] == ".0" && ".0"[1..] == "0";
    assert "0.5"[1..] == ".5" && ".5"[1..] == "5" && "-7"[1..] == "7";
  }

  /** The loop that collects the names: the first step that cannot be read ends it. */
  function Scan(plan: seq<Step>): Result<set<Json>, Crash> {
    if plan == [] then Ok({})
    else
      var before := Scan(plan[..|plan| - 1]);
      if before.Err? then before else ScanStep(plan[|plan| - 1], before.value)
  }

  function ScanStep(step: Step, tried: set<Json>): Result<set<Json>, Crash> {
    if step.NotDict? || (step.call.parameters.Some? && !step.call.parameters.value.Obj?) then Err(NoGet)
    else
      var name := ClientName(step.call);
      if name.None? || !Truthy(name.value) then Ok(tried)
      else if name.value.Arr? || name.value.Obj? then Err(Unhashable)
      else Ok(tried + {name.value})
  }

  /** A dictionary, with a dictionary of parameters, whose client name, if there is one and it is true, can be an
      element of a set. */
  predicate Readable(step: Step) {
    && step.Dict?
    && (step.call.parameters.Some? ==> step.call.parameters.value.Obj?)
    && (Names(step) ==> !ClientName(step.call).value.Arr? && !ClientName(step.call).value.Obj?)
  }

  predicate Names(step: Step) {
    step.Dict? && ClientName(step.call).Some? && Truthy(ClientName(step.call).value)
  }

  ghost predicate Tried(plan: seq<Step>, name: Json) {
    exists i | 0 <= i < |plan| :: Names(plan[i]) && ClientName(plan[i].call).value == name
  }

  /** The scan ends without an exception if and only if every step is readable, and then has found exactly the client
      names in the plan. */
  lemma {:induction false} ScanIff(plan: seq<Step>)
    ensures Scan(plan).Ok? <==> forall i | 0 <= i < |plan| :: Readable(plan[i])
    ensures Scan(plan).Ok? ==> forall name :: name in Scan(plan).value <==> Tried(plan, name)
  {
    hide ClientName, Truthy;
    if plan != [] {
      var n := |plan| - 1;
      ScanIff(plan[..n]);
      if Scan(plan).Ok? {
        forall name ensures name in Scan(plan).value <==> Tried(plan, name) {
          TriedNext(plan, name);
        }
      }
    }
  }

  lemma TriedNext(plan: seq<Step>, name: Json)
    requires plan != []
    ensures var n := |plan| - 1;
            Tried(plan, name) <==> Tried(plan[..n], name) || (Names(plan[n]) && ClientName(plan[n].call).value == name)
  {
    var n := |plan| - 1;
    if i :| 0 <= i < n && Names(plan[..n][i]) && ClientName(plan[..n][i].call).value == name {
      assert Names(plan[i]);
    }
    if i :| 0 <= i < |plan| && Names(plan[i]) && ClientName(plan[i].call).value == name {
      assert i < n ==> Names(plan[..n][i]);
    }
  }

  /** So the branch for a step that raised never shows in what the node returns. */
  lemma NothingFailed(plan: seq<Step>, runs: seq<Run>, w: World)
    requires |plan| == |runs| && Scan(plan).Ok?
    ensures forall i | 0 <= i < |plan| :: !Outcomes(plan, runs, w)[i].Failed?
  {
    hide Key;
    ScanIff(plan);
    assert forall i | 0 <= i < |plan| :: Readable(plan[i]);
  }

  // ----- The node -----

  datatype Returned = Returned(results: map<Str, Json>, errors: seq<Str>)

  function StoredCount(ended: seq<Ended>): nat {
    if ended == [] then 0 else StoredCount(ended[..|ended| - 1]) + if ended[|ended| - 1].Stored? then 1 else 0
  }

  /** Key by key, `results` is what the steps stored: one entry each, none lost and none merged. */
  ghost predicate Holds(results: map<Str, Json>, ended: seq<Ended>) {
    && (forall j | 0 <= j < |ended| && ended[j].Stored? ::
          ended[j].key in results && results[ended[j].key] == ended[j].value)
    && (forall k | k in results :: exists j | 0 <= j < |ended| :: ended[j].Stored? && k == ended[j].key)
    && |results| == StoredCount(ended)
  }

  /** There are as many results as steps if and only if every step stored one. */
  lemma HoldsAllIff(results: map<Str, Json>, ended: seq<Ended>)
    requires Holds(results, ended)
    ensures |results| == |ended| <==> forall i | 0 <= i < |ended| :: ended[i].Stored?
  {
    CountAllIff(ended);
  }

  lemma {:induction false} CountAllIff(ended: seq<Ended>)
    ensures StoredCount(ended) <= |ended|
    ensures StoredCount(ended) == |ended| <==> forall i | 0 <= i < |ended| :: ended[i].Stored?
  {
    if ended != [] {
      var n := |ended| - 1;
      CountAllIff(ended[..n]);
      assert forall i | 0 <= i < n :: ended[..n][i] == ended[i];
    }
  }

  lemma HoldsNext(results: map<Str, Json>, ended: seq<Ended>, e: Ended)
    requires Holds(results, ended)
    requires e.Stored? ==> forall j | 0 <= j < |ended| && ended[j].Stored? :: ended[j].key != e.key
    ensures Holds(if e.Stored? then results[e.key := e.value] else results, ended + [e])
  {
    var all := ended + [e];
    assert all[..|ended|] == ended;
    var more := if e.Stored? then results[e.key := e.value] else results;
    if e.Stored? {
      OneKeyMore(results, e.key, e.value);
    }
    forall k | k in more ensures exists j | 0 <= j < |all| :: all[j].Stored? && k == all[j].key {
      if e.Stored? && k == e.key {
        assert all[|ended|] == e;
      } else {
        var j :| 0 <= j < |ended| && ended[j].Stored? && k == ended[j].key;
        assert all[j] == ended[j];
      }
    }
  }

  lemma OneKeyMore<K, V>(results: map<K, V>, key: K, value: V)
    requires key !in results
    ensures |results[key := value]| == |results| + 1
  {
    assert results[key := value].Keys == results.Keys + {key};
    assert |results[key := value]| == |results[key := value].Keys| && |results| == |results.Keys|;
  }

  lemma KeysApart(plan: seq<Step>, runs: seq<Run>, w: World, i: nat, j: nat)
    requires |plan| == |runs| && i < j < |plan|
    ensures var ended := Outcomes(plan, runs, w);
            ended[i].Stored? && ended[j].Stored? ==> ended[i].key != ended[j].key
  {
    hide Key;
    if plan[i].Dict? && plan[j].Dict? {
      KeysEqualIff(plan[i].call, i, plan[j].call, j);
    }
  }

  /** The merge loop: the steps that end with a value store one result each, under keys no other step has. */
  method Merge(plan: seq<Step>, runs: seq<Run>, w: World) returns (results: map<Str, Json>, errors: seq<Str>)
    requires |plan| == |runs|
    ensures errors == Errors(Outcomes(plan, runs, w), w) && Holds(results, Outcomes(plan, runs, w))
  {
    hide Lit, ErrorOf, Holds, Execute;
    var ended := Outcomes(plan, runs, w);
    results, errors := map[], [];
    HoldsNothing();
    var i := 0;
    while i < |ended|
      invariant i <= |ended|
      invariant errors == Errors(ended[..i], w) && Holds(results, ended[..i])
    {
      assert ended[..i + 1] == ended[..i] + [ended[i]];
      forall j | 0 <= j < i ensures ended[i].Stored? && ended[j].Stored? ==> ended[j].key != ended[i].key {
        KeysApart(plan, runs, w, j, i);
      }
      HoldsNext(results, ended[..i], ended[i]);
      ErrorsNext(ended[..i], ended[i], w);
      match ended[i] {
        case Failed(m) =>
          errors := errors + [Lit("mcp_tool_caller: ") + m];
        case Stored(key, v) =>
          results := results[key := v];
          if ErrorOf(v).Some? {
            errors := errors + [key + Lit(": ") + w.show(ErrorOf(v).value)];
          }
        case Dropped =>
      }
      i := i + 1;
    }
    assert ended[..i] == ended;
  }

  lemma ErrorsNext(ended: seq<Ended>, e: Ended, w: World)
    ensures Errors(ended + [e], w) == Errors(ended, w) + ErrorLine(e, w)
  {
    assert (ended + [e])[..|ended|] == ended;
  }

  lemma HoldsNothing()
    ensures Holds(map[], [])
  {
  }

  function Joined(names: seq<Json>): Str
    requires AllText(names)
  {
    if names == [] then []
    else if |names| == 1 then names[0].text else names[0].text + Lit(", ") + Joined(names[1..])
  }

  predicate AllText(names: seq<Json>) {
    forall i | 0 <= i < |names| :: names[i].Text?
  }

  function Suggestion(name: Json, w: World): Json
    requires AllText(w.similar(name))
  {
    var similar := w.similar(name);
    Obj([Field(Lit("searched_name"), name), Field(Lit("suggestions"), Arr(similar)), Field(Lit("message"), Text(
      if similar == [] then
        Lit("Client '") + w.show(name) + Lit("' was not found and no similar names were found in the database.")
      else Lit("Client '") + w.show(name) + Lit("' was not found. Did you mean one of these? ") + Joined(similar)))])
  }

  /** A suggestion carries the name that was searched and the names that were found. */
  lemma SuggestionMeaning(name: Json, w: World)
    requires AllText(w.similar(name))
    ensures Suggestion(name, w).Obj?
    ensures Find(Suggestion(name, w).fields, Lit("searched_name")) == Some(name)
    ensures Find(Suggestion(name, w).fields, Lit("suggestions")) == Some(Arr(w.similar(name)))
  {
    var found := Suggestion(name, w).fields;
    assert |Lit("searched_name")| != |Lit("suggestions")|;
    assert found[1..][0] == Field(Lit("suggestions"), Arr(w.similar(name)));
  }

  /** Some client name was tried and some result says that a client was not found. */
  ghost predicate Searches(plan: seq<Step>, runs: seq<Run>, w: World)
    requires |plan| == |runs|
  {
    (exists i | 0 <= i < |plan| :: Names(plan[i])) && SomeMissing(Outcomes(plan, runs, w), w)
  }

  ghost predicate SomeMissing(ended: seq<Ended>, w: World) {
    exists i | 0 <= i < |ended| :: ended[i].Stored? && w.missing(ended[i].value)
  }

  /** `MCPToolCallerNode.__call__`. It returns if and only if every step can be read and, where a search takes place,
      every similar name is a string; otherwise the results of all steps are lost. What it returns holds one result
      for each step that ended with a value, so one for each step exactly if no await of a known tool was cancelled, and
      the error lines in plan order; suggestions are added exactly after a
      search and never take the place of a result. */
  method CallTools(plan: seq<Step>, runs: seq<Run>, w: World) returns (r: Result<Returned, Crash>)
    requires |plan| == |runs|
    ensures r.Ok? <==>
              && (forall i | 0 <= i < |plan| :: Readable(plan[i]))
              && (Searches(plan, runs, w) ==> forall name | Tried(plan, name) :: AllText(w.similar(name)))
    ensures Scan(plan).Err? ==> r == Err(Scan(plan).error)
    ensures plan == [] ==> r == Ok(Returned(map[], [Lit("mcp_tool_caller: empty query plan")]))
    ensures r.Ok? && plan != [] ==>
              && r.value.errors == Errors(Outcomes(plan, runs, w), w)
              && Holds(r.value.results - {SUGGESTIONS}, Outcomes(plan, runs, w))
              && (SUGGESTIONS in r.value.results <==> Searches(plan, runs, w))
              && (|r.value.results - {SUGGESTIONS}| == |plan| <==>
                    forall i | 0 <= i < |plan| :: Outcomes(plan, runs, w)[i].Stored?)
    ensures r.Ok? && Searches(plan, runs, w) ==> SUGGESTIONS in r.value.results && exists name ::
              && Tried(plan, name) && AllText(w.similar(name)) && r.value.results[SUGGESTIONS] == Suggestion(name, w)
  {
    hide Lit, ErrorOf, Holds, Execute, Errors, Suggestion, Readable, ClientName, AllText;
    if plan == [] {
      return Ok(Returned(map[], [Lit("mcp_tool_caller: empty query plan")]));
    }
    var results, errors := Merge(plan, runs, w);
    HoldsAllIff(results, Outcomes(plan, runs, w));
    ScanIff(plan);
    var scanned := ScanNames(plan);
    if scanned.Err? {
      return Err(scanned.error);
    }
    var tried := scanned.value;
    TriedIff(plan);
    NoSuggestionsYet(results, plan, runs, w);
    var search := false;
    if tried != {} {
      search := exists k | k in results :: w.missing(results[k]);
      MissingIff(results, Outcomes(plan, runs, w), w);
    }
    assert search <==> Searches(plan, runs, w);
    if !search {
      return Ok(Returned(results, errors));
    }
    var suggested := AddSuggestions(results, tried, w);
    if suggested.None? {
      return Err(NotText);
    }
    r := Ok(Returned(suggested.value, errors));
  }

  method ScanNames(plan: seq<Step>) returns (scanned: Result<set<Json>, Crash>)
    ensures scanned == Scan(plan)
  {
    hide ScanStep;
    var tried: set<Json> := {};
    var i := 0;
    while i < |plan|
      invariant i <= |plan| && Scan(plan[..i]) == Ok(tried)
    {
      assert plan[..i + 1][..i] == plan[..i];
      var next := ScanStep(plan[i], tried);
      if next.Err? {
        ScanStops(plan, i + 1);
        return next;
      }
      tried := next.value;
      i := i + 1;
    }
    assert plan[..i] == plan;
    scanned := Ok(tried);
  }

  lemma {:induction false} ScanStops(plan: seq<Step>, i: nat)
    requires i <= |plan| && Scan(plan[..i]).Err?
    ensures Scan(plan) == Scan(plan[..i])
    decreases |plan| - i
  {
    if i < |plan| {
      assert plan[..i + 1][..i] == plan[..i];
      ScanStops(plan, i + 1);
    } else {
      assert plan[..i] == plan;
    }
  }

  lemma TriedIff(plan: seq<Step>)
    ensures (exists name :: Tried(plan, name)) <==> exists i | 0 <= i < |plan| :: Names(plan[i])
  {
    hide ClientName, Truthy;
    if i :| 0 <= i < |plan| && Names(plan[i]) {
      TriedAt(plan, i);
    }
    if name :| Tried(plan, name) {
      var i :| 0 <= i < |plan| && Names(plan[i]) && ClientName(plan[i].call).value == name;
      assert Names(plan[i]);
    }
  }

  lemma TriedAt(plan: seq<Step>, i: nat)
    requires i < |plan| && Names(plan[i])
    ensures Tried(plan, ClientName(plan[i].call).value)
  {
  }

  lemma MissingIff(results: map<Str, Json>, ended: seq<Ended>, w: World)
    requires Holds(results, ended)
    ensures (exists k | k in results :: w.missing(results[k])) <==> SomeMissing(ended, w)
  {
    if k :| k in results && w.missing(results[k]) {
      var j :| 0 <= j < |ended| && ended[j].Stored? && k == ended[j].key;
      assert w.missing(ended[j].value);
    }
    if j :| 0 <= j < |ended| && ended[j].Stored? && w.missing(ended[j].value) {
      assert ended[j].key in results;
    }
  }

  lemma NoSuggestionsYet(results: map<Str, Json>, plan: seq<Step>, runs: seq<Run>, w: World)
    requires |plan| == |runs| && Holds(results, Outcomes(plan, runs, w))
    ensures SUGGESTIONS !in results && results - {SUGGESTIONS} == results
  {
    hide Key;
    if SUGGESTIONS in results {
      var ended := Outcomes(plan, runs, w);
      var j :| 0 <= j < |ended| && ended[j].Stored? && SUGGESTIONS == ended[j].key;
      KeyHasColon(plan[j].call, j);
    }
  }

  /** The names are a set, so they come in any order and the last one stays. */
  method AddSuggestions(before: map<Str, Json>, tried: set<Json>, w: World) returns (after: Option<map<Str, Json>>)
    requires SUGGESTIONS !in before && tried != {}
    ensures after.Some? <==> forall name | name in tried :: AllText(w.similar(name))
    ensures after.Some? ==>
              && SUGGESTIONS in after.value && after.value - {SUGGESTIONS} == before
              && exists name ::
                   name in tried && AllText(w.similar(name)) && after.value[SUGGESTIONS] == Suggestion(name, w)
  {
    hide Suggestion, AllText;
    var results, todo := before, tried;
    while todo != {}
      invariant todo <= tried && (todo == tried || SUGGESTIONS in results)
      invariant results - {SUGGESTIONS} == before
      invariant forall name | name in tried - todo :: AllText(w.similar(name))
      invariant SUGGESTIONS in results ==> exists name ::
                  name in tried && AllText(w.similar(name)) && results[SUGGESTIONS] == Suggestion(name, w)
      decreases |todo|
    {
      var name :| name in todo;
      if !AllText(w.similar(name)) {
        return None;
      }
      results := results[SUGGESTIONS := Suggestion(name, w)];
      todo := todo - {name};
    }
    after := Some(results);
  }

  /** A client name given as a list passes for a step: its tool runs and its result is stored. But the scan then
      raises, so the node returns nothing. */
  lemma ListValuedName(tool: Str, value: Json, w: World)
    requires tool in w.available
    ensures var names := Field(CLIENT_NAME, Arr([Text(Lit("Acme"))]));
            var step := Dict(Call(None, Some(tool), Some(Obj([names]))));
            && Outcomes([step], [Returns(value)], w)[0].Stored?
            && Scan([step]) == Err(Unhashable) && !Readable(step)
  {
    hide Lit, Key;
    var names := Field(CLIENT_NAME, Arr([Text(Lit("Acme"))]));
    var step := Dict(Call(None, Some(tool), Some(Obj([names]))));
    assert ClientName(step.call) == Some(names.value);
    assert [step][..0] == [];
  }

  // ----- From turn to turn -----

  type Context = map<Str, Json>

  /** A reducer reads a missing context as an empty one. */
  function OrEmpty(c: Option<Context>): Context {
    if c.Some? then c.value else map[]
  }

  method MergeDataContext(before: Option<Context>, after: Option<Context>) returns (merged: Context,
                          collisions: set<Str>)
    ensures merged == OrEmpty(before) + OrEmpty(after)
    ensures collisions == OrEmpty(before).Keys * OrEmpty(after).Keys
  {
    merged, collisions := MergeMaps(OrEmpty(before), OrEmpty(after));
  }

  method MergeMaps<K, V>(before: map<K, V>, after: map<K, V>) returns (merged: map<K, V>, collisions: set<K>)
    ensures merged == before + after
    ensures collisions == before.Keys * after.Keys
  {
    hide MergedOver;
    merged, collisions := before, {};
    var todo := after.Keys;
    NoneMerged(before, after);
    while todo != {}
      invariant todo <= after.Keys
      invariant MergedOver(merged, collisions, before, after, todo)
      decreases |todo|
    {
      var k :| k in todo;
      OneMore(merged, collisions, before, after, todo, k);
      if k in merged {
        collisions := collisions + {k};
      }
      merged := merged[k := after[k]];
      todo := todo - {k};
    }
    AllMerged(merged, collisions, before, after);
  }

  /** The keys of `after` but those in `todo` have been written over `before`. */
  ghost predicate MergedOver<K, V>(merged: map<K, V>, collisions: set<K>, before: map<K, V>, after: map<K, V>,
                                   todo: set<K>) {
    merged == before + (after - todo) && collisions == before.Keys * (after.Keys - todo)
  }

  lemma NoneMerged<K, V>(before: map<K, V>, after: map<K, V>)
    ensures MergedOver(before, {}, before, after, after.Keys)
  {
    assert after - after.Keys == map[];
  }

  lemma AllMerged<K, V>(merged: map<K, V>, collisions: set<K>, before: map<K, V>, after: map<K, V>)
    requires MergedOver(merged, collisions, before, after, {})
    ensures merged == before + after && collisions == before.Keys * after.Keys
  {
    assert after - {} == after;
  }

  lemma OneMore<K, V>(merged: map<K, V>, collisions: set<K>, before: map<K, V>, after: map<K, V>, todo: set<K>, k: K)
    requires MergedOver(merged, collisions, before, after, todo) && k in todo && todo <= after.Keys
    ensures MergedOver(merged[k := after[k]], if k in merged then collisions + {k}
                       else collisions, before, after, todo - {k})
  {
    assert after - (todo - {k}) == (after - todo)[k := after[k]];
    assert after.Keys - (todo - {k}) == (after.Keys - todo) + {k};
    assert k in merged <==> k in before;
  }

  function MergeErrors(left: seq<Str>, right: seq<Str>): seq<Str> {
    left + right
  }

  /** What a node returns in one turn. */
  datatype Update = Update(context: Context, errors: seq<Str>)

  datatype Session = Session(context: Context, errors: seq<Str>)

  function After(s: Session, turns: seq<Update>): Session {
    if turns == [] then s
    else
      var before := After(s, turns[..|turns| - 1]);
      var u := turns[|turns| - 1];
      Session(before.context + u.context, MergeErrors(before.errors, u.errors))
  }

  /** The last turn that writes the key writes this value. */
  ghost predicate LastWrite(turns: seq<Update>, key: Str, value: Json) {
    exists i | 0 <= i < |turns| :: Writes(turns[i], key, value) && NoWriteFrom(turns, i + 1, key)
  }

  ghost predicate Writes(u: Update, key: Str, value: Json) {
    Has(u.context, key, value)
  }

  ghost predicate Has(c: Context, key: Str, value: Json) {
    key in c && c[key] == value
  }

  ghost predicate NoWriteFrom(turns: seq<Update>, from: nat, key: Str) {
    forall j | from <= j < |turns| :: key !in turns[j].context
  }

  /** One more turn: the key's last write is the new turn's, or the one it had. */
  lemma LastWriteNext(turns: seq<Update>, u: Update, key: Str, value: Json)
    ensures LastWrite(turns + [u], key, value) <==>
              if key in u.context then u.context[key] == value else LastWrite(turns, key, value)
    ensures NoWriteFrom(turns + [u], 0, key) <==> NoWriteFrom(turns, 0, key) && key !in u.context
  {
    var all := turns + [u];
    assert all[|turns|] == u;
    assert forall j | 0 <= j < |turns| :: all[j] == turns[j];
    if key in u.context {
      if u.context[key] == value {
        assert Writes(all[|turns|], key, value) && NoWriteFrom(all, |turns| + 1, key);
      }
    } else {
      if i :| 0 <= i < |turns| && Writes(turns[i], key, value) && NoWriteFrom(turns, i + 1, key) {
        assert Writes(all[i], key, value) && NoWriteFrom(all, i + 1, key);
      }
      if i :| 0 <= i < |all| && Writes(all[i], key, value) && NoWriteFrom(all, i + 1, key) {
        assert Writes(turns[i], key, value) && NoWriteFrom(turns, i + 1, key);
      }
    }
  }

  /** Over any number of turns every key holds the last value written, or the initial one if no turn wrote it. */
  lemma {:induction false} LastWriteWins(s: Session, turns: seq<Update>, key: Str, value: Json)
    ensures Has(After(s, turns).context, key, value) <==>
              LastWrite(turns, key, value) || (NoWriteFrom(turns, 0, key) && Has(s.context, key, value))
  {
    hide LastWrite, NoWriteFrom;
    if turns == [] {
      NoTurns(key, value);
    } else {
      var n := |turns| - 1;
      assert turns == turns[..n] + [turns[n]];
      LastWriteWins(s, turns[..n], key, value);
      LastWriteNext(turns[..n], turns[n], key, value);
    }
  }

  lemma NoTurns(key: Str, value: Json)
    ensures !LastWrite([], key, value) && NoWriteFrom([], 0, key)
  {
  }

  /** No key disappears, and the error list only grows at the end, by what each turn reports. */
  lemma {:induction false} OnlyGrows(s: Session, turns: seq<Update>)
    ensures s.context.Keys <= After(s, turns).context.Keys
    ensures s.errors <= After(s, turns).errors
    ensures After(s, turns).errors == s.errors + AllErrors(turns)
  {
    KeysGrow(s, turns);
    ErrorsGrow(s, turns);
  }

  lemma {:induction false} KeysGrow(s: Session, turns: seq<Update>)
    ensures s.context.Keys <= After(s, turns).context.Keys
  {
    if turns != [] {
      KeysGrow(s, turns[..|turns| - 1]);
    }
  }

  lemma {:induction false} ErrorsGrow(s: Session, turns: seq<Update>)
    ensures After(s, turns).errors == s.errors + AllErrors(turns)
  {
    if turns != [] {
      var n := |turns| - 1;
      ErrorsGrow(s, turns[..n]);
      Assoc(s.errors, AllErrors(turns[..n]), turns[n].errors);
    } else {
      assert s.errors + [] == s.errors;
    }
  }

  /** What the turns report, in order. */
  function AllErrors(turns: seq<Update>): seq<Str> {
    if turns == [] then [] else AllErrors(turns[..|turns| - 1]) + turns[|turns| - 1].errors
  }

  /** Turns can be grouped at will. */
  lemma {:induction false} TurnsCompose(s: Session, a: seq<Update>, b: seq<Update>)
    ensures After(s, a + b) == After(After(s, a), b)
  {
    if b == [] {
      assert a + b == a;
    } else {
      assert (a + b)[..|a + b| - 1] == a + b[..|b| - 1];
      TurnsCompose(s, a, b[..|b| - 1]);
    }
  }
}
