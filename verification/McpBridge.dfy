/** `MCPToolBridge` of platform_sdk/mcp_bridge.py. Every await is a step: the reconnect loop, `connect`,
    `disconnect` and tool calls interleave freely, and the environment decides how each await ends. Nothing
    stops a caller from connecting twice, so the model holds any number of loops. */
module McpBridge {
  import opened Common

  /** How an await ends: normally, with an `Exception`, with a `CancelledError`, or with another
      `BaseException`. Leaving the exit stack can also end normally and suppress the exception that is passing. */
  datatype Result = Normal | Suppressed | Error | Cancelled | Fatal

  predicate Raised(r: Result) {
    r.Error? || r.Cancelled? || r.Fatal?
  }

  /** Where a reconnect loop is suspended. `Holding` waits on the stop event with the given number; `Closing`
      leaves the exit stack, carrying how the body ended. `clean` says that a `disconnect` which awaits the loop
      comes back from the await. */
  datatype Point =
    | Created
    | OpeningStream
    | EnteringSession
    | Initializing
    | Holding(event: nat)
    | Closing(body: Result)
    | Sleeping(delay: nat, elapsed: nat)
    | Finished(clean: bool)

  /** Outcomes of connection attempts, oldest first: a session came up, an attempt ended in an exception, or in one
      that the exit stack suppressed. */
  datatype Mark = Connected | Lost | Hidden

  datatype Loop = Loop(at: Point, failures: nat, marks: seq<Mark>, attempts: nat, slept: nat)

  /** `session` names the loop and the attempt that set it. */
  datatype Session = Session(loop: nat, attempt: nat)

  /** `events` are the stop events created so far; `waiting` are the loops that calls of `disconnect` await. */
  datatype Bridge = Bridge(
    session: Option<Session>,
    events: seq<bool>,
    stopEvent: Option<nat>,
    bgTask: Option<nat>,
    loops: seq<Loop>,
    waiting: seq<nat>)

  const IDLE := Bridge(None, [], None, None, [], [])

  function Pow2(n: nat): nat {
    if n == 0 then 1 else 2 * Pow2(n - 1)
  }

  /** `min(2 ** consecutive_failures, 60)` */
  function Delay(failures: nat): nat {
    Min(Pow2(failures), 60)
  }

  predicate StopSet(b: Bridge) {
    b.stopEvent.Some? && b.stopEvent.value < |b.events| && b.events[b.stopEvent.value]
  }

  /** The head of the outer loop. */
  function Head(b: Bridge, l: Loop): Loop {
    if StopSet(b) then l.(at := Finished(true)) else l.(at := OpeningStream, attempts := l.attempts + 1)
  }

  /** The head of the sleeping loop. */
  function Sleep(b: Bridge, l: Loop, delay: nat, elapsed: nat): Loop {
    if elapsed < delay && !StopSet(b) then l.(at := Sleeping(delay, elapsed)) else Head(b, l)
  }

  function BackOff(b: Bridge, l: Loop): Loop {
    if StopSet(b) then l.(at := Finished(true)) else Sleep(b, l.(slept := 0), Delay(l.failures), 0)
  }

  /** After the exit stack: the handlers and the way to the back-off. */
  function Left(b: Bridge, l: Loop, end: Result): Loop {
    match end
    case Normal | Suppressed => BackOff(b, l)
    case Error => BackOff(b, l.(failures := l.failures + 1, marks := l.marks + [Lost]))
    case Cancelled => l.(at := Finished(true))
    case Fatal => l.(at := Finished(false))
  }

  /** How leaving the exit stack ends, and the loop with a suppressed exception noted. */
  function Ending(body: Result, r: Result): Result {
    if r.Normal? then body else if r.Suppressed? then Normal else r
  }

  function Noted(l: Loop, body: Result, r: Result): Loop {
    if Raised(body) && r.Suppressed? then l.(marks := l.marks + [Hidden]) else l
  }

  datatype Event =
    | Connect
    | Disconnect
    | DisconnectResumes(call: nat)
    | DisconnectCancelled(call: nat)
    | Resume(loop: nat, result: Result)

  function With(b: Bridge, i: nat, l: Loop): Bridge
    requires i < |b.loops|
  {
    b.(loops := b.loops[i := l])
  }

  /** A loop resumes. Resuming normally from the stop event needs the event to be set. */
  function Resumed(b: Bridge, i: nat, r: Result): Bridge
    requires i < |b.loops|
  {
    var l := b.loops[i];
    match l.at
    case Created => With(b, i, if Raised(r) then l.(at := Finished(r.Error?)) else Head(b, l))
    case OpeningStream => With(b, i, l.(at := if Raised(r) then Closing(r) else EnteringSession))
    case EnteringSession =>
      if Raised(r) then With(b, i, l.(at := Closing(r)))
      else With(b, i, l.(at := Initializing)).(session := Some(Session(i, l.attempts)))
    case Initializing =>
      if Raised(r) then With(b, i, l.(at := Closing(r)))
      else if b.stopEvent.None? then b
      else With(b, i, l.(at := Holding(b.stopEvent.value), failures := 0, marks := l.marks + [Connected]))
    case Holding(e) =>
      if Raised(r) then With(b, i, l.(at := Closing(r)))
      else if e < |b.events| && b.events[e] then With(b, i, l.(at := Closing(Normal)))
      else b
    case Closing(body) => With(b, i, Left(b, Noted(l, body, r), Ending(body, r))).(session := None)
    case Sleeping(delay, elapsed) =>
      if Raised(r) then With(b, i, l.(at := Finished(r.Error?)))
      else With(b, i, Sleep(b, l.(slept := l.slept + Max(Min(1, delay - elapsed), 0)), delay, elapsed + 1))
    case Finished(_) => b
  }

  predicate Unfinished(b: Bridge) {
    b.bgTask.Some? && b.bgTask.value < |b.loops| && !b.loops[b.bgTask.value].at.Finished?
  }

  function StopSignalled(b: Bridge): Bridge {
    if b.stopEvent.Some? && b.stopEvent.value < |b.events| then b.(events := b.events[b.stopEvent.value := true]) else b
  }

  /** A pending `disconnect` goes on when its loop has ended: it clears the task, unless the await raised. */
  predicate Awaited(b: Bridge, call: nat) {
    call < |b.waiting| && b.waiting[call] < |b.loops| && b.loops[b.waiting[call]].at.Finished?
  }

  function Step(b: Bridge, e: Event): Bridge {
    match e
    case Connect =>
      Bridge(b.session, b.events + [false], Some(|b.events|), Some(|b.loops|), b.loops + [Loop(Created, 0, [], 0, 0)],
             b.waiting)
    case Disconnect =>
      if Unfinished(b) then StopSignalled(b).(waiting := b.waiting + [b.bgTask.value])
      else StopSignalled(b).(bgTask := None)
    case DisconnectResumes(call) =>
      if !Awaited(b, call) then b
      else
        var rest := b.(waiting := b.waiting[..call] + b.waiting[call + 1..]);
        if b.loops[b.waiting[call]].at.clean then rest.(bgTask := None) else rest
    case DisconnectCancelled(call) =>
      if !Awaited(b, call) then b else b.(waiting := b.waiting[..call] + b.waiting[call + 1..])
    case Resume(i, r) => if i < |b.loops| then Resumed(b, i, r) else b
  }

  /** The event lets a call of `disconnect` return. */
  predicate Returns(b: Bridge, e: Event) {
    || (e.Disconnect? && !Unfinished(b))
    || (e.DisconnectResumes? && Awaited(b, e.call) && b.loops[b.waiting[e.call]].at.clean)
  }

  function Run(b: Bridge, es: seq<Event>): Bridge
    decreases |es|
  {
    if es == [] then b else Run(Step(b, es[0]), es[1..])
  }

  class MCPToolBridge {
    var session: Option<Session>
    var events: seq<bool>
    var stopEvent: Option<nat>
    var bgTask: Option<nat>
    var loops: seq<Loop>
    var waiting: seq<nat>

    function State(): Bridge
      reads this
    {
      Bridge(session, events, stopEvent, bgTask, loops, waiting)
    }

    constructor ()
      ensures State() == IDLE
    {
      session, events, stopEvent, bgTask, loops, waiting := None, [], None, None, [], [];
    }

    method Connect()
      modifies this
      ensures State() == Step(old(State()), Event.Connect)
    {
      stopEvent := Some(|events|);
      events := events + [false];
      bgTask := Some(|loops|);
      loops := loops + [Loop(Created, 0, [], 0, 0)];
    }

    method Disconnect() returns (returned: bool)
      modifies this
      ensures State() == Step(old(State()), Event.Disconnect)
      ensures returned <==> Returns(old(State()), Event.Disconnect)
    {
      if stopEvent.Some? && stopEvent.value < |events| {
        events := events[stopEvent.value := true];
      }
      if bgTask.Some? && bgTask.value < |loops| && !loops[bgTask.value].at.Finished? {
        waiting := waiting + [bgTask.value];
        return false;
      }
      bgTask := None;
      returned := true;
    }

    method ResumeDisconnect(call: nat) returns (returned: bool)
      modifies this
      ensures State() == Step(old(State()), DisconnectResumes(call))
      ensures returned <==> Returns(old(State()), DisconnectResumes(call))
    {
      returned := false;
      if call < |waiting| && waiting[call] < |loops| && loops[waiting[call]].at.Finished? {
        if loops[waiting[call]].at.clean {
          bgTask := None;
          returned := true;
        }
        waiting := waiting[..call] + waiting[call + 1..];
      }
    }

    /** The caller of a pending `disconnect` is cancelled after the awaited loop has ended: nothing is cleared. Before
        that the cancellation goes to the loop, as one more way its await may end. */
    method CancelDisconnect(call: nat)
      modifies this
      ensures State() == Step(old(State()), DisconnectCancelled(call))
    {
      if call < |waiting| && waiting[call] < |loops| && loops[waiting[call]].at.Finished? {
        waiting := waiting[..call] + waiting[call + 1..];
      }
    }

    /** One stretch of `_reconnect_loop` between two awaits. */
    method ResumeLoop(i: nat, r: Result)
      requires i < |loops|
      modifies this
      ensures State() == Step(old(State()), Resume(i, r))
    {
      var l := loops[i];
      match l.at
      case Created =>
        loops := loops[i := if Raised(r) then l.(at := Finished(r.Error?)) else Head(State(), l)];
      case OpeningStream =>
        loops := loops[i := l.(at := if Raised(r) then Closing(r) else EnteringSession)];
      case EnteringSession =>
        if Raised(r) {
          loops := loops[i := l.(at := Closing(r))];
        } else {
          session := Some(Session(i, l.attempts));
          loops := loops[i := l.(at := Initializing)];
        }
      case Initializing =>
        if Raised(r) {
          loops := loops[i := l.(at := Closing(r))];
        } else if stopEvent.Some? {
          loops := loops[i := l.(at := Holding(stopEvent.value), failures := 0, marks := l.marks + [Connected])];
        }
      case Holding(e) =>
        if Raised(r) {
          loops := loops[i := l.(at := Closing(r))];
        } else if e < |events| && events[e] {
          loops := loops[i := l.(at := Closing(Normal))];
        }
      case Closing(body) =>
        loops := loops[i := Left(State(), Noted(l, body, r), Ending(body, r))];
        session := None;
      case Sleeping(delay, elapsed) =>
        if Raised(r) {
          loops := loops[i := l.(at := Finished(r.Error?))];
        } else {
          var slice := Max(Min(1, delay - elapsed), 0);
          loops := loops[i := Sleep(State(), l.(slept := l.slept + slice), delay, elapsed + 1)];
        }
      case Finished(_) =>
    }
  }

  lemma {:induction false} RunSplit(b: Bridge, a: seq<Event>, c: seq<Event>)
    ensures Run(b, a + c) == Run(Run(b, a), c)
    decreases |a|
  {
    if a == [] {
      assert a + c == c;
    } else {
      assert (a + c)[1..] == a[1..] + c;
      RunSplit(Step(b, a[0]), a[1..], c);
    }
  }

  lemma RunLast(es: seq<Event>)
    requires es != []
    ensures Run(IDLE, es) == Step(Run(IDLE, es[..|es| - 1]), es[|es| - 1])
  {
    hide Step;
    var n := |es| - 1;
    assert es == es[..n] + [es[n]];
    RunSplit(IDLE, es[..n], [es[n]]);
    var b := Run(IDLE, es[..n]);
    assert Run(b, [es[n]]) == Run(Step(b, es[n]), []);
  }

  // ----- What every run keeps -----

  /** Exceptions that the handler saw since a session last came up. */
  function LostStreak(marks: seq<Mark>): nat {
    if marks == [] || marks[|marks| - 1].Connected? then 0
    else LostStreak(marks[..|marks| - 1]) + if marks[|marks| - 1].Lost? then 1 else 0
  }

  predicate InAttempt(p: Point) {
    p.Initializing? || p.Holding? || p.Closing?
  }

  predicate LoopFine(l: Loop) {
    && l.failures == LostStreak(l.marks)
    && (l.at.Sleeping? ==> l.at.delay == Delay(l.failures) && l.at.elapsed < l.at.delay && l.slept == l.at.elapsed)
  }

  /** The session is that of a live attempt of some loop. */
  predicate SessionLive(b: Bridge) {
    b.session.Some? ==>
      && b.session.value.loop < |b.loops|
      && b.session.value.attempt == b.loops[b.session.value.loop].attempts
      && InAttempt(b.loops[b.session.value.loop].at)
  }

  ghost predicate AnyInv(b: Bridge) {
    SessionLive(b) && forall i | 0 <= i < |b.loops| :: LoopFine(b.loops[i])
  }

  lemma {:induction false} StreakStep(marks: seq<Mark>)
    ensures LostStreak(marks + [Lost]) == LostStreak(marks) + 1
    ensures LostStreak(marks + [Connected]) == 0
    ensures LostStreak(marks + [Hidden]) == LostStreak(marks)
  {
    assert (marks + [Lost])[..|marks|] == (marks + [Hidden])[..|marks|] == marks;
  }

  lemma {:induction false} PowPositive(n: nat)
    ensures Pow2(n) >= 1
  {
    if n > 0 {
      PowPositive(n - 1);
    }
  }

  lemma Slice(delay: nat, elapsed: nat)
    requires elapsed < delay
    ensures Max(Min(1, delay - elapsed), 0) == 1
  {
  }

  lemma {:induction false} BackOffFine(b: Bridge, l: Loop)
    requires l.failures == LostStreak(l.marks)
    ensures LoopFine(BackOff(b, l))
  {
    PowPositive(l.failures);
  }

  lemma {:induction false} SleepFine(b: Bridge, l: Loop, delay: nat, elapsed: nat)
    requires LoopFine(l) && l.at == Sleeping(delay, elapsed)
    ensures LoopFine(Sleep(b, l.(slept := l.slept + Max(Min(1, delay - elapsed), 0)), delay, elapsed + 1))
  {
    Slice(delay, elapsed);
  }

  lemma {:induction false} LeftFine(b: Bridge, l: Loop, body: Result, r: Result)
    requires l.failures == LostStreak(l.marks)
    ensures LoopFine(Left(b, Noted(l, body, r), Ending(body, r)))
  {
    hide Pow2, Delay, BackOff;
    StreakStep(l.marks);
    var noted := Noted(l, body, r);
    StreakStep(noted.marks);
    BackOffFine(b, noted);
    BackOffFine(b, noted.(failures := noted.failures + 1, marks := noted.marks + [Lost]));
  }

  lemma {:induction false} ResumedFine(b: Bridge, i: nat, r: Result)
    requires i < |b.loops| && LoopFine(b.loops[i])
    ensures LoopFine(Resumed(b, i, r).loops[i])
  {
    hide Pow2, Delay, Min, Max, LostStreak, Left, Sleep;
    var l := b.loops[i];
    match l.at
    case Initializing => StreakStep(l.marks);
    case Closing(body) => LeftFine(b, l, body, r);
    case Sleeping(delay, elapsed) => SleepFine(b, l, delay, elapsed);
    case _ =>
  }

  lemma {:induction false} AnyResumeKeeps(b: Bridge, i: nat, r: Result)
    requires AnyInv(b) && i < |b.loops|
    ensures AnyInv(Resumed(b, i, r))
  {
    hide LoopFine, Left, Sleep, Max, Min;
    ResumedFine(b, i, r);
  }

  lemma {:induction false} AnyRunKeeps(b: Bridge, es: seq<Event>)
    requires AnyInv(b)
    ensures AnyInv(Run(b, es))
    decreases |es|
  {
    hide Resumed;
    if es != [] {
      var e := es[0];
      if e.Resume? && e.loop < |b.loops| {
        AnyResumeKeeps(b, e.loop, e.result);
      }
      AnyRunKeeps(Step(b, e), es[1..]);
    }
  }

  /** In every interleaving, however often anyone connects, a session is there only inside a live attempt of the
      loop that set it. */
  lemma {:induction false} SessionOnlyInLiveAttempt(es: seq<Event>)
    ensures var b := Run(IDLE, es);
            b.session.Some? ==>
              && b.session.value.loop < |b.loops|
              && b.session.value.attempt == b.loops[b.session.value.loop].attempts
              && InAttempt(b.loops[b.session.value.loop].at)
  {
    AnyRunKeeps(IDLE, es);
  }

  // ----- When a session is usable -----

  /** The event lets `initialize()` of this session's attempt return. */
  predicate Initializes(b: Bridge, e: Event, s: Session) {
    && e.Resume? && e.loop == s.loop < |b.loops| && !Raised(e.result) && b.stopEvent.Some?
    && b.loops[s.loop].at.Initializing? && b.loops[s.loop].attempts == s.attempt
  }

  ghost predicate InitializeReturned(es: seq<Event>, s: Session) {
    exists k | 0 <= k < |es| :: Initializes(Run(IDLE, es[..k]), es[k], s)
  }

  /** Where a loop stands before `initialize()` has returned. */
  predicate Early(p: Point) {
    p.OpeningStream? || p.EnteringSession? || p.Initializing?
  }

  lemma ReturnedNext(es: seq<Event>, s: Session)
    requires es != []
    ensures var before := es[..|es| - 1];
            InitializeReturned(es, s) <==>
              InitializeReturned(before, s) || Initializes(Run(IDLE, before), es[|es| - 1], s)
  {
    hide Run, Initializes;
    var n := |es| - 1;
    var before := es[..n];
    if k :| 0 <= k < n && Initializes(Run(IDLE, before[..k]), before[k], s) {
      assert es[..k] == before[..k] && es[k] == before[k];
    }
    if k :| 0 <= k < |es| && Initializes(Run(IDLE, es[..k]), es[k], s) {
      if k < n {
        assert es[..k] == before[..k] && es[k] == before[k];
      }
    }
  }

  /** The attempts whose `initialize()` has returned: none after the current one, not the current one while it is
      early, and the current one while it holds. */
  lemma {:induction false} ReturnedAttempts(es: seq<Event>, i: nat, a: nat)
    ensures var b := Run(IDLE, es);
            && (InitializeReturned(es, Session(i, a)) ==>
                  i < |b.loops| && a <= b.loops[i].attempts && (Early(b.loops[i].at) ==> a < b.loops[i].attempts))
            && (i < |b.loops| && b.loops[i].at.Holding? ==> InitializeReturned(es, Session(i, b.loops[i].attempts)))
  {
    if es != [] {
      var before, e := es[..|es| - 1], es[|es| - 1];
      var b := Run(IDLE, before);
      ReturnedAttempts(before, i, a);
      RunLast(es);
      ReturnedNext(es, Session(i, a));
      AttemptStep(b, e, i);
      if i < |b.loops| {
        ReturnedNext(es, Session(i, b.loops[i].attempts));
      }
    }
  }

  lemma {:induction false} LeftAttempts(b: Bridge, l: Loop, body: Result, r: Result)
    ensures var m := Left(b, Noted(l, body, r), Ending(body, r));
            l.attempts <= m.attempts && (Early(m.at) ==> m.attempts > l.attempts) && !m.at.Holding?
  {
    hide Delay;
  }

  /** What one event does to one loop, as far as attempts go. */
  lemma {:induction false} AttemptStep(b: Bridge, e: Event, i: nat)
    ensures |b.loops| <= |Step(b, e).loops|
    ensures i < |b.loops| ==>
              var l, m := b.loops[i], Step(b, e).loops[i];
              && l.attempts <= m.attempts
              && (Early(m.at) && !Early(l.at) ==> m.attempts > l.attempts)
              && (Early(m.at) && m.attempts == l.attempts ==> !Initializes(b, e, Session(i, l.attempts)))
              && (m.at.Holding? ==>
                    m.attempts == l.attempts && (l.at.Holding? || Initializes(b, e, Session(i, l.attempts))))
    ensures |b.loops| <= i < |Step(b, e).loops| ==> Step(b, e).loops[i].at == Created
  {
    hide Delay, Min, Max, Left, StopSet;
    if e.Resume? && e.loop == i < |b.loops| {
      var l := b.loops[i];
      if l.at.Closing? {
        LeftAttempts(b, l, l.at.body, e.result);
      }
    }
  }

  /** `is_connected` is there to say that tools can be called. In every run, when it is true, the loop is holding
      the connection if and only if `initialize()` of this very attempt has returned and the connection is not being
      closed; in particular it is true too early, while the session is still initializing. */
  lemma {:induction false} ConnectedUsableIff(es: seq<Event>)
    requires Run(IDLE, es).session.Some?
    ensures var b := Run(IDLE, es);
            var s := b.session.value;
            && s.loop < |b.loops|
            && (b.loops[s.loop].at.Holding? <==> InitializeReturned(es, s) && !b.loops[s.loop].at.Closing?)
            && (b.loops[s.loop].at.Initializing? ==> !InitializeReturned(es, s))
  {
    hide Run, InitializeReturned;
    SessionOnlyInLiveAttempt(es);
    var s := Run(IDLE, es).session.value;
    ReturnedAttempts(es, s.loop, s.attempt);
  }

  /** A run that ends connected but not initialized. */
  lemma ConnectedTooEarly()
    ensures var b := Run(IDLE, [Connect, Resume(0, Normal), Resume(0, Normal), Resume(0, Normal)]);
            b.session == Some(Session(0, 1)) && |b.loops| == 1 && b.loops[0].at.Initializing?
  {
    var b1 := Bridge(None, [false], Some(0), Some(0), [Loop(Created, 0, [], 0, 0)], []);
    var b2 := b1.(loops := [Loop(OpeningStream, 0, [], 1, 0)]);
    var b3 := b1.(loops := [Loop(EnteringSession, 0, [], 1, 0)]);
    var b4 := b1.(session := Some(Session(0, 1)), loops := [Loop(Initializing, 0, [], 1, 0)]);
    assert Step(IDLE, Connect) == b1 && Step(b1, Resume(0, Normal)) == b2 && Step(b2, Resume(0, Normal)) == b3;
    assert Step(b3, Resume(0, Normal)) == b4;
    assert Run(b3, [Resume(0, Normal)]) == Run(b4, []) == b4;
    assert Run(b2, [Resume(0, Normal), Resume(0, Normal)]) == b4;
    assert Run(b1, [Resume(0, Normal), Resume(0, Normal), Resume(0, Normal)]) == b4;
  }

  // ----- Invariants of disciplined use -----

  /** What a caller can check before `connect`: the last loop has ended, and no pending `disconnect` awaits a loop
      that ended cleanly. */
  predicate MayConnect(b: Bridge) {
    !Unfinished(b) && forall w | w in b.waiting :: w < |b.loops| ==> b.loops[w].at != Finished(true)
  }

  ghost predicate Disciplined(b: Bridge, es: seq<Event>)
    decreases |es|
  {
    es != [] ==> (es[0].Connect? ==> MayConnect(b)) && Disciplined(Step(b, es[0]), es[1..])
  }

  /** The newest loop and the session, in a bridge with `n` loops. */
  predicate NewestFine(b: Bridge, l: Loop, session: Option<Session>) {
    var n := |b.loops|;
    && (session.Some? ==> n > 0 && session.value == Session(n - 1, l.attempts) && InAttempt(l.at))
    && (l.at.Holding? ==> l.at.event == n - 1)
    && (l.at == Closing(Normal) || l.at == Closing(Suppressed) ==> StopSet(b))
    && (l.at.Sleeping? ==> l.marks != [] && !l.marks[|l.marks| - 1].Connected?)
  }

  ghost predicate Inv(b: Bridge) {
    var n := |b.loops|;
    && |b.events| == n
    && b.stopEvent == (if n == 0 then None else Some(n - 1))
    && (forall i | 0 <= i < n - 1 :: b.loops[i].at.Finished?)
    && (b.bgTask.Some? ==> b.bgTask.value == n - 1)
    && (n > 0 && !b.loops[n - 1].at.Finished? ==> b.bgTask.Some?)
    && (forall w | w in b.waiting :: w < n && (w == n - 1 || b.loops[w].at == Finished(false)))
    && (n - 1 in b.waiting ==> StopSet(b))
    && (if n == 0 then b.session.None? else NewestFine(b, b.loops[n - 1], b.session))
  }

  lemma {:induction false} HeadNewest(b: Bridge, l: Loop)
    ensures NewestFine(b, Head(b, l), None)
  {
  }

  lemma {:induction false} SleepNewest(b: Bridge, l: Loop, delay: nat, elapsed: nat)
    requires l.marks != [] && !l.marks[|l.marks| - 1].Connected?
    ensures NewestFine(b, Sleep(b, l, delay, elapsed), None)
  {
    hide Head;
    HeadNewest(b, l);
  }

  lemma {:induction false} LeftNewest(b: Bridge, l: Loop, body: Result, r: Result)
    requires !Raised(body) ==> StopSet(b)
    ensures NewestFine(b, Left(b, Noted(l, body, r), Ending(body, r)), None)
  {
    hide Sleep, Delay, StopSet;
    var noted := Noted(l, body, r);
    if Ending(body, r).Error? {
      var lost := noted.(failures := noted.failures + 1, marks := noted.marks + [Lost], slept := 0);
      SleepNewest(b, lost, Delay(lost.failures), 0);
    } else if Raised(body) && r.Suppressed? {
      SleepNewest(b, noted.(slept := 0), Delay(noted.failures), 0);
    }
  }

  /** What a resumption leaves alone. */
  lemma {:induction false} ResumeFrame(b: Bridge, i: nat, r: Result)
    requires i < |b.loops|
    ensures var next := Resumed(b, i, r);
            && next.events == b.events && next.stopEvent == b.stopEvent
            && next.bgTask == b.bgTask && next.waiting == b.waiting
            && |next.loops| == |b.loops| && (forall j | 0 <= j < |b.loops| && j != i :: next.loops[j] == b.loops[j])
            && (b.loops[i].at.Finished? ==> next == b)
  {
    hide Head, Left, Sleep, Max, Min, Noted, Ending;
  }

  /** One step of the newest loop. */
  lemma {:induction false} NewestStep(b: Bridge, r: Result)
    requires Inv(b) && |b.loops| > 0
    ensures var i := |b.loops| - 1;
            var next := Resumed(b, i, r);
            NewestFine(b, next.loops[i], next.session)
  {
    hide Head, Sleep, Left;
    var l := b.loops[|b.loops| - 1];
    match l.at
    case Created => HeadNewest(b, l);
    case Closing(body) => LeftNewest(b, l, body, r);
    case Sleeping(delay, elapsed) =>
      SleepNewest(b, l.(slept := l.slept + Max(Min(1, delay - elapsed), 0)), delay, elapsed + 1);
    case _ =>
  }

  lemma {:induction false} ResumeKeeps(b: Bridge, i: nat, r: Result)
    requires Inv(b) && i < |b.loops|
    ensures Inv(Resumed(b, i, r))
  {
    hide Resumed;
    ResumeFrame(b, i, r);
    if i == |b.loops| - 1 {
      NewestStep(b, r);
    }
  }

  lemma {:induction false} ConnectKeeps(b: Bridge)
    requires Inv(b) && MayConnect(b)
    ensures Inv(Step(b, Connect))
  {
    forall w | w in b.waiting ensures b.loops[w].at == Finished(false) {
      assert b.loops[w].at.Finished? && b.loops[w].at != Finished(true);
    }
  }

  lemma {:induction false} DisconnectKeeps(b: Bridge)
    requires Inv(b)
    ensures Inv(Step(b, Disconnect))
  {
    hide LoopFine;
  }

  lemma {:induction false} AwaitKeeps(b: Bridge, call: nat)
    requires Inv(b) && Awaited(b, call)
    ensures Inv(Step(b, DisconnectResumes(call))) && Inv(Step(b, DisconnectCancelled(call)))
  {
    assert b.waiting[call] in b.waiting;
    var rest := b.waiting[..call] + b.waiting[call + 1..];
    assert forall w | w in rest :: w in b.waiting;
  }

  lemma {:induction false} StepKeeps(b: Bridge, e: Event)
    requires Inv(b) && (e.Connect? ==> MayConnect(b))
    ensures Inv(Step(b, e))
  {
    hide Inv, Resumed;
    match e
    case Connect => ConnectKeeps(b);
    case Disconnect => DisconnectKeeps(b);
    case Resume(i, r) => if i < |b.loops| { ResumeKeeps(b, i, r); }
    case DisconnectResumes(call) => if Awaited(b, call) { AwaitKeeps(b, call); }
    case DisconnectCancelled(call) => if Awaited(b, call) { AwaitKeeps(b, call); }
  }

  lemma {:induction false} RunKeeps(b: Bridge, es: seq<Event>)
    requires Inv(b) && Disciplined(b, es)
    ensures Inv(Run(b, es))
    decreases |es|
  {
    hide Inv;
    if es != [] {
      StepKeeps(b, es[0]);
      RunKeeps(Step(b, es[0]), es[1..]);
    }
  }

  /** With disciplined connecting the session is always that of the newest loop, and every earlier loop has ended. */
  lemma {:induction false} OnlyNewestLoopLives(es: seq<Event>)
    requires Disciplined(IDLE, es)
    ensures var b := Run(IDLE, es);
            && (b.session.Some? ==> b.session.value.loop == |b.loops| - 1)
            && forall i | 0 <= i < |b.loops| - 1 :: b.loops[i].at.Finished?
  {
    RunKeeps(IDLE, es);
  }

  ghost predicate AllEnded(b: Bridge) {
    b.session.None? && forall i | 0 <= i < |b.loops| :: b.loops[i].at.Finished?
  }

  lemma {:induction false} ReturnMeansEnded(b: Bridge, e: Event)
    requires Inv(b) && Returns(b, e)
    ensures AllEnded(Step(b, e))
  {
    if e.DisconnectResumes? { assert b.waiting[e.call] in b.waiting; }
  }

  /** When `disconnect` returns, every loop has ended and the session is gone, and it stays so whatever happens
      until the next `connect`. */
  lemma {:induction false} DisconnectedMeansEnded(es: seq<Event>, e: Event, later: seq<Event>)
    requires Disciplined(IDLE, es) && Returns(Run(IDLE, es), e) && forall x | x in later :: !x.Connect?
    ensures AllEnded(Run(Step(Run(IDLE, es), e), later))
  {
    hide Inv, AllEnded, Returns;
    var b := Run(IDLE, es);
    assert Inv(IDLE) by { IdleFine(); }
    RunKeeps(IDLE, es);
    ReturnMeansEnded(b, e);
    EndedStays(Step(b, e), later);
  }

  lemma IdleFine()
    ensures Inv(IDLE)
  {
  }

  /** However the run goes on without another `connect`, a `disconnect` that returns leaves nothing behind. */
  ghost predicate DisconnectSafe(b: Bridge) {
    forall es: seq<Event>, e: Event | (forall x | x in es :: !x.Connect?)
        && Returns(Run(b, es), e) :: AllEnded(Step(Run(b, es), e))
  }

  /** Connecting is safe exactly under the condition of `MayConnect`: if a loop is left, or a pending `disconnect` is
      about to clear the new task, some `disconnect` later returns while a loop lives. */
  lemma {:induction false} ConnectSafeIff(b: Bridge)
    requires Inv(b)
    ensures DisconnectSafe(Step(b, Connect)) <==> MayConnect(b)
  {
    hide Inv;
    var next := Step(b, Connect);
    if MayConnect(b) {
      StepKeeps(b, Connect);
      forall es: seq<Event>, e: Event | (forall x | x in es :: !x.Connect?) && Returns(Run(next, es), e)
        ensures AllEnded(Step(Run(next, es), e))
      {
        NoConnects(next, es);
        RunKeeps(next, es);
        ReturnMeansEnded(Run(next, es), e);
      }
    } else if Unfinished(b) {
      LoopLeft(b);
    } else {
      TaskCleared(b);
    }
  }

  lemma {:induction false} NoConnects(b: Bridge, es: seq<Event>)
    requires forall x | x in es :: !x.Connect?
    ensures Disciplined(b, es)
    decreases |es|
  {
    if es != [] {
      assert es[0] in es;
      NoConnects(Step(b, es[0]), es[1..]);
    }
  }

  /** The new task is cancelled before it starts; `disconnect` then has nothing to wait for. */
  lemma {:induction false} LoopLeft(b: Bridge)
    requires Inv(b) && Unfinished(b)
    ensures !DisconnectSafe(Step(b, Connect))
  {
    var next, n := Step(b, Connect), |b.loops|;
    var es := [Resume(n, Cancelled)];
    var last := Step(next, Resume(n, Cancelled));
    assert Run(next, es) == Run(last, []) == last;
    assert last.loops[n].at == Finished(false);
    assert Returns(Run(next, es), Disconnect);
    assert !Step(last, Disconnect).loops[n - 1].at.Finished?;
  }

  lemma {:induction false} TaskCleared(b: Bridge)
    requires Inv(b) && !Unfinished(b) && !MayConnect(b)
    ensures !DisconnectSafe(Step(b, Connect))
  {
    var next, n := Step(b, Connect), |b.loops|;
    var w :| w in b.waiting && w < n && b.loops[w].at == Finished(true);
    var call :| 0 <= call < |b.waiting| && b.waiting[call] == w;
    assert Run(next, []) == next;
    assert Returns(Run(next, []), DisconnectResumes(call));
    assert Step(next, DisconnectResumes(call)).loops[n].at == Created;
  }

  lemma {:induction false} EndedStays(b: Bridge, es: seq<Event>)
    requires AllEnded(b) && forall e | e in es :: !e.Connect?
    ensures AllEnded(Run(b, es))
    decreases |es|
  {
    if es != [] {
      assert es[0] in es;
      assert AllEnded(Step(b, es[0]));
      EndedStays(Step(b, es[0]), es[1..]);
    }
  }

  /** Once stop is set no loop starts another attempt, however the run goes on, until the next `connect`. */
  lemma {:induction false} NoAttemptAfterStop(b: Bridge, es: seq<Event>)
    requires StopSet(b) && forall e | e in es :: !e.Connect?
    ensures StopSet(Run(b, es)) && |Run(b, es).loops| == |b.loops|
    ensures forall i | 0 <= i < |b.loops| :: Run(b, es).loops[i].attempts == b.loops[i].attempts
    decreases |es|
  {
    if es != [] {
      assert es[0] in es;
      var next := Step(b, es[0]);
      assert StopSet(next) && |next.loops| == |b.loops|;
      assert forall i | 0 <= i < |b.loops| :: next.loops[i].attempts == b.loops[i].attempts;
      NoAttemptAfterStop(next, es[1..]);
    }
  }

  /** How many times a loop can still resume after stop. */
  function Rank(p: Point): nat {
    match p
    case Created => 1
    case OpeningStream => 5
    case EnteringSession => 4
    case Initializing => 3
    case Holding(_) => 2
    case Closing(_) => 1
    case Sleeping(_, _) => 1
    case Finished(_) => 0
  }

  function Resumptions(es: seq<Event>, i: nat): nat {
    if es == [] then 0 else (if es[0].Resume? && es[0].loop == i then 1 else 0) + Resumptions(es[1..], i)
  }

  /** After stop the newest loop ends within five resumptions, so a `disconnect` that awaits it can go on. */
  lemma {:induction false} StopEndsLoop(b: Bridge, es: seq<Event>)
    requires Inv(b) && StopSet(b) && forall e | e in es :: !e.Connect?
    requires Resumptions(es, |b.loops| - 1) >= Rank(b.loops[|b.loops| - 1].at)
    ensures |Run(b, es).loops| == |b.loops| && Run(b, es).loops[|b.loops| - 1].at.Finished?
    decreases |es|
  {
    NoAttemptAfterStop(b, es);
    var n := |b.loops|;
    if b.loops[n - 1].at.Finished? {
      FinishedStays(b, es, n - 1);
    } else if es != [] {
      assert es[0] in es;
      StepKeeps(b, es[0]);
      StopLowersRank(b, es[0]);
      StopEndsLoop(Step(b, es[0]), es[1..]);
    }
  }

  lemma {:induction false} StopLowersRank(b: Bridge, e: Event)
    requires Inv(b) && StopSet(b) && !e.Connect? && !b.loops[|b.loops| - 1].at.Finished?
    ensures var i := |b.loops| - 1;
            && StopSet(Step(b, e)) && |Step(b, e).loops| == |b.loops|
            && Rank(Step(b, e).loops[i].at) + (if e.Resume? && e.loop == i then 1 else 0) <= Rank(b.loops[i].at)
  {
    hide Pow2, Min, Max, LostStreak;
  }

  lemma {:induction false} FinishedStays(b: Bridge, es: seq<Event>, i: nat)
    requires i < |b.loops| && b.loops[i].at.Finished?
    ensures i < |Run(b, es).loops| && Run(b, es).loops[i].at.Finished?
    decreases |es|
  {
    if es != [] {
      FinishedStays(Step(b, es[0]), es[1..], i);
    }
  }

  // ----- Back-off -----

  /** In every run a loop that goes from its back-off to a new attempt has slept exactly `min(2^f, 60)` seconds, where
      f is the number of exceptions it saw since a session last came up. */
  lemma {:induction false} SleptExactly(es: seq<Event>, i: nat, r: Result)
    requires var b := Run(IDLE, es); i < |b.loops| && b.loops[i].at.Sleeping?
    requires Step(Run(IDLE, es), Resume(i, r)).loops[i].at.OpeningStream?
    ensures var l := Step(Run(IDLE, es), Resume(i, r)).loops[i];
            l.slept == Min(Pow2(LostStreak(l.marks)), 60)
  {
    AnyRunKeeps(IDLE, es);
    var b := Run(IDLE, es);
    assert LoopFine(b.loops[i]);
    Slice(b.loops[i].at.delay, b.loops[i].at.elapsed);
  }

  /** With disciplined connecting f is at least one, unless the exit stack suppressed the last exception: a loop
      backs off only after an exception. */
  lemma {:induction false} SleepsAfterException(es: seq<Event>, i: nat)
    requires Disciplined(IDLE, es)
    requires var b := Run(IDLE, es); i < |b.loops| && b.loops[i].at.Sleeping?
    ensures var marks := Run(IDLE, es).loops[i].marks;
            && marks != []
            && (marks[|marks| - 1].Hidden? || (marks[|marks| - 1].Lost? && LostStreak(marks) >= 1))
  {
    RunKeeps(IDLE, es);
    assert i == |Run(IDLE, es).loops| - 1;
  }

  lemma {:induction false} DelayMonotone(f: nat, g: nat)
    requires f <= g
    ensures Delay(f) <= Delay(g) <= 60
    decreases g
  {
    if f < g {
      DelayMonotone(f, g - 1);
    }
  }

  /** The first back-off lasts two seconds; from the sixth failure on it lasts sixty. */
  lemma {:induction false} DelaySchedule(f: nat)
    requires f >= 1
    ensures Delay(1) == 2
    ensures Delay(f) == 60 <==> f >= 6
    ensures f < 6 ==> Delay(f + 1) == Min(2 * Delay(f), 60)
  {
    assert Pow2(5) == 32 && Pow2(6) == 64 by { assert Pow2(2) == 4 && Pow2(3) == 8 && Pow2(4) == 16; }
    if f >= 6 {
      DelayMonotone(6, f);
    } else {
      DelayMonotone(f, 5);
    }
  }

  // ----- Reconnecting -----

  /** The ways a loop comes to its end, and there are no others: stop is set, leaving an attempt ends in a cancellation
      or a worse exception, or something is raised before the first attempt or in the sleep. */
  lemma {:induction false} EndsIff(b: Bridge, i: nat, r: Result)
    requires i < |b.loops| && !b.loops[i].at.Finished?
    ensures var at := b.loops[i].at;
            Resumed(b, i, r).loops[i].at.Finished? <==>
              || ((at.Created? || at.Sleeping?) && (Raised(r) || StopSet(b)))
              || (at.Closing? && (StopSet(b) || Ending(at.body, r).Cancelled? || Ending(at.body, r).Fatal?))
  {
    hide LostStreak;
    PowPositive(b.loops[i].failures);
    PowPositive(b.loops[i].failures + 1);
  }

  /** While stop is not set, an attempt that ends in an exception leads to the sleep for one failure more, and the
      session is gone. */
  lemma {:induction false} FailureBacksOff(b: Bridge, i: nat, r: Result)
    requires i < |b.loops| && !StopSet(b)
    requires b.loops[i].at.Closing? && Ending(b.loops[i].at.body, r) == Error
    ensures var l, next := b.loops[i], Resumed(b, i, r);
            && next.loops[i].at == Sleeping(Min(Pow2(l.failures + 1), 60), 0)
            && next.loops[i].failures == l.failures + 1 && next.loops[i].attempts == l.attempts
            && next.session.None?
  {
    PowPositive(b.loops[i].failures + 1);
  }

  /** A connection that drops: the loop leaves the attempt and sleeps two seconds, as a loop that holds a connection has
      no failures on its count. */
  lemma {:induction false} DroppedLink(es: seq<Event>, i: nat)
    requires var b := Run(IDLE, es); i < |b.loops| && b.loops[i].at.Holding? && !StopSet(b)
    ensures var b := Run(IDLE, es);
            var next := Resumed(Resumed(b, i, Error), i, Normal);
            next.loops[i].at == Sleeping(2, 0) && next.session.None?
  {
    var b := Run(IDLE, es);
    AnyRunKeeps(IDLE, es);
    HoldingFresh(es, i);
    var left := Resumed(b, i, Error);
    assert left.loops[i].at == Closing(Error) && !StopSet(left);
    FailureBacksOff(left, i, Normal);
    assert Pow2(1) == 2 by { assert Pow2(0) == 1; }
  }

  lemma {:induction false} HoldingFresh(es: seq<Event>, i: nat)
    ensures var b := Run(IDLE, es);
            i < |b.loops| && b.loops[i].at.Holding? ==> b.loops[i].failures == 0
  {
    if es != [] {
      HoldingFresh(es[..|es| - 1], i);
      RunLast(es);
      HoldingStep(Run(IDLE, es[..|es| - 1]), es[|es| - 1], i);
    }
  }

  lemma {:induction false} HoldingStep(b: Bridge, e: Event, i: nat)
    requires i < |b.loops| && b.loops[i].at.Holding? ==> b.loops[i].failures == 0
    ensures var next := Step(b, e);
            i < |next.loops| && next.loops[i].at.Holding? ==> next.loops[i].failures == 0
  {
    hide Delay, Min, Max, StopSet;
  }

  /** No `disconnect`, and every await of loop `i` ends without an exception. */
  ghost predicate Smooth(es: seq<Event>, i: nat) {
    forall e | e in es :: !e.Disconnect? && (e.Resume? && e.loop == i ==> !Raised(e.result))
  }

  lemma StaysUnstopped(b: Bridge, e: Event)
    requires !StopSet(b) && !e.Disconnect? && (b.stopEvent.Some? ==> b.stopEvent.value < |b.events|)
    ensures !StopSet(Step(b, e)) && (Step(b, e).stopEvent.Some? ==> Step(b, e).stopEvent.value < |Step(b, e).events|)
  {
    hide Head, Left, Sleep, Noted, Min, Max;
  }

  /** What a smooth step does to a loop that sleeps: a second less, or the next attempt. */
  lemma SleeperStep(b: Bridge, e: Event, i: nat)
    requires i < |b.loops| && b.loops[i].at.Sleeping? && b.loops[i].at.elapsed < b.loops[i].at.delay
    requires !StopSet(b) && Smooth([e], i)
    ensures i < |Step(b, e).loops|
    ensures var l, m := b.loops[i], Step(b, e).loops[i];
            if !(e.Resume? && e.loop == i) then m == l
            else if l.at.elapsed + 1 < l.at.delay
            then m.at == Sleeping(l.at.delay, l.at.elapsed + 1) && m.attempts == l.attempts
            else m.at == OpeningStream && m.attempts == l.attempts + 1
  {
    hide Left, Noted;
    assert e in [e];
  }

  /** The bridge reconnects: while stop is not set, a loop that sleeps starts its next attempt once its sleep has gone
      on for the seconds that are left, whatever else happens in between. */
  lemma {:induction false} Reconnects(b: Bridge, es: seq<Event>, i: nat)
    requires i < |b.loops| && b.loops[i].at.Sleeping? && b.loops[i].at.elapsed < b.loops[i].at.delay
    requires !StopSet(b) && (b.stopEvent.Some? ==> b.stopEvent.value < |b.events|) && Smooth(es, i)
    requires Resumptions(es, i) >= b.loops[i].at.delay - b.loops[i].at.elapsed
    ensures i < |Run(b, es).loops| && Run(b, es).loops[i].attempts > b.loops[i].attempts
    decreases |es|
  {
    hide Step;
    var e := es[0];
    assert e in es && (forall x | x in es[1..] :: x in es) && (forall x | x in [e] :: x == e);
    SleeperStep(b, e, i);
    StaysUnstopped(b, e);
    var next := Step(b, e);
    if next.loops[i].at.Sleeping? {
      Reconnects(next, es[1..], i);
    } else {
      AttemptsGrow(next, es[1..], i);
    }
  }

  lemma {:induction false} AttemptsGrow(b: Bridge, es: seq<Event>, i: nat)
    requires i < |b.loops|
    ensures i < |Run(b, es).loops| && b.loops[i].attempts <= Run(b, es).loops[i].attempts
    decreases |es|
  {
    hide Step;
    if es != [] {
      AttemptStep(b, es[0], i);
      AttemptsGrow(Step(b, es[0]), es[1..], i);
    }
  }

  lemma {:induction false} StopEventKnown(es: seq<Event>)
    ensures var b := Run(IDLE, es); b.stopEvent.Some? ==> b.stopEvent.value < |b.events|
  {
    hide Resumed;
    if es != [] {
      StopEventKnown(es[..|es| - 1]);
      RunLast(es);
      EventsStep(Run(IDLE, es[..|es| - 1]), es[|es| - 1]);
    }
  }

  lemma EventsStep(b: Bridge, e: Event)
    requires b.stopEvent.Some? ==> b.stopEvent.value < |b.events|
    ensures Step(b, e).stopEvent.Some? ==> Step(b, e).stopEvent.value < |Step(b, e).events|
  {
    hide Head, Left, Sleep, Noted, Min, Max;
  }

  /** The same in every run from the start. */
  lemma {:induction false} RunReconnects(es: seq<Event>, later: seq<Event>, i: nat)
    requires var b := Run(IDLE, es); i < |b.loops| && b.loops[i].at.Sleeping? && !StopSet(b)
    requires Smooth(later, i)
    requires Resumptions(later, i) >= Run(IDLE, es).loops[i].at.delay - Run(IDLE, es).loops[i].at.elapsed
    ensures i < |Run(IDLE, es + later).loops|
    ensures Run(IDLE, es + later).loops[i].attempts > Run(IDLE, es).loops[i].attempts
  {
    hide Run, Smooth;
    AnyRunKeeps(IDLE, es);
    assert LoopFine(Run(IDLE, es).loops[i]);
    StopEventKnown(es);
    Reconnects(Run(IDLE, es), later, i);
    RunSplit(IDLE, es, later);
  }

  /** An attempt whose three awaits end normally holds its session. */
  lemma {:induction false} AttemptSucceeds(b: Bridge, i: nat)
    requires i < |b.loops| && b.loops[i].at.OpeningStream? && b.stopEvent.Some?
    ensures var up := Resumed(Resumed(Resumed(b, i, Normal), i, Normal), i, Normal);
            && up.loops[i].at == Holding(b.stopEvent.value) && up.loops[i].failures == 0
            && up.session == Some(Session(i, b.loops[i].attempts))
  {
  }

  // ----- Why the discipline is needed -----

  /** Connecting again while a loop lives: `disconnect` waits for the new loop only and returns while the old
      one still holds its session. */
  lemma {:induction false} SecondConnectLeaksLoop()
    ensures exists es: seq<Event>, e ::
              && (exists k | 0 <= k < |es| :: es[k].Connect? && Unfinished(Run(IDLE, es[..k])))
              && Returns(Run(IDLE, es), e)
              && Step(Run(IDLE, es), e).session.Some?
  {
    hide Run, Step, Returns;
    var up := [Connect, Resume(0, Normal), Resume(0, Normal), Resume(0, Normal), Resume(0, Normal)];
    var again := [Connect, Disconnect, Resume(1, Normal)];
    RunSplit(IDLE, up, again);
    var es := up + again;
    assert es[..5] == up && es[5].Connect?;
    var held := Holds();
    var left := Leaks(held);
    assert Unfinished(held);
    assert Run(IDLE, es) == left;
  }

  lemma Leaks(held: Bridge) returns (left: Bridge)
    requires held == Bridge(Some(Session(0, 1)), [false], Some(0), Some(0), [Loop(Holding(0), 0, [Connected], 1, 0)],
                            [])
    ensures left == Run(held, [Connect, Disconnect, Resume(1, Normal)])
    ensures Returns(left, DisconnectResumes(0)) && Step(left, DisconnectResumes(0)).session.Some?
  {
    var first, b1 := held.loops[0], Step(held, Connect);
    assert b1 == Bridge(held.session, [false, false], Some(1), Some(1), [first, Loop(Created, 0, [], 0, 0)], []);
    var b2 := Step(b1, Disconnect);
    assert b2 == b1.(events := [false, true], waiting := [1]);
    left := b2.(loops := [first, Loop(Finished(true), 0, [], 0, 0)]);
    assert Step(b2, Resume(1, Normal)) == left;
    assert Run(b2, [Resume(1, Normal)]) == Run(left, []) == left;
    assert Run(b1, [Disconnect, Resume(1, Normal)]) == left;
  }

  /** The bridge with one loop that holds its session. */
  lemma Holds() returns (b: Bridge)
    ensures b == Run(IDLE, [Connect, Resume(0, Normal), Resume(0, Normal), Resume(0, Normal), Resume(0, Normal)])
    ensures b == Bridge(Some(Session(0, 1)), [false], Some(0), Some(0), [Loop(Holding(0), 0, [Connected], 1, 0)], [])
  {
    var b1 := Bridge(None, [false], Some(0), Some(0), [Loop(Created, 0, [], 0, 0)], []);
    var b2 := b1.(loops := [Loop(OpeningStream, 0, [], 1, 0)]);
    var b3 := b1.(loops := [Loop(EnteringSession, 0, [], 1, 0)]);
    var b4 := b1.(session := Some(Session(0, 1)), loops := [Loop(Initializing, 0, [], 1, 0)]);
    b := b4.(loops := [Loop(Holding(0), 0, [Connected], 1, 0)]);
    assert Step(IDLE, Connect) == b1 && Step(b1, Resume(0, Normal)) == b2 && Step(b2, Resume(0, Normal)) == b3;
    assert Step(b3, Resume(0, Normal)) == b4;
    assert b4.loops[0].marks + [Connected] == [Connected];
    assert Step(b4, Resume(0, Normal)).loops == b.loops;
    assert Run(b4, [Resume(0, Normal)]) == Run(b, []) == b;
    assert Run(b3, [Resume(0, Normal), Resume(0, Normal)]) == b;
    assert Run(b2, [Resume(0, Normal), Resume(0, Normal), Resume(0, Normal)]) == b;
    assert Run(b1, [Resume(0, Normal), Resume(0, Normal), Resume(0, Normal), Resume(0, Normal)]) == b;
  }

  /** Connecting when the loop has ended but the pending `disconnect` has not gone on: it clears the new task,
      and the next `disconnect` returns at once although the new loop lives. */
  lemma {:induction false} EarlyConnectLosesTask()
    ensures exists es: seq<Event> ::
              && (exists k | 0 <= k < |es| ::
                    es[k].Connect? && !Unfinished(Run(IDLE, es[..k])) && Run(IDLE, es[..k]).waiting != [])
              && Returns(Run(IDLE, es), Disconnect)
              && !AllEnded(Step(Run(IDLE, es), Disconnect))
  {
    hide Run;
    var first, second := [Connect, Disconnect, Resume(0, Normal)], [Connect, DisconnectResumes(0)];
    var b2 := EndedWhileWaiting();
    var b4 := TaskLost();
    RunSplit(IDLE, first, second);
    var es := first + second;
    assert es[..3] == first && es[3].Connect?;
    assert Run(IDLE, es) == b4 && Returns(b4, Disconnect);
    assert Step(b4, Disconnect).loops[1].at == Created;
  }

  lemma EndedWhileWaiting() returns (b: Bridge)
    ensures b == Run(IDLE, [Connect, Disconnect, Resume(0, Normal)])
    ensures b == Bridge(None, [true], Some(0), Some(0), [Loop(Finished(true), 0, [], 0, 0)], [0])
  {
    var b1 := Bridge(None, [false], Some(0), Some(0), [Loop(Created, 0, [], 0, 0)], []);
    var b2 := b1.(events := [true], waiting := [0]);
    b := b2.(loops := [Loop(Finished(true), 0, [], 0, 0)]);
    assert Step(IDLE, Connect) == b1 && Step(b1, Disconnect) == b2 && Step(b2, Resume(0, Normal)) == b;
    assert Run(b2, [Resume(0, Normal)]) == Run(b, []) == b;
    assert Run(b1, [Disconnect, Resume(0, Normal)]) == b;
  }

  lemma TaskLost() returns (b: Bridge)
    ensures b == Run(Bridge(None, [true], Some(0), Some(0), [Loop(Finished(true), 0, [], 0, 0)], [0]),
                     [Connect, DisconnectResumes(0)])
    ensures b == Bridge(None, [true, false], Some(1), None, [Loop(Finished(true), 0, [], 0, 0),
                                                             Loop(Created, 0, [], 0, 0)], [])
  {
    var start := Bridge(None, [true], Some(0), Some(0), [Loop(Finished(true), 0, [], 0, 0)], [0]);
    var b1 := Bridge(None, [true, false], Some(1), Some(1), [Loop(Finished(true), 0, [], 0, 0),
                                                             Loop(Created, 0, [], 0, 0)], [0]);
    b := b1.(bgTask := None, waiting := []);
    assert Step(start, Connect) == b1;
    assert Step(b1, DisconnectResumes(0)) == b;
    assert Run(b1, [DisconnectResumes(0)]) == Run(b, []) == b;
  }

  // ----- Tool calls -----

  /** The arguments that `invoke` sends: a trusted session id and the user's token overwrite what the model
      supplied. An empty id counts as none. */
  function Arguments(kwargs: map<string, string>, scoped: bool, bridgeId: string, contextId: string,
                     token: Option<string>)
    : map<string, string>
  {
    var trusted := if bridgeId != "" then bridgeId else contextId;
    var withId := if scoped && trusted != "" then kwargs["session_id" := trusted] else kwargs;
    if token.Some? then withId["auth_context" := token.value] else withId
  }

  method Invoke(bridge: MCPToolBridge, kwargs: map<string, string>, scoped: bool, bridgeId: string, contextId: string,
                token: Option<string>)
      returns (sent: Option<map<string, string>>)
    ensures sent == if bridge.session.Some? then Some(Arguments(kwargs, scoped, bridgeId, contextId, token)) else None
  {
    if bridge.session.None? {
      return None;
    }
    var arguments := kwargs;
    if scoped {
      var trusted := if bridgeId != "" then bridgeId else contextId;
      if trusted != "" {
        arguments := arguments["session_id" := trusted];
      }
    }
    if token.Some? {
      arguments := arguments["auth_context" := token.value];
    }
    sent := Some(arguments);
  }

  /** Argument by argument: the id of the bridge goes before that of the context, a scoped tool gets the first that is
      not empty, a user context sets its token, and everything else is what the model supplied. */
  lemma ArgumentsMeaning(kwargs: map<string, string>, scoped: bool, bridgeId: string, contextId: string,
                         token: Option<string>)
    ensures var sent := Arguments(kwargs, scoped, bridgeId, contextId, token);
            && (scoped && |bridgeId| > 0 ==> "session_id" in sent && sent["session_id"] == bridgeId)
            && (scoped && |bridgeId| == 0 && |contextId| > 0 ==>
                  "session_id" in sent && sent["session_id"] == contextId)
            && (token.Some? ==> "auth_context" in sent && sent["auth_context"] == token.value)
            && (!scoped || |bridgeId| + |contextId| == 0 ==> Agree(sent, kwargs, "session_id"))
            && (token.None? ==> Agree(sent, kwargs, "auth_context"))
            && forall k | k != "session_id" && k != "auth_context" :: Agree(sent, kwargs, k)
  {
  }

  predicate Agree(a: map<string, string>, b: map<string, string>, k: string) {
    (k in a <==> k in b) && (k in a ==> a[k] == b[k])
  }

  /** The same but for what the model has no business to choose. */
  predicate SameOtherwise(a: map<string, string>, b: map<string, string>) {
    a - {"session_id", "auth_context"} == b - {"session_id", "auth_context"}
  }

  lemma {:induction false} TrustedOverwrites(a: map<string, string>, b: map<string, string>, bridgeId: string,
                                             contextId: string, token: string)
    requires SameOtherwise(a, b) && (bridgeId != "" || contextId != "")
    ensures Arguments(a, true, bridgeId, contextId, Some(token)) == Arguments(b, true, bridgeId, contextId, Some(token))
  {
    var x, y := Arguments(a, true, bridgeId, contextId, Some(token)),
        Arguments(b, true, bridgeId, contextId, Some(token));
    forall k | k != "session_id" && k != "auth_context"
      ensures (k in x <==> k in y) && (k in x ==> x[k] == y[k])
    {
      assert k in a <==> k in a - {"session_id", "auth_context"};
      assert k in b <==> k in b - {"session_id", "auth_context"};
      if k in a { assert a[k] == (a - {"session_id", "auth_context"})[k] == b[k]; }
    }
    assert x["session_id"] == y["session_id"];
    assert x.Keys == y.Keys;
  }

  /** What a session-scoped tool is sent never depends on a session id or token that the model supplied, if and only if
      there is a trusted id and a user context; without one of them what the model supplied goes through. */
  lemma {:induction false} ModelCannotChooseSessionIff(bridgeId: string, contextId: string, token: Option<string>)
    ensures (forall a, b :: SameOtherwise(a, b) ==>
               Arguments(a, true, bridgeId, contextId, token) == Arguments(b, true, bridgeId, contextId, token))
            <==> (bridgeId != "" || contextId != "") && token.Some?
  {
    if (bridgeId != "" || contextId != "") && token.Some? {
      forall a, b | SameOtherwise(a, b)
        ensures Arguments(a, true, bridgeId, contextId, token) == Arguments(b, true, bridgeId, contextId, token)
      {
        TrustedOverwrites(a, b, bridgeId, contextId, token.value);
      }
    } else {
      var key := if token.None? then "auth_context" else "session_id";
      var a, b: map<string, string> := map[key := ""], map[];
      assert SameOtherwise(a, b);
      assert key in Arguments(a, true, bridgeId, contextId, token);
      assert key !in Arguments(b, true, bridgeId, contextId, token);
    }
  }
}
