/** Calls of `OpaClient.authorize` that run at the same time on one client. Every await is a step: a reply to `post`,
    the end of the sleep between two attempts, or the cancellation of the caller; other calls move in between. The
    breaker has no state for a probe under way, so nothing stops a second call from passing it. */
module OpaConcurrency {
  import opened Common
  import opened Resilience
  import opened Opa

  /** Where a call stands: it waits for the reply to its `n`-th request, sleeps after it until an instant, or has ended;
      a cancelled call has no answer. */
  datatype Phase = Posting(n: nat) | Sleeping(n: nat, until: real) | Done(answer: Option<bool>)

  datatype World = World(breaker: Breaker, calls: seq<Phase>, sent: nat)

  datatype Event =
    | Begin(now: real)
    | Reply(id: nat, reply: Opa.Reply, now: real)
    | Wake(id: nat, now: real)
    | Cancel(id: nat, now: real)

  /** What can happen next: replies to requests in flight, wakings that are due, cancellations of calls that run. */
  predicate Enabled(w: World, e: Event) {
    match e
    case Begin(_) => true
    case Reply(id, _, _) => id < |w.calls| && w.calls[id].Posting?
    case Wake(id, now) => id < |w.calls| && w.calls[id].Sleeping? && w.calls[id].until <= now
    case Cancel(id, _) => id < |w.calls| && !w.calls[id].Done?
  }

  /** The call passes the breaker and sends its first request. */
  predicate Passes(w: World, k: Client, now: real) {
    !Open(w.breaker, k.cfg, now) && k.maxRetries >= 1
  }

  /** After a failure that is retried. */
  function Retry(k: Client, n: nat, now: real): Phase {
    if n < k.maxRetries then Sleeping(n, now + k.backoff) else Done(Some(false))
  }

  function Step(w: World, e: Event, k: Client): World
    requires Enabled(w, e)
  {
    match e
    case Begin(now) =>
      if Passes(w, k, now) then w.(calls := w.calls + [Posting(1)], sent := w.sent + 1)
      else w.(calls := w.calls + [Done(Some(false))])
    case Reply(id, reply, now) =>
      (match reply
       case Decision(allow) => w.(breaker := Succeeded(w.breaker), calls := w.calls[id := Done(Some(allow))])
       case HttpError => w.(breaker := Failed(w.breaker, k.cfg, now), calls := w.calls[id := Done(Some(false))])
       case _ =>
         w.(breaker := Failed(w.breaker, k.cfg, now), calls := w.calls[id := Retry(k, w.calls[id].n, now)]))
    case Wake(id, _) => w.(calls := w.calls[id := Posting(w.calls[id].n + 1)], sent := w.sent + 1)
    case Cancel(id, _) => w.(calls := w.calls[id := Done(None)])
  }

  /** Every event can happen when it does, and the clock does not go back. */
  predicate Proper(w: World, k: Client, clock: real, es: seq<Event>)
    decreases |es|
  {
    es != [] ==> Enabled(w, es[0]) && clock <= es[0].now && Proper(Step(w, es[0], k), k, es[0].now, es[1..])
  }

  function Run(w: World, k: Client, clock: real, es: seq<Event>): World
    requires Proper(w, k, clock, es)
    decreases |es|
  {
    if es == [] then w else Run(Step(w, es[0], k), k, es[0].now, es[1..])
  }

  function Idle(b: Breaker): World {
    World(b, [], 0)
  }

  // ----- One call with no other in between is `authorize` -----

  /** Call `id` to its end, its `i`-th attempt and those after it answered as given. */
  function Drive(w: World, k: Client, id: nat, attempts: seq<Attempt>, i: nat): World
    requires id < |w.calls| && |attempts| >= k.maxRetries
    requires w.calls[id].Posting? ==> w.calls[id].n == i + 1 <= k.maxRetries
    requires !w.calls[id].Sleeping?
    decreases k.maxRetries - i
  {
    if w.calls[id].Done? then w
    else
      var replied := Step(w, Reply(id, attempts[i].reply, attempts[i].at), k);
      if replied.calls[id].Done? then replied
      else Drive(Step(replied, Wake(id, replied.calls[id].until), k), k, id, attempts, i + 1)
  }

  lemma {:induction false} DriveIsAttempts(w: World, k: Client, id: nat, attempts: seq<Attempt>, i: nat, now: real)
    requires id < |w.calls| && |attempts| >= k.maxRetries && w.calls[id] == Posting(i + 1) && i < k.maxRetries
    requires w.sent >= i + 1
    ensures var o, end := Attempts(w.breaker, k.cfg, k.maxRetries, attempts, i, now), Drive(w, k, id, attempts, i);
            && end.breaker == o.breaker && end.sent == w.sent - (i + 1) + o.sent
            && |end.calls| == |w.calls| && end.calls[id] == Done(Some(o.allowed))
    decreases k.maxRetries - i
  {
    var replied := Step(w, Reply(id, attempts[i].reply, attempts[i].at), k);
    if !replied.calls[id].Done? {
      DriveIsAttempts(Step(replied, Wake(id, replied.calls[id].until), k), k, id, attempts, i + 1, attempts[i].at);
    }
  }

  /** A call that runs alone ends with the answer, the requests and the breaker of `AuthorizeCall`. */
  lemma {:induction false} AloneIsAuthorize(b: Breaker, k: Client, now: real, attempts: seq<Attempt>)
    requires |attempts| >= k.maxRetries
    ensures var o := AuthorizeCall(b, k.cfg, k.maxRetries, now, attempts);
            Drive(Step(Idle(b), Begin(now), k), k, 0, attempts, 0)
              == World(o.breaker, [Done(Some(o.allowed))], o.sent)
  {
    var w := Step(Idle(b), Begin(now), k);
    if Passes(Idle(b), k, now) {
      DriveIsAttempts(w, k, 0, attempts, 0, now);
    }
  }

  // ----- Outages -----

  /** Every reply is a failure, and no call begins after `end`. */
  predicate Outage(es: seq<Event>, end: real) {
    forall i | 0 <= i < |es| ::
      (es[i].Reply? ==> !es[i].reply.Decision?) && (es[i].Begin? ==> es[i].now <= end)
  }

  function Begins(es: seq<Event>): nat {
    if es == [] then 0 else (if es[0].Begin? then 1 else 0) + Begins(es[1..])
  }

  function Wakes(es: seq<Event>): nat {
    if es == [] then 0 else (if es[0].Wake? then 1 else 0) + Wakes(es[1..])
  }

  function Cancels(es: seq<Event>): nat {
    if es == [] then 0 else (if es[0].Cancel? then 1 else 0) + Cancels(es[1..])
  }

  // ----- Who passes a breaker that has recovered -----

  /** The calls that begin before the first failure is recorded. */
  function Early(es: seq<Event>): nat {
    if es == [] || es[0].Reply? then 0 else (if es[0].Begin? then 1 else 0) + Early(es[1..])
  }

  function FirstReply(es: seq<Event>): Option<Opa.Reply> {
    if es == [] then None else if es[0].Reply? then Some(es[0].reply) else FirstReply(es[1..])
  }

  /** No call begins when the breaker may have recovered once more. */
  predicate BegunBefore(es: seq<Event>, until: real) {
    forall i | 0 <= i < |es| :: es[i].Begin? ==> es[i].now < until
  }

  /** The same, counted from the first failure on. */
  predicate OneRecovery(es: seq<Event>, recovery: real) {
    es != [] ==> if es[0].Reply? then BegunBefore(es[1..], es[0].now + recovery) else OneRecovery(es[1..], recovery)
  }

  predicate Tripped(w: World, k: Client) {
    w.breaker.failures >= k.cfg.threshold
  }

  /** While the breaker stays shut only retries are sent. */
  lemma {:induction false} ShutRun(w: World, k: Client, clock: real, es: seq<Event>, end: real, until: real)
    requires Sane(k) && Proper(w, k, clock, es) && Outage(es, end) && Tripped(w, k)
    requires until <= w.breaker.openUntil && until <= clock + k.cfg.recovery && BegunBefore(es, until)
    ensures Run(w, k, clock, es).sent == w.sent + Wakes(es)
    decreases |es|
  {
    if es != [] {
      ShutRun(Step(w, es[0], k), k, es[0].now, es[1..], end, until);
    }
  }

  /** From the recovery instant up to the next one, what is sent is one request for each call that begins before the
      first failure is recorded, and the retries: the breaker holds no call back while others probe. */
  lemma {:induction false} RequestsAre(w: World, k: Client, clock: real, es: seq<Event>, end: real)
    requires Sane(k) && k.maxRetries >= 1 && Proper(w, k, clock, es) && Outage(es, end)
    requires Tripped(w, k) && w.breaker.openUntil <= clock && OneRecovery(es, k.cfg.recovery)
    ensures Run(w, k, clock, es).sent == w.sent + Early(es) + Wakes(es)
    decreases |es|
  {
    if es != [] {
      var next := Step(w, es[0], k);
      if es[0].Reply? {
        ShutRun(next, k, es[0].now, es[1..], end, es[0].now + k.cfg.recovery);
      } else {
        RequestsAre(next, k, es[0].now, es[1..], end);
      }
    }
  }

  lemma {:induction false} ProperPrefix(w: World, k: Client, clock: real, es: seq<Event>, i: nat)
    requires Proper(w, k, clock, es) && i <= |es|
    ensures Proper(w, k, clock, es[..i])
    decreases i
  {
    if i > 0 {
      assert es[..i][1..] == es[1..][..i - 1];
      ProperPrefix(Step(w, es[0], k), k, es[0].now, es[1..], i - 1);
    }
  }

  lemma {:induction false} ShutAt(w: World, k: Client, clock: real, es: seq<Event>, end: real, until: real, i: nat)
    requires Sane(k) && Proper(w, k, clock, es) && Outage(es, end) && Tripped(w, k)
    requires until <= w.breaker.openUntil && until <= clock + k.cfg.recovery && BegunBefore(es, until)
    requires i < |es| && es[i].Begin?
    ensures Proper(w, k, clock, es[..i])
    ensures !Passes(Run(w, k, clock, es[..i]), k, es[i].now)
    decreases i
  {
    ProperPrefix(w, k, clock, es, i);
    if i > 0 {
      assert es[..i][1..] == es[1..][..i - 1];
      ShutAt(Step(w, es[0], k), k, es[0].now, es[1..], end, until, i - 1);
    }
  }

  /** After the recovery instant exactly the calls that begin before the first failure is recorded pass. */
  lemma {:induction false} PassesIff(w: World, k: Client, clock: real, es: seq<Event>, end: real, i: nat)
    requires Sane(k) && k.maxRetries >= 1 && Proper(w, k, clock, es) && Outage(es, end)
    requires Tripped(w, k) && w.breaker.openUntil <= clock && OneRecovery(es, k.cfg.recovery)
    requires i < |es| && es[i].Begin?
    ensures Proper(w, k, clock, es[..i])
    ensures Passes(Run(w, k, clock, es[..i]), k, es[i].now) <==> FirstReply(es[..i]).None?
    decreases i
  {
    ProperPrefix(w, k, clock, es, i);
    if i > 0 {
      var next := Step(w, es[0], k);
      assert es[..i][1..] == es[1..][..i - 1];
      if es[0].Reply? {
        ShutAt(next, k, es[0].now, es[1..], end, es[0].now + k.cfg.recovery, i - 1);
      } else {
        PassesIff(next, k, es[0].now, es[1..], end, i - 1);
      }
    }
  }

  predicate Settled(w: World) {
    forall i | 0 <= i < |w.calls| :: w.calls[i].Done?
  }

  lemma {:induction false} NoneLeft(w: World, k: Client, clock: real, es: seq<Event>, end: real, until: real)
    requires Sane(k) && Proper(w, k, clock, es) && Outage(es, end) && Tripped(w, k) && Settled(w)
    requires until <= w.breaker.openUntil && BegunBefore(es, until)
    ensures Wakes(es) == 0
    decreases |es|
  {
    if es != [] {
      NoneLeft(Step(w, es[0], k), k, es[0].now, es[1..], end, until);
    }
  }

  lemma {:induction false} SleeperStays(w: World, k: Client, clock: real, es: seq<Event>, id: nat)
    requires Proper(w, k, clock, es) && id < |w.calls| && w.calls[id].Sleeping?
    requires Wakes(es) == 0 && Cancels(es) == 0
    ensures id < |Run(w, k, clock, es).calls| && Run(w, k, clock, es).calls[id].Sleeping?
    decreases |es|
  {
    if es != [] {
      SleeperStays(Step(w, es[0], k), k, es[0].now, es[1..], id);
    }
  }

  /** A breaker that has recovered is meant to allow one probe. Over a run of calls that all come to an end, up to the
      next recovery, one request is sent if and only if one call begins before the first failure is recorded, and only
      one attempt is allowed or that failure is not retried. */
  lemma {:induction false} OneProbeIff(b: Breaker, k: Client, clock: real, es: seq<Event>, end: real)
    requires Sane(k) && k.maxRetries >= 1 && Proper(Idle(b), k, clock, es) && Outage(es, end)
    requires b.failures >= k.cfg.threshold && b.openUntil <= clock && OneRecovery(es, k.cfg.recovery)
    requires Cancels(es) == 0 && Settled(Run(Idle(b), k, clock, es))
    ensures Run(Idle(b), k, clock, es).sent == 1 <==>
              Early(es) == 1 && (k.maxRetries == 1 || FirstReply(es) == Some(HttpError))
  {
    RequestsAre(Idle(b), k, clock, es, end);
    if Early(es) == 1 {
      OneBegins(b, k, clock, es, end);
    } else if es != [] {
      assert es[0].Begin?;
    }
  }

  lemma {:induction false} OneBegins(b: Breaker, k: Client, clock: real, es: seq<Event>, end: real)
    requires Sane(k) && k.maxRetries >= 1 && Proper(Idle(b), k, clock, es) && Outage(es, end)
    requires b.failures >= k.cfg.threshold && b.openUntil <= clock && OneRecovery(es, k.cfg.recovery)
    requires Cancels(es) == 0 && Settled(Run(Idle(b), k, clock, es)) && Early(es) == 1
    ensures Wakes(es) == 0 <==> k.maxRetries == 1 || FirstReply(es) == Some(HttpError)
  {
    var w1 := Step(Idle(b), es[0], k);
    assert es[0].Begin? && w1.calls == [Posting(1)];
    var rest := es[1..];
    var ended := Run(Idle(b), k, clock, es);
    assert ended == Run(w1, k, es[0].now, rest);
    assert w1.calls[0] == Posting(1) && !Settled(w1);
    assert rest == [] ==> ended == w1;
    assert rest[0].Reply? && rest[0].id == 0;
    var w2 := Step(w1, rest[0], k);
    var until := rest[0].now + k.cfg.recovery;
    assert Wakes(es) == Wakes(rest[1..]);
    assert FirstReply(es) == Some(rest[0].reply);
    assert ended == Run(w2, k, rest[0].now, rest[1..]) && Cancels(rest[1..]) == 0;
    if k.maxRetries == 1 || rest[0].reply.HttpError? {
      NoneLeft(w2, k, rest[0].now, rest[1..], end, until);
    } else if Wakes(es) == 0 {
      SleeperStays(w2, k, rest[0].now, rest[1..], 0);
    }
  }

  /** Two calls that both ask the recovered breaker before either is answered: two requests, with one attempt each. */
  lemma TwoProbes(b: Breaker, cfg: Settings, at: real)
    requires b.failures >= cfg.threshold && b.openUntil <= at
    ensures var k := Client(cfg, 1, 0.0);
            var es := [Begin(at), Begin(at), Reply(0, Timeout, at), Reply(1, Timeout, at)];
            Proper(Idle(b), k, at, es) && Run(Idle(b), k, at, es).sent == 2 && Settled(Run(Idle(b), k, at, es))
  {
    var k := Client(cfg, 1, 0.0);
    var e0, e1, e2, e3 := Begin(at), Begin(at), Reply(0, Timeout, at), Reply(1, Timeout, at);
    var w1 := Step(Idle(b), e0, k);
    var w2 := Step(w1, e1, k);
    assert w2.calls == [Posting(1), Posting(1)];
    var w3 := Step(w2, e2, k);
    assert w3.calls == [Done(Some(false)), Posting(1)];
    var w4 := Step(w3, e3, k);
    assert w4.calls == [Done(Some(false)), Done(Some(false))] && w4.sent == 2;
    assert Proper(w4, k, at, []) && Run(w4, k, at, []) == w4;
    assert [e3][1..] == [] && [e2, e3][1..] == [e3] && [e1, e2, e3][1..] == [e2, e3];
    assert Proper(w3, k, at, [e3]) && Run(w3, k, at, [e3]) == w4;
    assert Proper(w2, k, at, [e2, e3]) && Run(w2, k, at, [e2, e3]) == w4;
    assert Proper(w1, k, at, [e1, e2, e3]) && Run(w1, k, at, [e1, e2, e3]) == w4;
    assert [e0, e1, e2, e3][1..] == [e1, e2, e3];
  }

  // ----- Sums over the calls -----

  function Total(calls: seq<Phase>, f: Phase -> nat): nat {
    if calls == [] then 0 else f(calls[0]) + Total(calls[1..], f)
  }

  lemma {:induction false} TotalUpdate(calls: seq<Phase>, id: nat, p: Phase, f: Phase -> nat)
    requires id < |calls|
    ensures Total(calls[id := p], f) == Total(calls, f) - f(calls[id]) + f(p)
  {
    var after := calls[id := p];
    if id > 0 {
      assert after[1..] == calls[1..][id - 1 := p];
      TotalUpdate(calls[1..], id - 1, p, f);
    } else {
      assert after[1..] == calls[1..];
    }
  }

  lemma {:induction false} TotalAppend(calls: seq<Phase>, p: Phase, f: Phase -> nat)
    ensures Total(calls + [p], f) == Total(calls, f) + f(p)
  {
    if calls == [] {
      assert (calls + [p])[1..] == [];
    } else {
      assert (calls + [p])[1..] == calls[1..] + [p];
      TotalAppend(calls[1..], p, f);
    }
  }

  /** One for a call under way, and the requests it has sent; one for a request that waits for its reply. */
  function Busy(p: Phase): nat {
    if p.Done? then 0 else 1
  }

  function Used(p: Phase): nat {
    if p.Done? then 0 else p.n
  }

  function Waiting(p: Phase): nat {
    if p.Posting? then 1 else 0
  }

  function InFlight(w: World): nat {
    Total(w.calls, Busy)
  }

  predicate SoundPhase(p: Phase, k: Client) {
    !p.Done? ==> 1 <= p.n <= k.maxRetries
  }

  predicate Sound(w: World, k: Client) {
    forall i | 0 <= i < |w.calls| :: SoundPhase(w.calls[i], k)
  }

  lemma {:induction false} TotalBounds(calls: seq<Phase>, k: Client)
    requires k.maxRetries >= 1 && forall i | 0 <= i < |calls| :: SoundPhase(calls[i], k)
    ensures Total(calls, Waiting) <= Total(calls, Used) <= k.maxRetries * Total(calls, Busy)
    ensures Total(calls, Waiting) <= Total(calls, Busy)
  {
    if calls != [] {
      TotalBounds(calls[1..], k);
      assert SoundPhase(calls[0], k);
      var r, n := k.maxRetries, Total(calls[1..], Busy);
      assert r * (n + 1) == r * n + r;
    }
  }

  // ----- Traffic -----

  /** At no time more than `c` calls are under way. */
  predicate AtMost(w: World, k: Client, clock: real, es: seq<Event>, c: nat)
    requires Proper(w, k, clock, es)
    decreases |es|
  {
    InFlight(w) <= c && (es != [] ==> AtMost(Step(w, es[0], k), k, es[0].now, es[1..], c))
  }

  /** What the account of a run says: the breaker has not tripped; it has, and `n` further waves of calls have passed
      it; or the `n`-th wave passes and no failure has been recorded since. */
  datatype Stage = Whole | Shut(n: nat) | Wave(n: nat)

  /** `cr` is the requests of `c` full calls, and `charge` those that cancelled calls may have cost. */
  datatype Account = Account(stage: Stage, failures: nat, cr: nat, charge: nat, start: real, end: real)

  function Trip(k: Client): int {
    Max(k.cfg.threshold, 1)
  }

  function Free(k: Client, a: Account): int {
    Trip(k) - 1 - a.failures
  }

  /** `n` waves cost; a function of its own to keep products out of the proofs. */
  function Quota(cr: nat, n: nat): nat {
    cr * n
  }

  lemma QuotaNext(cr: nat, n: nat)
    ensures Quota(cr, n + 1) == Quota(cr, n) + cr && Quota(cr, 0) == 0
  {
    assert cr * (n + 1) == cr * n + cr;
  }

  function Room(w: World, k: Client): int {
    k.maxRetries * InFlight(w)
  }

  /** The account balances. */
  predicate Balanced(w: World, k: Client, t: real, a: Account) {
    var used := Total(w.calls, Used);
    match a.stage
    case Whole =>
      && a.failures <= w.breaker.failures < Trip(k)
      && w.sent <= w.breaker.failures - a.failures + Total(w.calls, Waiting) + a.charge
    case Shut(n) =>
      && w.breaker.failures >= Trip(k)
      && w.sent + Room(w, k) - used <= Free(k, a) + Quota(a.cr, n + 1) + a.charge
      && a.start + Times(n + 1, k.cfg.recovery) <= w.breaker.openUntil
      && Started(k, t, a, n)
    case Wave(n) =>
      && w.breaker.failures >= Trip(k)
      && w.sent - used <= Free(k, a) + Quota(a.cr, n) + a.charge
      && Started(k, t, a, n)
  }

  /** The `n`-th wave has begun, and not after the end. */
  predicate Started(k: Client, t: real, a: Account, n: nat) {
    a.start + Times(n, k.cfg.recovery) <= t && a.start + Times(n, k.cfg.recovery) <= a.end
  }

  function Next(w: World, k: Client, e: Event, a: Account): Account {
    match e
    case Begin(now) => if a.stage.Shut? && Passes(w, k, now) then a.(stage := Wave(a.stage.n + 1)) else a
    case Reply(_, _, _) =>
      if a.stage.Wave? then a.(stage := Shut(a.stage.n))
      else if a.stage.Whole? && w.breaker.failures + 1 >= Trip(k) then a.(stage := Shut(0))
      else a
    case Wake(_, _) => a
    case Cancel(_, _) => a.(charge := a.charge + Max(k.maxRetries, 0))
  }

  lemma {:induction false} SoundKept(w: World, k: Client, e: Event)
    requires Enabled(w, e) && Sound(w, k) && (e.Wake? ==> w.calls[e.id].n < k.maxRetries)
    ensures Sound(Step(w, e, k), k)
  {
  }

  /** Calls that sleep have an attempt left. */
  predicate Restless(w: World, k: Client) {
    forall i | 0 <= i < |w.calls| :: w.calls[i].Sleeping? ==> w.calls[i].n < k.maxRetries
  }

  lemma {:induction false} RestlessKept(w: World, k: Client, e: Event)
    requires Enabled(w, e) && Restless(w, k)
    ensures Restless(Step(w, e, k), k)
  {
  }

  lemma {:induction false} BeginKeeps(w: World, k: Client, t: real, a: Account, now: real)
    requires Sane(k) && k.maxRetries >= 1 && Sound(w, k) && Balanced(w, k, t, a) && t <= now <= a.end
    ensures Balanced(Step(w, Begin(now), k), k, now, Next(w, k, Begin(now), a))
  {
    hide Times, Quota;
    var p := if Passes(w, k, now) then Posting(1) else Done(Some(false));
    TotalAppend(w.calls, p, Busy);
    TotalAppend(w.calls, p, Used);
    TotalAppend(w.calls, p, Waiting);
    TotalBounds(w.calls, k);
  }

  lemma {:induction false} ReplyKeeps(w: World, k: Client, t: real, a: Account, id: nat, reply: Opa.Reply, now: real,
                                      c: nat)
    requires Sane(k) && k.maxRetries >= 1 && Sound(w, k) && Balanced(w, k, t, a) && t <= now
    requires Enabled(w, Reply(id, reply, now)) && !reply.Decision?
    requires InFlight(w) <= c && a.cr == k.maxRetries * c && a.start <= t && a.start <= a.end
    ensures Balanced(Step(w, Reply(id, reply, now), k), k, now, Next(w, k, Reply(id, reply, now), a))
  {
    hide Times, Quota, Total, Open;
    var was := w.calls[id];
    var p := if reply.HttpError? then Done(Some(false)) else Retry(k, was.n, now);
    TotalUpdate(w.calls, id, p, Busy);
    TotalUpdate(w.calls, id, p, Used);
    TotalUpdate(w.calls, id, p, Waiting);
    TotalBounds(w.calls, k);
    assert SoundPhase(was, k);
    RoomBound(k, InFlight(w), c);
    TimesAdd(0, 1, k.cfg.recovery);
    match a.stage
    case Whole =>
      QuotaNext(a.cr, 0);
    case Shut(n) =>
      TimesAdd(n, 1, k.cfg.recovery);
    case Wave(n) =>
      QuotaNext(a.cr, n);
      TimesAdd(n, 1, k.cfg.recovery);
  }

  lemma RoomBound(k: Client, busy: nat, c: nat)
    requires k.maxRetries >= 1 && busy <= c
    ensures k.maxRetries * busy <= k.maxRetries * c
    ensures busy >= 1 ==> k.maxRetries * (busy - 1) == k.maxRetries * busy - k.maxRetries
  {
    MulMonotone(k.maxRetries, busy, c);
  }

  lemma {:induction false} WakeKeeps(w: World, k: Client, t: real, a: Account, id: nat, now: real)
    requires Sane(k) && k.maxRetries >= 1 && Balanced(w, k, t, a) && t <= now
    requires Enabled(w, Wake(id, now))
    ensures Balanced(Step(w, Wake(id, now), k), k, now, Next(w, k, Wake(id, now), a))
  {
    hide Times, Quota;
    var p := Posting(w.calls[id].n + 1);
    TotalUpdate(w.calls, id, p, Busy);
    TotalUpdate(w.calls, id, p, Used);
    TotalUpdate(w.calls, id, p, Waiting);
  }

  lemma {:induction false} CancelKeeps(w: World, k: Client, t: real, a: Account, id: nat, now: real)
    requires Sane(k) && k.maxRetries >= 1 && Sound(w, k) && Balanced(w, k, t, a) && t <= now
    requires Enabled(w, Cancel(id, now))
    ensures Balanced(Step(w, Cancel(id, now), k), k, now, Next(w, k, Cancel(id, now), a))
  {
    hide Times, Quota;
    var p := Done(None);
    TotalUpdate(w.calls, id, p, Busy);
    TotalUpdate(w.calls, id, p, Used);
    TotalUpdate(w.calls, id, p, Waiting);
    assert SoundPhase(w.calls[id], k);
    RoomBound(k, InFlight(w), InFlight(w));
  }

  function Accounted(w: World, k: Client, clock: real, es: seq<Event>, a: Account): Account
    requires Proper(w, k, clock, es)
    decreases |es|
  {
    if es == [] then a else Accounted(Step(w, es[0], k), k, es[0].now, es[1..], Next(w, k, es[0], a))
  }

  lemma OutageRest(es: seq<Event>, end: real)
    requires Outage(es, end) && es != []
    ensures Outage(es[1..], end)
  {
    assert forall i | 0 <= i < |es| - 1 :: es[1..][i] == es[i + 1];
  }

  /** What the final account says about the requests. */
  lemma {:induction false} FinalBound(w: World, k: Client, t: real, a: Account, c: nat)
    requires Sane(k) && k.maxRetries >= 1 && Sound(w, k) && Balanced(w, k, t, a)
    requires InFlight(w) <= c && a.cr == k.maxRetries * c && a.start <= a.end
    ensures w.sent <= Free(k, a) + Quota(a.cr, 1 + ((a.end - a.start) / k.cfg.recovery).Floor) + a.charge
  {
    hide Times;
    var periods := ((a.end - a.start) / k.cfg.recovery).Floor;
    TotalBounds(w.calls, k);
    RoomBound(k, InFlight(w), c);
    TimesAdd(0, 0, k.cfg.recovery);
    FloorBound(0, k.cfg.recovery, a.end - a.start);
    match a.stage
    case Whole =>
      MulMonotone(a.cr, 1, 1 + periods);
      MulMonotone(c, 1, k.maxRetries);
      QuotaNext(a.cr, 0);
    case Shut(n) =>
      FloorBound(n, k.cfg.recovery, a.end - a.start);
      MulMonotone(a.cr, n + 1, 1 + periods);
    case Wave(n) =>
      FloorBound(n, k.cfg.recovery, a.end - a.start);
      MulMonotone(a.cr, n + 1, 1 + periods);
      QuotaNext(a.cr, n);
  }

  lemma {:induction false} RunBalanced(w: World, k: Client, clock: real, es: seq<Event>, a: Account, c: nat)
    requires Sane(k) && k.maxRetries >= 1 && Proper(w, k, clock, es) && Outage(es, a.end) && AtMost(w, k, clock, es, c)
    requires Sound(w, k) && Restless(w, k) && Balanced(w, k, clock, a)
    requires a.cr == k.maxRetries * c && a.start <= clock && a.start <= a.end
    ensures Run(w, k, clock, es).sent
         <= Free(k, a) + Quota(a.cr, 1 + Max(((a.end - a.start) / k.cfg.recovery).Floor, 0)) + a.charge
            + k.maxRetries * Cancels(es)
    decreases |es|
  {
    hide Balanced, Quota, Step, Enabled, Times;
    if es == [] {
      FinalBound(w, k, clock, a, c);
      FloorBoundZero(k, a);
    } else {
      var e := es[0];
      OutageRest(es, a.end);
      StepBalanced(w, k, clock, e, a, c);
      RunBalanced(Step(w, e, k), k, e.now, es[1..], Next(w, k, e, a), c);
      if e.Cancel? {
        assert k.maxRetries * (Cancels(es[1..]) + 1) == k.maxRetries * Cancels(es[1..]) + k.maxRetries;
      }
    }
  }

  lemma FloorBoundZero(k: Client, a: Account)
    requires Sane(k) && a.start <= a.end
    ensures ((a.end - a.start) / k.cfg.recovery).Floor >= 0
  {
    TimesAdd(0, 0, k.cfg.recovery);
    FloorBound(0, k.cfg.recovery, a.end - a.start);
  }

  lemma {:induction false} StepBalanced(w: World, k: Client, t: real, e: Event, a: Account, c: nat)
    requires Sane(k) && k.maxRetries >= 1 && Enabled(w, e) && t <= e.now && InFlight(w) <= c
    requires Outage([e], a.end) && Sound(w, k) && Restless(w, k) && Balanced(w, k, t, a)
    requires a.cr == k.maxRetries * c && a.start <= t && a.start <= a.end
    ensures var next, after := Step(w, e, k), Next(w, k, e, a);
            && Sound(next, k) && Restless(next, k) && Balanced(next, k, e.now, after)
            && after.failures == a.failures && after.cr == a.cr && after.start == a.start && after.end == a.end
            && after.charge == a.charge + if e.Cancel? then k.maxRetries else 0
  {
    hide Balanced, Sound, Restless;
    assert [e][0] == e;
    assert e.Wake? ==> w.calls[e.id].n < k.maxRetries by { RestlessAt(w, k, e); }
    SoundKept(w, k, e);
    RestlessKept(w, k, e);
    match e
    case Begin(now) => BeginKeeps(w, k, t, a, now);
    case Reply(id, reply, now) => ReplyKeeps(w, k, t, a, id, reply, now, c);
    case Wake(id, now) => WakeKeeps(w, k, t, a, id, now);
    case Cancel(id, now) => CancelKeeps(w, k, t, a, id, now);
  }

  lemma RestlessAt(w: World, k: Client, e: Event)
    requires Enabled(w, e) && Restless(w, k)
    ensures e.Wake? ==> w.calls[e.id].n < k.maxRetries
  {
  }

  /** Calls that overlap: with at most `c` of them under way at any time, an outage of length L sees at most the
      failures that are left before the breaker trips, and `c` full rounds of retries for the start and for each
      recovery period, and the rounds of calls that were cancelled, whose requests the breaker never hears of. */
  lemma {:induction false} OverlapBound(b: Breaker, k: Client, clock: real, es: seq<Event>, end: real, c: nat)
    requires Sane(k) && k.maxRetries >= 1 && b.failures < Trip(k) && clock <= end
    requires Proper(Idle(b), k, clock, es) && Outage(es, end) && AtMost(Idle(b), k, clock, es, c)
    ensures Run(Idle(b), k, clock, es).sent
         <= Trip(k) - 1 - b.failures
            + k.maxRetries * c * (1 + ((end - clock) / k.cfg.recovery).Floor)
            + k.maxRetries * Cancels(es)
  {
    var cr := k.maxRetries * c;
    MulMonotone(k.maxRetries, 0, c);
    var a := Account(Whole, b.failures, cr, 0, clock, end);
    FloorBoundZero(k, a);
    assert Balanced(Idle(b), k, clock, a);
    RunBalanced(Idle(b), k, clock, es, a, c);
  }

  /** In an outage no call is granted, however calls overlap. */
  lemma {:induction false} NoneGranted(w: World, k: Client, clock: real, es: seq<Event>, end: real)
    requires Proper(w, k, clock, es) && Outage(es, end) && Refused(w)
    ensures Refused(Run(w, k, clock, es))
    decreases |es|
  {
    if es != [] {
      OutageRest(es, end);
      assert Refused(Step(w, es[0], k));
      NoneGranted(Step(w, es[0], k), k, es[0].now, es[1..], end);
    }
  }

  predicate Refused(w: World) {
    forall i | 0 <= i < |w.calls| :: w.calls[i] != Done(Some(true))
  }

  // ----- The bound is reached -----

  /** A run in an outage from `t` to `u` without cancellations, with at most `c` calls under way, and where it ends. */
  ghost predicate Reaches(w: World, k: Client, t: real, es: seq<Event>, c: nat, end: World, u: real) {
    && Proper(w, k, t, es) && Outage(es, u) && AtMost(w, k, t, es, c) && Cancels(es) == 0
    && Run(w, k, t, es) == end && t <= u && forall i | 0 <= i < |es| :: es[i].now <= u
  }

  lemma {:induction false} Chain(w: World, k: Client, t: real, a: seq<Event>, c: nat, mid: World, u: real,
                                 b: seq<Event>, end: World, v: real)
    requires Reaches(w, k, t, a, c, mid, u) && Reaches(mid, k, u, b, c, end, v)
    ensures Reaches(w, k, t, a + b, c, end, v)
    decreases |a|
  {
    if a == [] {
      assert a + b == b;
    } else {
      var next := Step(w, a[0], k);
      assert (a + b)[1..] == a[1..] + b;
      assert forall i | 0 <= i < |a| - 1 :: a[1..][i] == a[i + 1];
      assert Reaches(next, k, a[0].now, a[1..], c, mid, u);
      Chain(next, k, a[0].now, a[1..], c, mid, u, b, end, v);
    }
  }

  lemma OneEvent(w: World, k: Client, t: real, e: Event, c: nat)
    requires Enabled(w, e) && e.now == t && !e.Cancel? && (e.Reply? ==> !e.reply.Decision?)
    requires InFlight(w) <= c && InFlight(Step(w, e, k)) <= c
    ensures Reaches(w, k, t, [e], c, Step(w, e, k), t)
  {
    hide InFlight;
    var next := Step(w, e, k);
    assert [e][1..] == [];
    assert Proper(next, k, t, []) && Run(next, k, t, []) == next && AtMost(next, k, t, [], c);
    assert Proper(w, k, t, [e]) && Run(w, k, t, [e]) == next;
    assert AtMost(w, k, t, [e], c);
    assert Cancels([e][1..]) == 0 && Cancels([e]) == 0;
    assert [e][0] == e && Outage([e], t);
  }

  /** A breaker after `n` more failures, the last at `t`. */
  function Hit(b: Breaker, k: Client, n: nat, t: real): Breaker {
    Breaker(b.failures + n,
            if n > 0 && b.failures + n >= k.cfg.threshold then t + k.cfg.recovery else b.openUntil)
  }

  /** Without a sleep a call is driven to its end at one instant. */
  lemma {:induction false} FinishCall(w: World, k: Client, t: real, id: nat, n: nat, c: nat) returns (es: seq<Event>)
    requires k.backoff == 0.0 && id < |w.calls| && w.calls[id] == Posting(n) && 1 <= n <= k.maxRetries
    requires InFlight(w) <= c
    ensures var m := k.maxRetries - n;
            Reaches(w, k, t, es, c,
                    World(Hit(w.breaker, k, m + 1, t), w.calls[id := Done(Some(false))], w.sent + m), t)
    decreases k.maxRetries - n
  {
    var failed := Reply(id, Timeout, t);
    var w1 := Step(w, failed, k);
    TotalUpdate(w.calls, id, Retry(k, n, t), Busy);
    OneEvent(w, k, t, failed, c);
    if n == k.maxRetries {
      es := [failed];
    } else {
      var w2 := Step(w1, Wake(id, t), k);
      TotalUpdate(w1.calls, id, Posting(n + 1), Busy);
      OneEvent(w1, k, t, Wake(id, t), c);
      var rest := FinishCall(w2, k, t, id, n + 1, c);
      assert w2.calls[id := Done(Some(false))] == w.calls[id := Done(Some(false))];
      var m := k.maxRetries - n;
      var end := World(Hit(w.breaker, k, m + 1, t), w.calls[id := Done(Some(false))], w.sent + m);
      Chain(w1, k, t, [Wake(id, t)], c, w2, t, rest, end, t);
      Chain(w, k, t, [failed], c, w1, t, [Wake(id, t)] + rest, end, t);
      es := [failed] + ([Wake(id, t)] + rest);
    }
  }

  /** The last `m` calls wait for the reply to their first request, and the others have ended. */
  predicate LastPosting(w: World, m: nat) {
    && m <= |w.calls|
    && (forall i | 0 <= i < |w.calls| - m :: w.calls[i].Done?)
    && (forall i | |w.calls| - m <= i < |w.calls| :: w.calls[i] == Posting(1))
  }

  lemma {:induction false} LastInFlight(calls: seq<Phase>, m: nat)
    requires m <= |calls| && forall i | 0 <= i < |calls| - m :: calls[i].Done?
    requires forall i | |calls| - m <= i < |calls| :: calls[i] == Posting(1)
    ensures Total(calls, Busy) == m
    decreases |calls|
  {
    if calls != [] {
      LastInFlight(calls[1..], if m == |calls| then m - 1 else m);
    }
  }

  /** What `m` calls have cost at `t` and left behind. */
  predicate Spent(w: World, k: Client, m: nat, t: real, end: World)
    requires k.maxRetries >= 1
  {
    end.sent == w.sent + Quota(k.maxRetries, m) - m && end.breaker == Hit(w.breaker, k, Quota(k.maxRetries, m), t)
  }

  lemma {:induction false} FinishWave(w: World, k: Client, t: real, m: nat, c: nat) returns (es: seq<Event>, end: World)
    requires k.backoff == 0.0 && k.maxRetries >= 1 && LastPosting(w, m) && m <= c
    ensures Reaches(w, k, t, es, c, end, t) && Settled(end) && Spent(w, k, m, t, end)
    decreases m
  {
    hide Quota, Step, Enabled;
    QuotaNext(k.maxRetries, 0);
    LastInFlight(w.calls, m);
    if m == 0 {
      es, end := [], w;
    } else {
      QuotaNext(k.maxRetries, m - 1);
      var id := |w.calls| - m;
      var first := FinishCall(w, k, t, id, 1, c);
      var mid := World(Hit(w.breaker, k, k.maxRetries, t), w.calls[id := Done(Some(false))], w.sent + k.maxRetries - 1);
      assert LastPosting(mid, m - 1);
      var rest;
      rest, end := FinishWave(mid, k, t, m - 1, c);
      Chain(w, k, t, first, c, mid, t, rest, end, t);
      es := first + rest;
    }
  }

  lemma {:induction false} BeginWave(w: World, k: Client, t: real, m: nat, n: nat, c: nat)
      returns (es: seq<Event>, end: World)
    requires k.maxRetries >= 1 && LastPosting(w, n) && !Open(w.breaker, k.cfg, t) && n + m <= c
    ensures Reaches(w, k, t, es, c, end, t) && LastPosting(end, n + m)
    ensures end.sent == w.sent + m && end.breaker == w.breaker
    decreases m
  {
    LastInFlight(w.calls, n);
    if m == 0 {
      es, end := [], w;
    } else {
      var mid := Step(w, Begin(t), k);
      assert LastPosting(mid, n + 1);
      LastInFlight(mid.calls, n + 1);
      OneEvent(w, k, t, Begin(t), c);
      var rest;
      rest, end := BeginWave(mid, k, t, m - 1, n + 1, c);
      Chain(w, k, t, [Begin(t)], c, mid, t, rest, end, t);
      es := [Begin(t)] + rest;
    }
  }

  /** A wave of `c` calls at one instant, from a breaker that lets them through. */
  lemma {:induction false} FullWave(w: World, k: Client, t: real, c: nat) returns (es: seq<Event>, end: World)
    requires k.backoff == 0.0 && k.maxRetries >= 1 && Settled(w) && !Open(w.breaker, k.cfg, t)
    ensures Reaches(w, k, t, es, c, end, t) && Settled(end)
    ensures end.sent == w.sent + Quota(k.maxRetries, c)
    ensures end.breaker == Hit(w.breaker, k, Quota(k.maxRetries, c), t)
  {
    hide Quota, Step, Enabled;
    assert LastPosting(w, 0);
    var begun, mid := BeginWave(w, k, t, c, 0, c);
    var rest;
    rest, end := FinishWave(mid, k, t, c, c);
    Chain(w, k, t, begun, c, mid, t, rest, end, t);
    es := begun + rest;
  }

  lemma {:induction false} Later(w: World, k: Client, t: real, c: nat, u: real)
    requires t <= u && InFlight(w) <= c
    ensures Reaches(w, k, t, [], c, w, u)
  {
  }

  /** A wave now and after each of `n` recovery times. */
  lemma {:induction false} Waves(w: World, k: Client, t: real, n: nat, c: nat) returns (es: seq<Event>, end: World)
    requires Sane(k) && k.backoff == 0.0 && k.maxRetries >= 1 && c >= 1 && Settled(w) && !Open(w.breaker, k.cfg, t)
    requires w.breaker.failures + 1 >= k.cfg.threshold
    ensures Reaches(w, k, t, es, c, end, t + Times(n, k.cfg.recovery))
    ensures end.sent == w.sent + Quota(Quota(k.maxRetries, c), n + 1)
    decreases n
  {
    hide Quota, Times, Reaches, Run;
    var cr, recovery := Quota(k.maxRetries, c), k.cfg.recovery;
    QuotaNext(cr, 0);
    QuotaNext(cr, n);
    QuotaPositive(k, c);
    TimesAdd(0, 1, recovery);
    var first, mid := FullWave(w, k, t, c);
    if n == 0 {
      es, end := first, mid;
    } else {
      TimesAdd(1, n - 1, recovery);
      var later := t + recovery;
      assert LastPosting(mid, 0);
      LastInFlight(mid.calls, 0);
      Later(mid, k, t, c, later);
      var rest;
      rest, end := Waves(mid, k, later, n - 1, c);
      Chain(w, k, t, first, c, mid, t, [], mid, later);
      Chain(w, k, t, first + [], c, mid, later, rest, end, t + Times(n, recovery));
      es := first + [] + rest;
    }
  }

  lemma QuotaPositive(k: Client, c: nat)
    requires k.maxRetries >= 1 && c >= 1
    ensures Quota(k.maxRetries, c) >= 1
  {
    MulMonotone(k.maxRetries, 1, c);
  }

  /** `n` calls one after another, each refused at once. */
  lemma {:induction false} Refusals(w: World, k: Client, t: real, n: nat, c: nat) returns (es: seq<Event>, end: World)
    requires k.maxRetries >= 1 && c >= 1 && Settled(w) && (n > 0 ==> w.breaker.failures + n < k.cfg.threshold)
    ensures Reaches(w, k, t, es, c, end, t) && Settled(end)
    ensures end.sent == w.sent + n && end.breaker == Breaker(w.breaker.failures + n, w.breaker.openUntil)
    decreases n
  {
    assert LastPosting(w, 0);
    LastInFlight(w.calls, 0);
    if n == 0 {
      es, end := [], w;
    } else {
      var refused := Reply(|w.calls|, HttpError, t);
      var w1 := Step(w, Begin(t), k);
      TotalAppend(w.calls, Posting(1), Busy);
      OneEvent(w, k, t, Begin(t), c);
      var w2 := Step(w1, refused, k);
      TotalUpdate(w1.calls, |w.calls|, Done(Some(false)), Busy);
      OneEvent(w1, k, t, refused, c);
      Chain(w, k, t, [Begin(t)], c, w1, t, [refused], w2, t);
      var rest;
      rest, end := Refusals(w2, k, t, n - 1, c);
      Chain(w, k, t, [Begin(t)] + [refused], c, w2, t, rest, end, t);
      es := [Begin(t)] + [refused] + rest;
    }
  }

  /** No smaller bound holds for calls that overlap: without a sleep, for every threshold, retry count, number of calls
      at a time and number of recovery periods there is an outage that sends exactly what `OverlapBound` allows. */
  lemma {:induction false} OverlapBoundReached(b: Breaker, k: Client, clock: real, n: nat, c: nat)
    requires Sane(k) && k.backoff == 0.0 && k.maxRetries >= 1 && c >= 1
    requires b.failures < Trip(k) && !Open(b, k.cfg, clock)
    ensures exists es | Proper(Idle(b), k, clock, es) ::
              && Reaches(Idle(b), k, clock, es, c, Run(Idle(b), k, clock, es), clock + Times(n, k.cfg.recovery))
              && Run(Idle(b), k, clock, es).sent == Trip(k) - 1 - b.failures + k.maxRetries * c * (1 + n)
  {
    hide Run, Times;
    var left := Trip(k) - 1 - b.failures;
    var first, mid := Refusals(Idle(b), k, clock, left, c);
    var rest, end := Waves(mid, k, clock, n, c);
    Chain(Idle(b), k, clock, first, c, mid, clock, rest, end, clock + Times(n, k.cfg.recovery));
    assert Quota(Quota(k.maxRetries, c), n + 1) == k.maxRetries * c * (1 + n);
    var es := first + rest;
    assert Run(Idle(b), k, clock, es) == end;
  }

  // ----- The breaker hears of every reply -----

  /** What the replies of a run record: a decision, also a denial, is a success. */
  function History(es: seq<Event>): seq<Resilience.Event> {
    if es == [] then []
    else
      var before := History(es[..|es| - 1]);
      match es[|es| - 1]
      case Reply(_, Decision(_), _) => before + [Success]
      case Reply(_, _, now) => before + [Failure(now)]
      case _ => before
  }

  lemma {:induction false} RunLast(w: World, k: Client, clock: real, es: seq<Event>)
    requires Proper(w, k, clock, es) && es != []
    ensures var n := |es| - 1;
            && Proper(w, k, clock, es[..n]) && Enabled(Run(w, k, clock, es[..n]), es[n])
            && Run(w, k, clock, es) == Step(Run(w, k, clock, es[..n]), es[n], k)
    decreases |es|
  {
    hide Step, Enabled;
    if |es| > 1 {
      var next := Step(w, es[0], k);
      RunLast(next, k, es[0].now, es[1..]);
      assert es[..|es| - 1][1..] == es[1..][..|es| - 2];
    } else {
      assert es[..0] == [] && es[1..] == [];
      assert Proper(Step(w, es[0], k), k, es[0].now, []);
    }
  }

  /** In every run, with decisions and failures in any order and calls that overlap, the breaker is what the replies of
      the run make of it, and so is open as `BreakerMeaning` says. */
  lemma {:induction false} BreakerIsReplay(k: Client, clock: real, es: seq<Event>)
    requires Proper(Idle(INITIAL), k, clock, es)
    ensures Run(Idle(INITIAL), k, clock, es).breaker == Replay(k.cfg, History(es))
    decreases |es|
  {
    hide Open;
    if es != [] {
      var n := |es| - 1;
      RunLast(Idle(INITIAL), k, clock, es);
      BreakerIsReplay(k, clock, es[..n]);
      var before, h := History(es[..n]), History(es);
      if es[n].Reply? {
        assert h[..|h| - 1] == before;
      }
    }
  }

  /** A call ends with what it was told: a decision is its answer, a refusal or the last failure is a denial. */
  lemma AnswerMeaning(w: World, k: Client, id: nat, reply: Opa.Reply, now: real)
    requires Enabled(w, Reply(id, reply, now))
    ensures var p := Step(w, Reply(id, reply, now), k).calls[id];
            && (reply.Decision? ==> p == Done(Some(reply.allow)))
            && (reply.HttpError? || (!reply.Decision? && w.calls[id].n >= k.maxRetries) ==> p == Done(Some(false)))
            && (!reply.Decision? && !reply.HttpError? && w.calls[id].n < k.maxRetries ==>
                  p == Sleeping(w.calls[id].n, now + k.backoff))
  {
  }
}
