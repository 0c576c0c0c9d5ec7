/** `OpaClient.authorize` of platform_sdk/security.py: the retry loop, the fail-closed answer and
    the breaker updates. What the remote does is an arbitrary sequence of replies, each stamped with
    the clock reading at which the client sees it. */
module Opa {
  import opened Common
  import opened Resilience

  /** `HttpError` is a status error, which is not retried; `OtherError` covers every other exception,
      including a body that is not JSON. */
  datatype Reply = Decision(allow: bool) | Timeout | HttpError | OtherError

  datatype Attempt = Attempt(reply: Reply, at: real)

  datatype Outcome = Outcome(allowed: bool, sent: nat, finish: real, breaker: Breaker)

  /** The loop from attempt `i` on, entered at time `now` with `i` requests sent. */
  function Attempts(b: Breaker, cfg: Settings, maxRetries: int, attempts: seq<Attempt>, i: nat, now: real): Outcome
    requires |attempts| >= maxRetries
    decreases maxRetries - i
  {
    if i >= maxRetries then Outcome(false, i, now, b)
    else
      var a := attempts[i];
      match a.reply
      case Decision(allow) => Outcome(allow, i + 1, a.at, Succeeded(b))
      case HttpError => Outcome(false, i + 1, a.at, Failed(b, cfg, a.at))
      case _ => Attempts(Failed(b, cfg, a.at), cfg, maxRetries, attempts, i + 1, a.at)
  }

  function AuthorizeCall(b: Breaker, cfg: Settings, maxRetries: int, now: real, attempts: seq<Attempt>): Outcome
    requires |attempts| >= maxRetries
  {
    if Open(b, cfg, now) then Outcome(false, 0, now, b)
    else Attempts(b, cfg, maxRetries, attempts, 0, now)
  }

  class OpaClient {
    const breaker: CircuitBreaker
    const maxRetries: int

    constructor (settings: Settings, maxRetries: int)
      ensures breaker.settings == settings && this.maxRetries == maxRetries
      ensures fresh(breaker) && breaker.State() == INITIAL
    {
      this.breaker := new CircuitBreaker(settings);
      this.maxRetries := maxRetries;
    }

    method Authorize(now: real, attempts: seq<Attempt>) returns (allowed: bool, sent: nat)
      requires |attempts| >= maxRetries
      modifies breaker
      ensures var o := AuthorizeCall(old(breaker.State()), breaker.settings, maxRetries, now, attempts);
              allowed == o.allowed && sent == o.sent && breaker.State() == o.breaker
    {
      sent := 0;
      var open := breaker.IsOpen(now);
      if open {
        return false, 0;
      }
      ghost var goal := AuthorizeCall(breaker.State(), breaker.settings, maxRetries, now, attempts);
      ghost var clock := now;
      while sent < maxRetries
        invariant Attempts(breaker.State(), breaker.settings, maxRetries, attempts, sent, clock) == goal
        decreases maxRetries - sent
      {
        var attempt := attempts[sent];
        sent := sent + 1;
        clock := attempt.at;
        match attempt.reply
        case Decision(allow) =>
          breaker.RecordSuccess();
          return allow, sent;
        case HttpError =>
          breaker.RecordFailure(attempt.at);
          return false, sent;
        case _ =>
          breaker.RecordFailure(attempt.at);
      }
      allowed := false;
    }
  }

  // ----- Fail closed -----

  /** Every reply from `i` up to `k` is one that the loop retries. */
  ghost predicate Retried(attempts: seq<Attempt>, i: nat, k: nat)
    requires k <= |attempts|
  {
    forall j | i <= j < k :: attempts[j].reply.Timeout? || attempts[j].reply.OtherError?
  }

  /** Access is granted exactly when the breaker lets the call through and the first reply that is
      not retried, among the first `maxRetries`, grants it. */
  lemma {:induction false} GrantedIff(b: Breaker, cfg: Settings, maxRetries: int, now: real, attempts: seq<Attempt>)
    requires |attempts| >= maxRetries
    ensures AuthorizeCall(b, cfg, maxRetries, now, attempts).allowed <==>
              && !Open(b, cfg, now)
              && exists k | 0 <= k < maxRetries :: attempts[k].reply == Decision(true) && Retried(attempts, 0, k)
  {
    GrantedFrom(b, cfg, maxRetries, attempts, 0, now);
  }

  lemma {:induction false} GrantedFrom(b: Breaker, cfg: Settings, maxRetries: int, attempts: seq<Attempt>, i: nat,
                                       now: real)
    requires |attempts| >= maxRetries
    ensures Attempts(b, cfg, maxRetries, attempts, i, now).allowed <==>
              exists k | i <= k < maxRetries :: attempts[k].reply == Decision(true) && Retried(attempts, i, k)
    decreases maxRetries - i
  {
    if i < maxRetries {
      assert Retried(attempts, i, i);
      GrantedFrom(Failed(b, cfg, attempts[i].at), cfg, maxRetries, attempts, i + 1, attempts[i].at);
      if k :| i + 1 <= k < maxRetries && attempts[k].reply == Decision(true) && Retried(attempts, i + 1, k) {
        assert Retried(attempts, i, k) <==> Retried(attempts, i, i + 1);
      }
    }
  }

  /** What a call that passes the breaker sends and leaves behind: it stops at the first reply that is not retried, and
      a decision, also a denial, clears the count of failures, to which everything else adds one for each request. */
  lemma {:induction false} CallLeaves(b: Breaker, cfg: Settings, maxRetries: int, attempts: seq<Attempt>, i: nat,
                                      now: real, n: nat)
    requires |attempts| >= maxRetries && i <= n <= maxRetries && Retried(attempts, i, n)
    requires n < maxRetries ==> attempts[n].reply.Decision? || attempts[n].reply.HttpError?
    ensures var o := Attempts(b, cfg, maxRetries, attempts, i, now);
            && o.sent == (if n < maxRetries then n + 1 else n)
            && o.breaker.failures == (if n < maxRetries && attempts[n].reply.Decision? then 0
                                      else b.failures + o.sent - i)
    decreases maxRetries - i
  {
    if i < n {
      assert attempts[i].reply.Timeout? || attempts[i].reply.OtherError?;
      CallLeaves(Failed(b, cfg, attempts[i].at), cfg, maxRetries, attempts, i + 1, attempts[i].at, n);
    }
  }

  // ----- Traffic during an outage -----

  /** What a client is configured with; `backoff` is the sleep between two attempts of one call. */
  datatype Client = Client(cfg: Settings, maxRetries: int, backoff: real)

  predicate Sane(k: Client) {
    k.cfg.recovery > 0.0 && k.backoff >= 0.0
  }

  datatype Call = Call(now: real, attempts: seq<Attempt>)

  /** Attempts come after the start of the call, and at least the backoff apart. */
  ghost predicate Paced(call: Call, backoff: real) {
    && (call.attempts != [] ==> call.now <= call.attempts[0].at)
    && (forall i | 0 <= i < |call.attempts| - 1 :: call.attempts[i].at + backoff <= call.attempts[i + 1].at)
  }

  /** Every call has an answer for each attempt it may make. */
  ghost predicate Answered(k: Client, calls: seq<Call>) {
    forall c | c in calls :: |c.attempts| >= k.maxRetries
  }

  /** One call after another, each starting no earlier than the previous one returned. */
  ghost predicate Sequential(b: Breaker, k: Client, clock: real, calls: seq<Call>)
    decreases |calls|
  {
    calls != [] ==>
      && |calls[0].attempts| >= k.maxRetries
      && clock <= calls[0].now
      && Paced(calls[0], k.backoff)
      && var o := Made(b, k, calls[0]);
         Sequential(o.breaker, k, o.finish, calls[1..])
  }

  /** Every request fails, and no call starts after `end`. */
  ghost predicate Outage(calls: seq<Call>, end: real) {
    forall c | c in calls :: c.now <= end && AllFail(c)
  }

  ghost predicate AllFail(c: Call) {
    forall a | a in c.attempts :: !a.reply.Decision?
  }

  function Made(b: Breaker, k: Client, call: Call): Outcome
    requires |call.attempts| >= k.maxRetries
  {
    AuthorizeCall(b, k.cfg, k.maxRetries, call.now, call.attempts)
  }

  /** The requests sent in a run of calls, and whether any of them was granted. */
  function Run(b: Breaker, k: Client, calls: seq<Call>): (nat, bool)
    requires Answered(k, calls)
    decreases |calls|
  {
    if calls == [] then (0, false)
    else
      assert calls[0] in calls && forall c | c in calls[1..] :: c in calls;
      var o := Made(b, k, calls[0]);
      var (sent, granted) := Run(o.breaker, k, calls[1..]);
      (o.sent + sent, o.allowed || granted)
  }

  /** `n` times `x`; its laws are the lemmas below. */
  function Times(n: int, x: real): real {
    n as real * x
  }

  lemma TimesAdd(m: int, n: int, x: real)
    ensures Times(m + n, x) == Times(m, x) + Times(n, x)
    ensures Times(0, x) == 0.0 && Times(1, x) == x
  {
  }

  lemma TimesSplit(n: int, x: real, y: real)
    ensures Times(n, x - y) == Times(n, x) - Times(n, y)
  {
  }

  lemma TimesMonotone(m: int, n: int, x: real)
    requires if x >= 0.0 then m <= n else n <= m
    ensures Times(m, x) <= Times(n, x)
  {
  }

  /** The least time from the start of a round that trips the breaker after `m` requests to the next round. */
  function RoundTime(k: Client, m: int): real {
    k.cfg.recovery + Times(m - 1, k.backoff)
  }

  /** One call in an outage: what it sends, how long it takes and where it leaves the breaker. */
  lemma {:induction false} FailingCall(b: Breaker, k: Client, call: Call, i: nat, now: real)
    requires Sane(k) && |call.attempts| >= k.maxRetries && Paced(call, k.backoff) && AllFail(call)
    requires i <= Max(k.maxRetries, 0)
    requires if i == 0 then now == call.now else i <= |call.attempts| && now == call.attempts[i - 1].at
    ensures var o := Attempts(b, k.cfg, k.maxRetries, call.attempts, i, now);
            && !o.allowed
            && i <= o.sent <= Max(k.maxRetries, 0)
            && o.finish >= now + Times(Max(o.sent - Max(i, 1), 0), k.backoff)
            && o.breaker.failures == b.failures + (o.sent - i)
            && (o.sent == i ==> o.breaker == b)
            && (o.sent > i && o.breaker.failures >= k.cfg.threshold ==>
                  o.breaker.openUntil == o.finish + k.cfg.recovery)
            && (i < k.maxRetries ==> o.sent > i)
    decreases k.maxRetries - i
  {
    hide Times;
    TimesAdd(0, 0, k.backoff);
    if i < k.maxRetries {
      var a := call.attempts[i];
      assert a in call.attempts;
      if i > 0 {
        assert call.attempts[i - 1].at + k.backoff <= call.attempts[i].at;
      }
      if !a.reply.HttpError? {
        FailingCall(Failed(b, k.cfg, a.at), k, call, i + 1, a.at);
        var o := Attempts(b, k.cfg, k.maxRetries, call.attempts, i, now);
        TimesAdd(o.sent - i - 1, 1, k.backoff);
      }
    }
  }

  /** The same for a whole call, which the breaker may stop. */
  lemma {:induction false} CallEffect(b: Breaker, k: Client, c: Call)
    requires Sane(k) && |c.attempts| >= k.maxRetries && Paced(c, k.backoff) && AllFail(c)
    ensures var o := Made(b, k, c);
            && !o.allowed && o.finish >= c.now && o.sent <= Max(k.maxRetries, 0)
            && (if Open(b, k.cfg, c.now) || k.maxRetries <= 0 then o.sent == 0 && o.breaker == b
                else o.sent >= 1 && o.breaker.failures == b.failures + o.sent
                     && (o.breaker.failures >= k.cfg.threshold ==>
                           o.breaker.openUntil >= c.now + RoundTime(k, o.sent)))
  {
    hide Times;
    FailingCall(b, k, c, 0, c.now);
    var o := Made(b, k, c);
    TimesMonotone(0, Max(o.sent - 1, 0), k.backoff);
    TimesAdd(0, 0, k.backoff);
  }

  /** In an outage a call that the breaker lets through, while no other is under way, is a single request if and only if
      one attempt is allowed or the first is refused. */
  lemma {:induction false} OneProbeIff(b: Breaker, k: Client, c: Call)
    requires Sane(k) && k.maxRetries >= 1 && |c.attempts| >= k.maxRetries && Paced(c, k.backoff) && AllFail(c)
    requires !Open(b, k.cfg, c.now)
    ensures Made(b, k, c).sent == 1 <==> k.maxRetries == 1 || c.attempts[0].reply.HttpError?
  {
    var a := c.attempts[0];
    assert a in c.attempts;
    if !a.reply.HttpError? {
      FailingCall(Failed(b, k.cfg, a.at), k, c, 1, a.at);
    }
  }

  /** In an outage nothing is ever granted. */
  lemma {:induction false} NeverGranted(b: Breaker, k: Client, clock: real, calls: seq<Call>, end: real)
    requires Sane(k) && Answered(k, calls) && Sequential(b, k, clock, calls) && Outage(calls, end)
    ensures !Run(b, k, calls).1
    decreases |calls|
  {
    hide Made, Paced, AllFail, RoundTime;
    if calls != [] {
      var c := calls[0];
      assert c in calls && forall d | d in calls[1..] :: d in calls;
      CallEffect(b, k, c);
      var o := Made(b, k, c);
      NeverGranted(o.breaker, k, o.finish, calls[1..], end);
    }
  }

  // ----- The time that requests take -----

  /** How many rounds it takes at least, or at most when the backoff is the longer wait, to send `s` requests. */
  function Rounds(k: Client, s: nat): nat
    requires k.maxRetries >= 1
  {
    if s == 0 then 0 else if k.backoff <= k.cfg.recovery then (s - 1) / k.maxRetries + 1 else s
  }

  /** The least time in which `s` requests can be sent and the breaker be ready for another round. */
  function Cost(k: Client, s: int): real
    requires k.maxRetries >= 1
  {
    if s <= 0 then 0.0 else Times(Rounds(k, s), k.cfg.recovery - k.backoff) + Times(s, k.backoff)
  }

  lemma MulMonotone(r: nat, x: int, y: int)
    requires x <= y
    ensures r * x <= r * y
  {
  }

  lemma Below(r: nat, x: int, y: int)
    requires r * x < r * y
    ensures x < y
  {
    if y <= x {
      MulMonotone(r, y, x);
    }
  }

  lemma DivMonotone(x: nat, y: nat, r: nat)
    requires x <= y && r >= 1
    ensures x / r <= y / r
  {
    assert x == r * (x / r) + x % r && y == r * (y / r) + y % r;
    assert r * (y / r + 1) == r * (y / r) + r;
    Below(r, x / r, y / r + 1);
  }

  lemma DivUnique(x: nat, r: nat, q: nat, m: nat)
    requires m < r && x == r * q + m
    ensures x / r == q
  {
    assert x == r * (x / r) + x % r;
    assert r * (x / r + 1) == r * (x / r) + r && r * (q + 1) == r * q + r;
    Below(r, x / r, q + 1);
    Below(r, q, x / r + 1);
  }

  lemma Quotients(r: nat, m: nat, s: nat)
    requires 1 <= m <= r && s >= 1
    ensures (m + s - 1) / r <= (s - 1) / r + 1
    ensures (s - 1) / r <= s / r
  {
    var q := (s - 1) / r;
    assert s - 1 == r * q + (s - 1) % r && r * (q + 1) == r * q + r;
    DivUnique(r + s - 1, r, q + 1, (s - 1) % r);
    DivMonotone(m + s - 1, r + s - 1, r);
    DivMonotone(s - 1, s, r);
  }

  /** A round of `m` requests in front takes no less time than the `m` requests cost. */
  lemma {:induction false} CostRound(k: Client, m: nat, s: nat)
    requires Sane(k) && 1 <= m <= k.maxRetries
    ensures Cost(k, m + s) <= RoundTime(k, m) + Cost(k, s)
  {
    hide Times;
    var d, x := k.cfg.recovery - k.backoff, k.backoff;
    if s > 0 {
      Quotients(k.maxRetries, m, s);
    } else {
      DivUnique(m - 1, k.maxRetries, 0, m - 1);
    }
    TimesMonotone(Rounds(k, m + s), Rounds(k, s) + 1, d);
    TimesAdd(Rounds(k, s), 1, d);
    TimesAdd(m - 1, 1, x);
    TimesAdd(m, s, x);
  }

  lemma {:induction false} CostStep(k: Client, s: nat)
    requires Sane(k) && k.maxRetries >= 1
    ensures 0.0 <= Cost(k, s) <= Cost(k, s + 1)
    decreases s
  {
    hide Times;
    var d, x := k.cfg.recovery - k.backoff, k.backoff;
    TimesAdd(s, 1, x);
    TimesAdd(s, 1, d);
    if s > 0 {
      CostStep(k, s - 1);
      Quotients(k.maxRetries, 1, s);
      if d >= 0.0 {
        TimesMonotone(Rounds(k, s), Rounds(k, s + 1), d);
      }
    } else {
      DivUnique(0, k.maxRetries, 0, 0);
    }
  }

  lemma {:induction false} CostMonotone(k: Client, s: int, t: int)
    requires Sane(k) && k.maxRetries >= 1 && s <= t
    ensures 0.0 <= Cost(k, s) <= Cost(k, t)
    decreases t - s
  {
    hide Rounds;
    if s < t {
      CostMonotone(k, s + 1, t);
      if s >= 0 {
        CostStep(k, s);
      }
    } else if s >= 0 {
      CostStep(k, s);
    }
  }

  /** A round of `m` requests, then `rest` more of which the last round is free. */
  lemma {:induction false} RoundThenRest(k: Client, m: nat, rest: nat)
    requires Sane(k) && 1 <= m <= k.maxRetries
    ensures Cost(k, m + rest - k.maxRetries) <= RoundTime(k, m) + Cost(k, rest - k.maxRetries)
  {
    hide Rounds, Times;
    if rest >= k.maxRetries {
      CostRound(k, m, rest - k.maxRetries);
    } else {
      CostMonotone(k, m + rest - k.maxRetries, m);
      CostRound(k, m, 0);
    }
  }

  lemma {:induction false} RoundTimeMonotone(k: Client, m: nat, n: nat)
    requires Sane(k) && m <= n
    ensures RoundTime(k, m) <= RoundTime(k, n)
  {
    TimesMonotone(m - 1, n - 1, k.backoff);
  }

  // ----- The bounds -----

  /** From a tripped breaker nothing is sent before the recovery instant, and `n` requests take, after it, at least
      what all but the last round of them cost. */
  lemma {:induction false} TrippedBound(b: Breaker, k: Client, clock: real, calls: seq<Call>, end: real)
    requires Sane(k) && k.maxRetries >= 1 && b.failures >= Max(k.cfg.threshold, 1)
    requires Answered(k, calls) && Sequential(b, k, clock, calls) && Outage(calls, end)
    ensures var n := Run(b, k, calls).0;
            n > 0 ==> b.openUntil + Cost(k, n - k.maxRetries) <= end
    decreases |calls|
  {
    hide Made, Cost, RoundTime, Paced, AllFail;
    if calls != [] {
      var c := calls[0];
      assert c in calls && forall d | d in calls[1..] :: d in calls;
      CallEffect(b, k, c);
      var o := Made(b, k, c);
      TrippedBound(o.breaker, k, o.finish, calls[1..], end);
      var rest := Run(o.breaker, k, calls[1..]).0;
      if o.sent > 0 {
        RoundThenRest(k, o.sent, rest);
        NoCost(k, o.sent - k.maxRetries);
      }
    }
  }

  lemma NoCost(k: Client, s: int)
    requires k.maxRetries >= 1
    ensures s <= 0 ==> Cost(k, s) == 0.0
  {
  }

  /** From a breaker that has not tripped: beyond the failures that are left before it trips and one round, requests
      cost time. */
  lemma {:induction false} SharpBound(b: Breaker, k: Client, clock: real, calls: seq<Call>, end: real)
    requires Sane(k) && k.maxRetries >= 1 && b.failures < Max(k.cfg.threshold, 1)
    requires Answered(k, calls) && Sequential(b, k, clock, calls) && Outage(calls, end)
    ensures var n, left := Run(b, k, calls).0, Max(k.cfg.threshold, 1) - 1 - b.failures;
            n > left ==> clock + Cost(k, n - left - k.maxRetries) <= end
    decreases |calls|
  {
    hide Made, Cost, RoundTime, Paced, AllFail;
    if calls != [] {
      var c := calls[0];
      assert c in calls && forall d | d in calls[1..] :: d in calls;
      CallEffect(b, k, c);
      var o := Made(b, k, c);
      var rest := Run(o.breaker, k, calls[1..]).0;
      if o.breaker.failures < Max(k.cfg.threshold, 1) {
        SharpBound(o.breaker, k, o.finish, calls[1..], end);
      } else {
        TrippedBound(o.breaker, k, o.finish, calls[1..], end);
        var left := Max(k.cfg.threshold, 1) - 1 - b.failures;
        RoundThenRest(k, o.sent - left, rest);
        RoundTimeMonotone(k, o.sent - left, o.sent);
        NoCost(k, o.sent - left - k.maxRetries);
      }
    }
  }

  lemma CeilBounds(s: nat, r: nat)
    requires s >= 1 && r >= 1
    ensures s <= r * ((s - 1) / r + 1)
    ensures (s - 1) / r + 1 <= s
  {
    var q := (s - 1) / r;
    assert s - 1 == r * q + (s - 1) % r && r * (q + 1) == r * q + r;
    MulMonotone(q, 1, r);
  }

  lemma {:induction false} RoundsCost(k: Client, s: nat)
    requires Sane(k) && k.maxRetries >= 1
    ensures Times(Rounds(k, s), k.cfg.recovery) <= Cost(k, s)
    ensures s <= k.maxRetries * Rounds(k, s)
  {
    hide Times;
    var n, x := Rounds(k, s), k.backoff;
    TimesSplit(n, k.cfg.recovery, x);
    TimesAdd(0, 0, k.cfg.recovery);
    if s > 0 {
      MulMonotone(s, 1, k.maxRetries);
      CeilBounds(s, k.maxRetries);
      if n < s {
        TimesMonotone(n, s, x);
      }
    }
  }

  lemma FloorBound(n: int, r: real, l: real)
    requires r > 0.0 && Times(n, r) <= l
    ensures n <= (l / r).Floor
  {
    var q := l / r;
    assert q * r == l;
    assert (q - n as real) * r >= 0.0;
    NonNegative(q - n as real, r);
  }

  lemma NonNegative(x: real, r: real)
    requires r > 0.0 && x * r >= 0.0
    ensures x >= 0.0
  {
  }

  /** The bound without the backoff: calls made over the time from `clock` to `end` send at most the failures that are
      left before the breaker trips, plus one full round of retries, plus one round for each recovery period, and
      none of them is granted. */
  lemma {:induction false} OutageBound(b: Breaker, k: Client, clock: real, calls: seq<Call>, end: real)
    requires Sane(k) && b.failures < Max(k.cfg.threshold, 1) && clock <= end
    requires Answered(k, calls) && Sequential(b, k, clock, calls) && Outage(calls, end)
    ensures var (sent, granted) := Run(b, k, calls);
            && !granted
            && sent <= Max(k.cfg.threshold, 1) - 1 - b.failures + Max(k.maxRetries, 0)
                       + Max(k.maxRetries, 0) * ((end - clock) / k.cfg.recovery).Floor
  {
    hide Times, Cost, Rounds;
    NeverGranted(b, k, clock, calls, end);
    TimesAdd(0, 0, k.cfg.recovery);
    var periods := ((end - clock) / k.cfg.recovery).Floor;
    FloorBound(0, k.cfg.recovery, end - clock);
    if k.maxRetries >= 1 {
      SharpBound(b, k, clock, calls, end);
      var s := Run(b, k, calls).0 - (Max(k.cfg.threshold, 1) - 1 - b.failures) - k.maxRetries;
      MulMonotone(k.maxRetries, 0, periods);
      if s > 0 {
        RoundsCost(k, s);
        FloorBound(Rounds(k, s), k.cfg.recovery, end - clock);
        MulMonotone(k.maxRetries, Rounds(k, s), periods);
      }
    } else {
      NothingSent(b, k, calls);
    }
  }

  lemma {:induction false} NothingSent(b: Breaker, k: Client, calls: seq<Call>)
    requires k.maxRetries <= 0 && Answered(k, calls)
    ensures Run(b, k, calls).0 == 0
    decreases |calls|
  {
    if calls != [] {
      NothingSent(Made(b, k, calls[0]).breaker, k, calls[1..]);
    }
  }

  // ----- The sharp bound is reached -----

  /** A call of which exactly `m` attempts are made: all time out but the last, which is refused. */
  function Round(k: Client, m: nat, at: real): Call
    requires 1 <= m <= k.maxRetries
  {
    Call(at, seq(k.maxRetries, i => Attempt(if i + 1 < m then Timeout else HttpError, at + Times(i, k.backoff))))
  }

  lemma {:induction false} RoundFits(k: Client, m: nat, at: real)
    requires Sane(k) && 1 <= m <= k.maxRetries
    ensures Round(k, m, at).now == at && |Round(k, m, at).attempts| == k.maxRetries
    ensures Paced(Round(k, m, at), k.backoff) && AllFail(Round(k, m, at))
  {
    hide Times;
    forall i | 0 <= i < k.maxRetries - 1
      ensures Round(k, m, at).attempts[i].at + k.backoff <= Round(k, m, at).attempts[i + 1].at
    {
      TimesAdd(i, 1, k.backoff);
    }
    TimesAdd(0, 0, k.backoff);
  }

  lemma {:induction false} RoundSends(b: Breaker, k: Client, m: nat, at: real, i: nat, now: real)
    requires 1 <= m <= k.maxRetries && i < m
    ensures var o := Attempts(b, k.cfg, k.maxRetries, Round(k, m, at).attempts, i, now);
            && o.sent == m && o.finish == at + Times(m - 1, k.backoff)
            && o.breaker.failures == b.failures + m - i
            && (o.breaker.failures < k.cfg.threshold ==> o.breaker.openUntil == b.openUntil)
            && (o.breaker.failures >= k.cfg.threshold ==> o.breaker.openUntil == o.finish + k.cfg.recovery)
    decreases m - i
  {
    hide Times;
    var a := Round(k, m, at).attempts[i];
    if i + 1 < m {
      RoundSends(Failed(b, k.cfg, a.at), k, m, at, i + 1, a.at);
    }
  }

  /** A run of calls that is possible in an outage from `clock` to `end`. */
  ghost predicate Reaches(b: Breaker, k: Client, clock: real, calls: seq<Call>, end: real) {
    Answered(k, calls) && Sequential(b, k, clock, calls) && Outage(calls, end)
  }

  /** The breaker after a round. */
  function Worn(b: Breaker, k: Client, m: nat, at: real): Breaker {
    Breaker(b.failures + m, if b.failures + m >= k.cfg.threshold then at + RoundTime(k, m) else b.openUntil)
  }

  lemma {:induction false} RoundMade(b: Breaker, k: Client, m: nat, at: real)
    requires Sane(k) && 1 <= m <= k.maxRetries && !Open(b, k.cfg, at)
    ensures |Round(k, m, at).attempts| == k.maxRetries
    ensures var o := Made(b, k, Round(k, m, at));
            o.sent == m && o.finish == at + Times(m - 1, k.backoff) && o.breaker == Worn(b, k, m, at)
  {
    hide Times;
    RoundSends(b, k, m, at, 0, at);
  }

  /** Adding one round in front of a run. */
  lemma {:induction false} Prepend(b: Breaker, k: Client, m: nat, at: real, later: real, rest: seq<Call>, end: real)
    requires Sane(k) && 1 <= m <= k.maxRetries && at <= end && !Open(b, k.cfg, at)
    requires at + Times(m - 1, k.backoff) <= later && Reaches(Worn(b, k, m, at), k, later, rest, end)
    ensures Reaches(b, k, at, [Round(k, m, at)] + rest, end)
    ensures Run(b, k, [Round(k, m, at)] + rest).0 == m + Run(Worn(b, k, m, at), k, rest).0
  {
    hide Times, Made, Worn, Paced, AllFail, Round;
    RoundFits(k, m, at);
    RoundMade(b, k, m, at);
    SequentialEarlier(Worn(b, k, m, at), k, at + Times(m - 1, k.backoff), later, rest);
    assert ([Round(k, m, at)] + rest)[1..] == rest;
  }

  lemma SequentialEarlier(b: Breaker, k: Client, clock: real, later: real, calls: seq<Call>)
    requires clock <= later && Sequential(b, k, later, calls)
    ensures Sequential(b, k, clock, calls)
  {
  }

  /** The size of the first round that makes `s` requests cheapest: a short round first, then full ones. */
  function FirstRound(k: Client, s: nat): nat
    requires k.maxRetries >= 1 && s >= 1
  {
    if k.backoff <= k.cfg.recovery then (s - 1) % k.maxRetries + 1 else 1
  }

  lemma {:induction false} FirstRoundCost(k: Client, s: nat)
    requires Sane(k) && k.maxRetries >= 1 && s >= 1
    ensures var m := FirstRound(k, s);
            && 1 <= m <= k.maxRetries && m <= s
            && Cost(k, s) == RoundTime(k, m) + Cost(k, s - m)
  {
    hide Times;
    var m, d, x := FirstRound(k, s), k.cfg.recovery - k.backoff, k.backoff;
    if k.backoff <= k.cfg.recovery {
      FullRounds(k.maxRetries, s);
    }
    assert Rounds(k, s) == Rounds(k, s - m) + 1;
    TimesAdd(Rounds(k, s - m), 1, d);
    TimesAdd(m - 1, 1, x);
    TimesAdd(m, s - m, x);
  }

  lemma FullRounds(r: nat, s: nat)
    requires r >= 1 && s >= 1
    ensures var m := (s - 1) % r + 1;
            m <= s && (if s == m then (s - 1) / r == 0 else (s - m - 1) / r + 1 == (s - 1) / r)
  {
    var q, m := (s - 1) / r, (s - 1) % r + 1;
    assert s - 1 == r * q + (s - 1) % r;
    assert s - m == r * q;
    if q > 0 {
      LastBefore(r, q);
      MulMonotone(r, 1, q);
    }
  }

  lemma LastBefore(r: nat, q: nat)
    requires r >= 1 && q >= 1
    ensures r * q >= 1 && (r * q - 1) / r == q - 1
  {
    MulMonotone(r, 1, q);
    assert r * q - 1 == r * (q - 1) + (r - 1);
    DivUnique(r * q - 1, r, q - 1, r - 1);
  }

  /** The cheapest rounds for `s` requests, and a full round behind them. */
  function CheapestRun(k: Client, s: nat, at: real): seq<Call>
    requires Sane(k) && k.maxRetries >= 1
    decreases s
  {
    FirstRoundFits(k, s);
    if s == 0 then [Round(k, k.maxRetries, at)]
    else
      var m := FirstRound(k, s);
      [Round(k, m, at)] + CheapestRun(k, s - m, at + RoundTime(k, m))
  }

  lemma FirstRoundFits(k: Client, s: nat)
    requires Sane(k) && k.maxRetries >= 1
    ensures s >= 1 ==> 1 <= FirstRound(k, s) <= k.maxRetries && FirstRound(k, s) <= s
  {
    if s >= 1 {
      FirstRoundCost(k, s);
    }
  }

  lemma {:induction false} CheapestRunSends(b: Breaker, k: Client, s: nat, at: real)
    requires Sane(k) && k.maxRetries >= 1 && b.failures + 1 >= k.cfg.threshold && !Open(b, k.cfg, at)
    ensures Reaches(b, k, at, CheapestRun(k, s, at), at + Cost(k, s))
    ensures Run(b, k, CheapestRun(k, s, at)).0 == s + k.maxRetries
    decreases s
  {
    hide Times, Cost, Round, Reaches, Run;
    CostStep(k, s);
    NoCost(k, 0);
    if s == 0 {
      NothingMore(Worn(b, k, k.maxRetries, at), k, at + Times(k.maxRetries - 1, k.backoff), at);
      Prepend(b, k, k.maxRetries, at, at + Times(k.maxRetries - 1, k.backoff), [], at);
      assert [Round(k, k.maxRetries, at)] + [] == CheapestRun(k, s, at);
    } else {
      FirstRoundCost(k, s);
      var m := FirstRound(k, s);
      var later := at + RoundTime(k, m);
      CheapestRunSends(Worn(b, k, m, at), k, s - m, later);
      Prepend(b, k, m, at, later, CheapestRun(k, s - m, later), at + Cost(k, s));
    }
  }

  lemma NothingMore(b: Breaker, k: Client, clock: real, end: real)
    ensures Reaches(b, k, clock, [], end) && Run(b, k, []).0 == 0
  {
  }

  /** `n` calls that are refused at once, then others. */
  function Refusals(k: Client, n: nat, at: real, calls: seq<Call>): seq<Call>
    requires k.maxRetries >= 1
  {
    if n == 0 then calls else [Round(k, 1, at)] + Refusals(k, n - 1, at, calls)
  }

  lemma {:induction false} RefusalsSend(b: Breaker, k: Client, n: nat, at: real, calls: seq<Call>, end: real)
    requires Sane(k) && k.maxRetries >= 1 && (n > 0 ==> b.failures + n < k.cfg.threshold) && at <= end
    requires Reaches(Breaker(b.failures + n, b.openUntil), k, at, calls, end)
    ensures Reaches(b, k, at, Refusals(k, n, at, calls), end)
    ensures Run(b, k, Refusals(k, n, at, calls)).0 == n + Run(Breaker(b.failures + n, b.openUntil), k, calls).0
    decreases n
  {
    hide Times, Round;
    if n > 0 {
      TimesAdd(0, 0, k.backoff);
      var next := Breaker(b.failures + 1, b.openUntil);
      assert Worn(b, k, 1, at) == next;
      RefusalsSend(next, k, n - 1, at, calls, end);
      Prepend(b, k, 1, at, at, Refusals(k, n - 1, at, calls), end);
    } else {
      assert Breaker(b.failures + 0, b.openUntil) == b;
    }
  }

  /** Some outage from `clock` to `end`, with calls one after another, makes the client send exactly `n` requests. */
  ghost predicate CanSend(b: Breaker, k: Client, clock: real, end: real, n: nat) {
    exists calls :: Reaches(b, k, clock, calls, end) && Run(b, k, calls).0 == n
  }

  /** The exact traffic of calls one after another in an outage: `n` requests can be sent if and only if they do not
      exceed the failures that are left before the breaker trips and one round, or what exceeds them fits, by its cost,
      into the time. */
  lemma {:induction false} CanSendIff(b: Breaker, k: Client, clock: real, end: real, n: nat)
    requires Sane(k) && k.maxRetries >= 1 && clock <= end
    requires b.failures < Max(k.cfg.threshold, 1) && !Open(b, k.cfg, clock)
    ensures var free := Max(k.cfg.threshold, 1) - 1 - b.failures + k.maxRetries;
            CanSend(b, k, clock, end, n) <==> n <= free || clock + Cost(k, n - free) <= end
  {
    hide Times, Cost, Round, Worn;
    var left := Max(k.cfg.threshold, 1) - 1 - b.failures;
    if calls :| Reaches(b, k, clock, calls, end) && Run(b, k, calls).0 == n {
      SharpBound(b, k, clock, calls, end);
    }
    var ready := Breaker(b.failures + left, b.openUntil);
    if n <= left {
      NothingMore(Breaker(b.failures + n, b.openUntil), k, clock, end);
      RefusalsSend(b, k, n, clock, [], end);
      assert CanSend(b, k, clock, end, n);
    } else if n <= left + k.maxRetries {
      var m := n - left;
      var later := clock + Times(m - 1, k.backoff);
      NothingMore(Worn(ready, k, m, clock), k, later, end);
      Prepend(ready, k, m, clock, later, [], end);
      RefusalsSend(b, k, left, clock, [Round(k, m, clock)] + [], end);
      assert CanSend(b, k, clock, end, n);
    } else if clock + Cost(k, n - left - k.maxRetries) <= end {
      var s := n - left - k.maxRetries;
      CheapestRunSends(ready, k, s, clock);
      CheapestRunEnds(ready, k, s, clock, end);
      RefusalsSend(b, k, left, clock, CheapestRun(k, s, clock), end);
      assert CanSend(b, k, clock, end, n);
    }
  }

  lemma CheapestRunEnds(b: Breaker, k: Client, s: nat, at: real, end: real)
    requires Sane(k) && k.maxRetries >= 1 && at + Cost(k, s) <= end
    requires Reaches(b, k, at, CheapestRun(k, s, at), at + Cost(k, s))
    ensures Reaches(b, k, at, CheapestRun(k, s, at), end)
  {
    hide Cost, CheapestRun;
  }

  /** The bound without the backoff is reached when there is no backoff, or nothing to back off for. */
  lemma {:induction false} OutageBoundReached(b: Breaker, k: Client, clock: real, n: nat)
    requires Sane(k) && k.maxRetries >= 1 && b.failures < k.cfg.threshold
    requires k.backoff == 0.0 || k.maxRetries == 1
    ensures CanSend(b, k, clock, clock + n as real * k.cfg.recovery,
                    k.cfg.threshold - 1 - b.failures + k.maxRetries + k.maxRetries * n)
  {
    var r, s, x := k.maxRetries, k.maxRetries * n, k.backoff;
    MulMonotone(r, 0, n);
    TimesSplit(n, k.cfg.recovery, x);
    if n > 0 {
      LastBefore(r, n);
      assert Rounds(k, s) == n;
    }
    assert Times(s, x) == Times(n, x);
    assert Cost(k, s) == Times(n, k.cfg.recovery) >= 0.0;
    CanSendIff(b, k, clock, clock + n as real * k.cfg.recovery, k.cfg.threshold - 1 - b.failures + k.maxRetries + s);
  }
}
