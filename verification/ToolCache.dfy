/** `ToolResultCache` and `cached_tool` of platform_sdk/cache.py. Any number of wrapped calls share one Redis;
    every await is a point where the other calls, the clock and the faults may move. */
module ToolCache {
  import opened Common
  import opened Unicode
  import opened Json
  import opened Resilience
  import opened CacheKey

  /** `CircuitBreaker(name="redis_cache")` with its defaults. */
  const SETTINGS := Settings(5, 30.0)

  const ERROR := Lit("error")

  /** `is_error_response` of platform_sdk/authorized_tool.py. */
  predicate IsError(response: string) {
    || "ERROR:" <= response
    || match Read(response) { case Some(Obj(fields)) => HasKey(DecodedFields(fields), ERROR) case _ => false }
  }

  lemma PrefixIsError(s: string)
    ensures IsError("ERROR:" + s)
  {
  }

  /** A printed object is an error exactly when it has a key `error`, with its keys as they read back. */
  lemma {:induction false} ObjectErrorIff(fields: seq<Field>)
    requires Valid(Obj(fields))
    ensures IsError(Print(Obj(fields))) <==> HasKey(DecodedFields(WireFields(fields)), Lit("error"))
    ensures AllClean(Obj(fields)) ==> (IsError(Print(Obj(fields))) <==> HasKey(fields, Lit("error")))
  {
    hide Lit, HasKey;
    RoundTrip(Obj(fields));
    assert Print(Obj(fields))[0] == '{';
    DecodedWire(Obj(fields));
  }

  /** Any other printed value is no error, and text is one only if it starts with the prefix or reads as an object. */
  lemma {:induction false} OtherwiseNoError(v: Json, s: string)
    requires Valid(v) && !v.Obj?
    ensures !IsError(Print(v))
    ensures IsError(s) ==> "ERROR:" <= s || (Read(s).Some? && Read(s).value.Obj?)
  {
    RoundTrip(v);
    PrintStart(v);
  }

  /** No printed value starts like the prefix. */
  lemma PrintStart(v: Json)
    requires Valid(v)
    ensures !("ERROR:" <= Print(v))
  {
    if v.Num? {
      NumberNotPrefix(v.lexeme);
    } else {
      assert Print(v)[0] != 'E';
    }
  }

  lemma NumberNotPrefix(s: string)
    requires Number(s)
    ensures !("ERROR:" <= s)
  {
    assert |s| > 1 ==> s[1] != 'R';
  }

  /** What Redis holds under a key, when SETEX put it there, and the time to live that the writer gave. */
  datatype Entry = Entry(value: string, written: real, ttl: real)

  type Store = map<string, Entry>

  /** GET answers from an entry until its time to live has passed. */
  function Live(store: Store, key: string, now: real): Option<string> {
    if key in store && now < store[key].written + store[key].ttl then Some(store[key].value) else None
  }

  class Redis {
    var store: Store

    constructor ()
      ensures store == map[]
    {
      store := map[];
    }
  }

  class ToolResultCache {
    const redis: Redis?
    const ttl: real
    const breaker: CircuitBreaker

    constructor (redis: Redis?, ttl: real)
      ensures this.redis == redis && this.ttl == ttl
      ensures fresh(breaker) && breaker.settings == SETTINGS && breaker.State() == Resilience.INITIAL
    {
      this.redis := redis;
      this.ttl := ttl;
      breaker := new CircuitBreaker(SETTINGS);
    }

    /** The breaker is asked at `now`; Redis answers, or fails, at `later`. */
    method Get(key: string, now: real, later: real, fails: bool) returns (cached: Option<string>)
      modifies breaker
      ensures redis == null || Open(old(breaker.State()), breaker.settings, now) ==>
                cached == None && breaker.State() == old(breaker.State())
      ensures redis != null && !Open(old(breaker.State()), breaker.settings, now) ==>
                && cached == (if fails then None else Live(redis.store, key, later))
                && breaker.State() == (if fails then Failed(old(breaker.State()), breaker.settings, later)
                                       else Succeeded(old(breaker.State())))
    {
      if redis == null {
        return None;
      }
      var open := breaker.IsOpen(now);
      if open {
        return None;
      }
      if fails {
        breaker.RecordFailure(later);
        return None;
      }
      cached := Live(redis.store, key, later);
      breaker.RecordSuccess();
    }

    /** A write that fails may have reached the store all the same (`applied`). */
    method Set(key: string, value: string, now: real, later: real, fails: bool, applied: bool)
      requires !fails ==> applied
      modifies breaker, redis
      ensures redis == null || Open(old(breaker.State()), breaker.settings, now) ==>
                breaker.State() == old(breaker.State()) && (redis != null ==> redis.store == old(redis.store))
      ensures redis != null && !Open(old(breaker.State()), breaker.settings, now) ==>
                && redis.store == (if applied then old(redis.store)[key := Entry(value, later, ttl)]
                                   else old(redis.store))
                && breaker.State() == (if fails then Failed(old(breaker.State()), breaker.settings, later)
                                       else Succeeded(old(breaker.State())))
    {
      if redis == null {
        return;
      }
      var open := breaker.IsOpen(now);
      if open {
        return;
      }
      if applied {
        redis.store := redis.store[key := Entry(value, later, ttl)];
      }
      if fails {
        breaker.RecordFailure(later);
      } else {
        breaker.RecordSuccess();
      }
    }
  }

  // ----- All wrapped calls together -----

  /** When the entry of a hit was written, with what time to live, and when it was read. */
  datatype Hit = Hit(written: real, ttl: real, read: real)

  function HitOn(entry: Entry, now: real): Hit {
    Hit(entry.written, entry.ttl, now)
  }

  datatype Phase =
    | Getting
    | Computing
    | Setting(result: string)
    | Returned(result: string, hit: Option<Hit>)
    | Raised

  /** One call of a wrapped tool. `pending` is a write that was sent and has not reached the store yet; it may
      arrive after the client gave it up. */
  datatype Call = Call(tool: Str, args: seq<Field>, cache: nat, key: string, phase: Phase, pending: Option<string>)

  /** A result that a tool computed. */
  datatype Computed = Computed(tool: Str, args: seq<Field>, cache: nat, value: string, at: real)

  datatype World = World(store: Store, breakers: seq<Breaker>, calls: seq<Call>, log: seq<Computed>)

  datatype Event =
    | Begin(tool: Str, args: seq<Field>, cache: nat, now: real)
    | GetReply(id: nat, ok: bool, now: real)
    | ToolReply(id: nat, result: Option<string>, now: real)
    | Arrive(id: nat, now: real)
    | SetReply(id: nat, ok: bool, now: real)
    | Evict(key: string, now: real)

  function Moved(w: World, id: nat, phase: Phase): World
    requires id < |w.calls|
  {
    w.(calls := w.calls[id := w.calls[id].(phase := phase)])
  }

  function Noted(w: World, cache: nat, ok: bool, now: real): World {
    if cache < |w.breakers| then
      var b := w.breakers[cache];
      w.(breakers := w.breakers[cache := if ok then Succeeded(b) else Failed(b, SETTINGS, now)])
    else w
  }

  predicate Bypassed(w: World, cache: nat, now: real) {
    cache >= |w.breakers| || Open(w.breakers[cache], SETTINGS, now)
  }

  /** One cache with one time to live. */
  function Always(ttl: real): nat -> real {
    _ => ttl
  }

  /** One step of the run; `ttls` are the times to live of the caches; an event that is not enabled changes nothing. */
  function Step(w: World, e: Event, digest: string -> string, ttls: nat -> real): World {
    match e
    case Begin(tool, args, cache, now) =>
      var key := MakeKey(digest, tool, args);
      var phase := if Bypassed(w, cache, now) then Computing else Getting;
      w.(calls := w.calls + [Call(tool, args, cache, key, phase, None)])
    case GetReply(id, ok, now) =>
      if id >= |w.calls| || !w.calls[id].phase.Getting? then w
      else
        var c := w.calls[id];
        var found := if ok then Live(w.store, c.key, now) else None;
        var phase := if found.Some? then Returned(found.value, Some(HitOn(w.store[c.key], now))) else Computing;
        Moved(Noted(w, c.cache, ok, now), id, phase)
    case ToolReply(id, None, now) =>
      if id >= |w.calls| || !w.calls[id].phase.Computing? then w else Moved(w, id, Raised)
    case ToolReply(id, Some(result), now) =>
      if id >= |w.calls| || !w.calls[id].phase.Computing? then w
      else
        var c := w.calls[id];
        var logged := w.(log := w.log + [Computed(c.tool, c.args, c.cache, result, now)]);
        if IsError(result) || Bypassed(w, c.cache, now) then Moved(logged, id, Returned(result, None))
        else logged.(calls := w.calls[id := c.(phase := Setting(result), pending := Some(result))])
    case Arrive(id, now) =>
      if id >= |w.calls| || w.calls[id].pending.None? then w
      else
        var c := w.calls[id];
        var entry := Entry(c.pending.value, now, ttls(c.cache));
        w.(store := w.store[c.key := entry], calls := w.calls[id := c.(pending := None)])
    case SetReply(id, ok, now) =>
      if id >= |w.calls| || !w.calls[id].phase.Setting? || (ok && w.calls[id].pending.Some?) then w
      else Moved(Noted(w, w.calls[id].cache, ok, now), id, Returned(w.calls[id].phase.result, None))
    case Evict(key, now) => w.(store := w.store - {key})
  }

  function Run(start: World, es: seq<Event>, digest: string -> string, ttls: nat -> real): World {
    if es == [] then start else Step(Run(start, es[..|es| - 1], digest, ttls), es[|es| - 1], digest, ttls)
  }

  /** An empty store and any number of caches. */
  function Fresh(breakers: seq<Breaker>): World {
    World(map[], breakers, [], [])
  }

  ghost predicate Clocked(es: seq<Event>) {
    forall i, j | 0 <= i <= j < |es| :: es[i].now <= es[j].now
  }

  ghost predicate GoodCalls(es: seq<Event>) {
    forall e | e in es :: e.Begin? ==> GoodArgs(e.args) && Clean(e.tool)
  }

  /** Clock readings and faults of one call that nothing else interrupts. */
  datatype Course = Course(begin: real, got: real, computed: real, wrote: real, getFails: bool, setFails: bool,
                           applied: bool)

  /** The same call as steps of the run. */
  function Uninterrupted(w: World, tool: Str, args: seq<Field>, result: string, k: Course, digest: string -> string,
                         ttls: nat -> real): World {
    Written(LookedUp(w, tool, args, k, digest, ttls), result, k, digest, ttls)
  }

  /** The wrapper that `cached_tool` puts around a tool whose answer to this call would be `answer`. Without a cache, or
      with a cache without Redis, it is the tool. */
  method CachedTool(cache: ToolResultCache?, digest: string -> string, tool: Str, args: seq<Field>, answer: string,
                    k: Course) returns (result: string)
    requires cache != null ==> cache.breaker.settings == SETTINGS
    requires !k.setFails ==> k.applied
    modifies if cache == null then {} else {cache.breaker}
    modifies if cache == null || cache.redis == null then {} else {cache.redis}
    ensures cache == null || cache.redis == null ==> result == answer
    ensures cache != null && cache.redis == null ==> cache.breaker.State() == old(cache.breaker.State())
    ensures cache != null && cache.redis != null ==>
              var start := World(old(cache.redis.store), [old(cache.breaker.State())], [], []);
              CallDone(Uninterrupted(start, tool, args, answer, k, digest, Always(cache.ttl)), result,
                       cache.redis.store, cache.breaker.State())
  {
    hide Uninterrupted, CallDone, IsError, MakeKey;
    if cache == null {
      return answer;
    }
    if cache.redis == null {
      var key := MakeKey(digest, tool, args);
      var nothing := cache.Get(key, k.begin, k.got, k.getFails);
      if !IsError(answer) {
        cache.Set(key, answer, k.computed, k.wrote, k.setFails, k.applied);
      }
      return answer;
    }
    result := CachedCall(cache, digest, tool, args, answer, k);
  }

  /** The first call of the world has returned this result and left this store and this breaker. */
  predicate CallDone(w: World, result: string, store: Store, breaker: Breaker) {
    && w.store == store && w.breakers == [breaker]
    && |w.calls| == 1 && w.calls[0].phase.Returned? && w.calls[0].phase.result == result
  }

  /** The world of one call after its lookup, and after its write. */
  function LookedUp(w: World, tool: Str, args: seq<Field>, k: Course, digest: string -> string,
                    ttls: nat -> real): World {
    Step(Step(w, Begin(tool, args, 0, k.begin), digest, ttls), GetReply(0, !k.getFails, k.got), digest, ttls)
  }

  function Written(w: World, answer: string, k: Course, digest: string -> string, ttls: nat -> real): World {
    var computed := Step(w, ToolReply(0, Some(answer), k.computed), digest, ttls);
    var arrived := if k.applied then Step(computed, Arrive(0, k.wrote), digest, ttls) else computed;
    Step(arrived, SetReply(0, !k.setFails, k.wrote), digest, ttls)
  }

  lemma LookUpMeaning(store: Store, b: Breaker, tool: Str, args: seq<Field>, k: Course, digest: string -> string,
                      ttls: nat -> real)
    ensures var key := MakeKey(digest, tool, args);
            var open := Open(b, SETTINGS, k.begin);
            var found := if open || k.getFails then None else Live(store, key, k.got);
            var after := if open then b else if k.getFails then Failed(b, SETTINGS, k.got) else Succeeded(b);
            var phase := if found.Some? then Returned(found.value, Some(HitOn(store[key], k.got))) else Computing;
            LookedUp(World(store, [b], [], []), tool, args, k, digest, ttls)
              == World(store, [after], [Call(tool, args, 0, key, phase, None)], [])
  {
    hide MakeKey, Open, Failed, Succeeded;
  }

  lemma WriteMeaning(store: Store, b: Breaker, c: Call, answer: string, k: Course, digest: string -> string,
                     ttls: nat -> real)
    requires c.cache == 0 && c.phase.Computing? && c.pending.None? && (!k.setFails ==> k.applied)
    ensures var skip := IsError(answer) || Open(b, SETTINGS, k.computed);
            var after := if skip then b else if k.setFails then Failed(b, SETTINGS, k.wrote) else Succeeded(b);
            CallDone(Written(World(store, [b], [c], []), answer, k, digest, ttls), answer,
                     if skip || !k.applied then store else store[c.key := Entry(answer, k.wrote, ttls(0))], after)
  {
    hide MakeKey, Open, Failed, Succeeded, IsError, Live;
  }

  /** A call that was answered from the cache writes nothing. */
  lemma AnsweredWritesNothing(w: World, answer: string, k: Course, digest: string -> string, ttls: nat -> real)
    requires |w.calls| == 1 && w.calls[0].phase.Returned? && w.calls[0].pending.None?
    ensures Written(w, answer, k, digest, ttls) == w
  {
    hide MakeKey, IsError, Live;
  }

  method CachedCall(cache: ToolResultCache, digest: string -> string, tool: Str, args: seq<Field>, answer: string,
                    k: Course) returns (result: string)
    requires cache.redis != null && cache.breaker.settings == SETTINGS
    requires !k.setFails ==> k.applied
    modifies cache.breaker, cache.redis
    ensures var start := World(old(cache.redis.store), [old(cache.breaker.State())], [], []);
            CallDone(Uninterrupted(start, tool, args, answer, k, digest, Always(cache.ttl)), result,
                     cache.redis.store, cache.breaker.State())
  {
    hide MakeKey, IsError, Live, Open, Failed, Succeeded, LookedUp, Written;
    ghost var start := World(cache.redis.store, [cache.breaker.State()], [], []);
    ghost var w := LookedUp(start, tool, args, k, digest, Always(cache.ttl));
    LookUpMeaning(cache.redis.store, cache.breaker.State(), tool, args, k, digest, Always(cache.ttl));
    var key := MakeKey(digest, tool, args);
    var cached := cache.Get(key, k.begin, k.got, k.getFails);
    assert w.store == cache.redis.store && w.breakers == [cache.breaker.State()];
    if cached.Some? {
      AnsweredWritesNothing(w, answer, k, digest, Always(cache.ttl));
      return cached.value;
    }
    result := answer;
    WriteMeaning(cache.redis.store, cache.breaker.State(), w.calls[0], answer, k, digest, Always(cache.ttl));
    if !IsError(result) {
      cache.Set(key, result, k.computed, k.wrote, k.setFails, k.applied);
    }
  }

  // ----- What every run keeps -----

  /** Some tool call computed this value under this key, no later than `until`, and through a cache with this time to
      live, if one is given. */
  ghost predicate ComputedUnder(log: seq<Computed>, key: string, value: string, until: real, life: Option<real>,
                                digest: string -> string, ttls: nat -> real) {
    exists i | 0 <= i < |log| :: Fits(log[i], key, value, until, life, digest, ttls)
  }

  predicate Fits(c: Computed, key: string, value: string, until: real, life: Option<real>, digest: string -> string,
                 ttls: nat -> real) {
    && MakeKey(digest, c.tool, c.args) == key && c.value == value && c.at <= until
    && (life.Some? ==> ttls(c.cache) == life.value)
  }

  ghost predicate EntryFine(w: World, key: string, digest: string -> string, ttls: nat -> real, clock: real)
    requires key in w.store
  {
    var entry := w.store[key];
    && !IsError(entry.value) && entry.written <= clock
    && ComputedUnder(w.log, key, entry.value, entry.written, Some(entry.ttl), digest, ttls)
  }

  ghost predicate CallFine(w: World, c: Call, digest: string -> string, ttls: nat -> real, clock: real) {
    && GoodArgs(c.args) && Clean(c.tool)
    && c.key == MakeKey(digest, c.tool, c.args)
    && (c.pending.Some? ==>
          && !IsError(c.pending.value)
          && ComputedUnder(w.log, c.key, c.pending.value, clock, Some(ttls(c.cache)), digest, ttls))
    && (c.phase.Setting? || c.phase.Returned? ==>
          ComputedUnder(w.log, c.key, c.phase.result, clock, None, digest, ttls))
    && (c.phase.Returned? && c.phase.hit.Some? ==>
          var h := c.phase.hit.value;
          && !IsError(c.phase.result)
          && h.read - h.ttl < h.written <= h.read <= clock
          && ComputedUnder(w.log, c.key, c.phase.result, h.written, Some(h.ttl), digest, ttls))
  }

  ghost predicate Inv(w: World, digest: string -> string, ttls: nat -> real, clock: real) {
    && (forall key | key in w.store :: EntryFine(w, key, digest, ttls, clock))
    && (forall id | 0 <= id < |w.calls| :: CallFine(w, w.calls[id], digest, ttls, clock))
    && (forall i | 0 <= i < |w.log| :: w.log[i].at <= clock && GoodArgs(w.log[i].args) && Clean(w.log[i].tool))
  }

  lemma LogGrows(log: seq<Computed>, more: seq<Computed>, key: string, value: string, until: real, later: real,
                 life: Option<real>, digest: string -> string, ttls: nat -> real)
    requires ComputedUnder(log, key, value, until, life, digest, ttls) && until <= later
    ensures ComputedUnder(log + more, key, value, later, life, digest, ttls)
    ensures ComputedUnder(log + more, key, value, later, None, digest, ttls)
  {
    hide MakeKey;
    var i :| 0 <= i < |log| && Fits(log[i], key, value, until, life, digest, ttls);
    assert (log + more)[i] == log[i];
    assert Fits((log + more)[i], key, value, later, life, digest, ttls);
    assert Fits((log + more)[i], key, value, later, None, digest, ttls);
  }

  /** Time passing and the log growing leave a call as it was. */
  lemma CallKept(w: World, w': World, c: Call, digest: string -> string, ttls: nat -> real, clock: real, later: real,
                 more: seq<Computed>)
    requires CallFine(w, c, digest, ttls, clock) && clock <= later && w'.log == w.log + more
    ensures CallFine(w', c, digest, ttls, later)
  {
    if c.pending.Some? {
      LogGrows(w.log, more, c.key, c.pending.value, clock, later, Some(ttls(c.cache)), digest, ttls);
    }
    if c.phase.Setting? || c.phase.Returned? {
      LogGrows(w.log, more, c.key, c.phase.result, clock, later, None, digest, ttls);
    }
    if c.phase.Returned? && c.phase.hit.Some? {
      var h := c.phase.hit.value;
      LogGrows(w.log, more, c.key, c.phase.result, h.written, h.written, Some(h.ttl), digest, ttls);
    }
  }

  /** A step changes the store, the log and at most one call; what is left is kept. */
  lemma {:induction false} InvKept(w: World, w': World, digest: string -> string, ttls: nat -> real, clock: real,
                                   later: real, more: seq<Computed>)
    requires Inv(w, digest, ttls, clock) && clock <= later
    requires w'.log == w.log + more && forall c | c in more :: c.at <= later && GoodArgs(c.args) && Clean(c.tool)
    requires forall key | key in w'.store ::
               (key in w.store && w'.store[key] == w.store[key]) || EntryFine(w', key, digest, ttls, later)
    requires forall id | 0 <= id < |w'.calls| ::
               (id < |w.calls| && w'.calls[id] == w.calls[id]) || CallFine(w', w'.calls[id], digest, ttls, later)
    ensures Inv(w', digest, ttls, later)
  {
    forall key | key in w'.store ensures EntryFine(w', key, digest, ttls, later) {
      if key in w.store && w'.store[key] == w.store[key] {
        assert EntryFine(w, key, digest, ttls, clock);
        var entry := w.store[key];
        LogGrows(w.log, more, key, entry.value, entry.written, entry.written, Some(entry.ttl), digest, ttls);
      }
    }
    forall id | 0 <= id < |w'.calls| ensures CallFine(w', w'.calls[id], digest, ttls, later) {
      if id < |w.calls| && w'.calls[id] == w.calls[id] {
        CallKept(w, w', w.calls[id], digest, ttls, clock, later, more);
      }
    }
    forall i | 0 <= i < |w'.log| ensures w'.log[i].at <= later && GoodArgs(w'.log[i].args) && Clean(w'.log[i].tool) {
      if i >= |w.log| { assert w'.log[i] in more; }
    }
  }

  lemma {:induction false} StepKeeps(w: World, e: Event, digest: string -> string, ttls: nat -> real, clock: real)
    requires Inv(w, digest, ttls, clock) && clock <= e.now
    requires e.Begin? ==> GoodArgs(e.args) && Clean(e.tool)
    ensures Inv(Step(w, e, digest, ttls), digest, ttls, e.now)
  {
    hide MakeKey, GoodArgs, Clean, IsError;
    var w' := Step(w, e, digest, ttls);
    match e
    case Begin(_, _, _, _) =>
      assert w.log == w.log + [];
      InvKept(w, w', digest, ttls, clock, e.now, []);
    case GetReply(id, ok, now) =>
      GetReplyKeeps(w, id, ok, digest, ttls, clock, now);
    case ToolReply(id, result, now) =>
      ToolReplyKeeps(w, id, result, digest, ttls, clock, now);
    case Arrive(id, now) =>
      ArriveKeeps(w, id, digest, ttls, clock, now);
    case SetReply(id, ok, now) =>
      assert w.log == w.log + [];
      if id < |w.calls| && w.calls[id].phase.Setting? {
        CallKept(w, w', w.calls[id], digest, ttls, clock, now, []);
      }
      InvKept(w, w', digest, ttls, clock, now, []);
    case Evict(_, now) =>
      assert w.log == w.log + [];
      InvKept(w, w', digest, ttls, clock, now, []);
  }

  lemma {:induction false} GetReplyKeeps(w: World, id: nat, ok: bool, digest: string -> string, ttls: nat -> real,
                                         clock: real, now: real)
    requires Inv(w, digest, ttls, clock) && clock <= now
    ensures Inv(Step(w, GetReply(id, ok, now), digest, ttls), digest, ttls, now)
  {
    hide MakeKey, GoodArgs, Clean, IsError;
    var w' := Step(w, GetReply(id, ok, now), digest, ttls);
    assert w.log == w.log + [];
    if id < |w.calls| && w.calls[id].phase.Getting? {
      var c := w.calls[id];
      CallKept(w, w', c, digest, ttls, clock, now, []);
      if ok && Live(w.store, c.key, now).Some? {
        assert EntryFine(w, c.key, digest, ttls, clock);
        var entry := w.store[c.key];
        LogGrows(w.log, [], c.key, entry.value, entry.written, entry.written, Some(entry.ttl), digest, ttls);
        LogGrows(w.log, [], c.key, entry.value, entry.written, now, Some(entry.ttl), digest, ttls);
      }
    }
    InvKept(w, w', digest, ttls, clock, now, []);
  }

  lemma {:induction false} ArriveKeeps(w: World, id: nat, digest: string -> string, ttls: nat -> real, clock: real,
                                       now: real)
    requires Inv(w, digest, ttls, clock) && clock <= now
    ensures Inv(Step(w, Arrive(id, now), digest, ttls), digest, ttls, now)
  {
    hide MakeKey, GoodArgs, Clean, IsError;
    var w' := Step(w, Arrive(id, now), digest, ttls);
    assert w.log == w.log + [];
    if id < |w.calls| && w.calls[id].pending.Some? {
      var c := w.calls[id];
      CallKept(w, w', c, digest, ttls, clock, now, []);
      LogGrows(w.log, [], c.key, c.pending.value, clock, now, Some(ttls(c.cache)), digest, ttls);
    }
    InvKept(w, w', digest, ttls, clock, now, []);
  }

  lemma {:induction false} ToolReplyKeeps(w: World, id: nat, result: Option<string>, digest: string -> string,
                                          ttls: nat -> real, clock: real, now: real)
    requires Inv(w, digest, ttls, clock) && clock <= now
    ensures Inv(Step(w, ToolReply(id, result, now), digest, ttls), digest, ttls, now)
  {
    hide MakeKey, GoodArgs, Clean, IsError;
    var w' := Step(w, ToolReply(id, result, now), digest, ttls);
    if id >= |w.calls| || !w.calls[id].phase.Computing? || result.None? {
      assert w.log == w.log + [];
      if id < |w.calls| { CallKept(w, w', w.calls[id], digest, ttls, clock, now, []); }
      InvKept(w, w', digest, ttls, clock, now, []);
    } else {
      var c := w.calls[id];
      var entry := Computed(c.tool, c.args, c.cache, result.value, now);
      assert w'.log == w.log + [entry];
      assert w'.log[|w.log|] == entry;
      assert Fits(entry, c.key, result.value, now, Some(ttls(c.cache)), digest, ttls);
      assert Fits(entry, c.key, result.value, now, None, digest, ttls);
      CallKept(w, w', c, digest, ttls, clock, now, [entry]);
      InvKept(w, w', digest, ttls, clock, now, [entry]);
    }
  }

  /** Over every run, whatever fails, expires, arrives late or is bypassed, and however the calls interleave:
      no error response is in the store, every stored value was computed for its key before it was written, and
      every hit returned such a value, written less than its writer's time to live before it was read. */
  lemma {:induction false} RunKeeps(breakers: seq<Breaker>, es: seq<Event>, digest: string -> string, ttls: nat -> real,
                                    clock: real)
    requires Clocked(es) && GoodCalls(es) && forall e | e in es :: e.now <= clock
    ensures Inv(Run(Fresh(breakers), es, digest, ttls), digest, ttls, clock)
  {
    if es != [] {
      var before, e := es[..|es| - 1], es[|es| - 1];
      assert e in es && forall d | d in before :: d in es;
      assert Clocked(before) by {
        assert forall i, j | 0 <= i <= j < |before| :: before[i] == es[i] && before[j] == es[j];
      }
      forall d | d in before ensures d.now <= e.now {
        var i :| 0 <= i < |before| && before[i] == d;
        assert es[i] == d;
      }
      RunKeeps(breakers, before, digest, ttls, e.now);
      StepKeeps(Run(Fresh(breakers), before, digest, ttls), e, digest, ttls, e.now);
      ClockForward(Run(Fresh(breakers), es, digest, ttls), digest, ttls, e.now, clock);
    }
  }

  lemma ClockForward(w: World, digest: string -> string, ttls: nat -> real, clock: real, later: real)
    requires Inv(w, digest, ttls, clock) && clock <= later
    ensures Inv(w, digest, ttls, later)
  {
    assert w.log == w.log + [];
    InvKept(w, w, digest, ttls, clock, later, []);
  }

  // ----- The cache agrees with the tool -----

  /** The tool does not see the order of its keyword arguments. */
  ghost predicate OrderBlind(f: (Str, seq<Field>) -> string) {
    forall tool, a, b :: Same(Obj(a), Obj(b)) ==> f(tool, a) == f(tool, b)
  }

  ghost predicate Agrees(log: seq<Computed>, f: (Str, seq<Field>) -> string) {
    forall i | 0 <= i < |log| :: log[i].value == f(log[i].tool, log[i].args)
  }

  /** Whenever a tool answers in the run, it answers as the function `f`. */
  ghost predicate Deterministic(breakers: seq<Breaker>, es: seq<Event>, digest: string -> string, ttls: nat -> real,
                                f: (Str, seq<Field>) -> string) {
    forall i | 0 <= i < |es| :: AnswersAs(Run(Fresh(breakers), es[..i], digest, ttls), es[i], f)
  }

  ghost predicate AnswersAs(w: World, e: Event, f: (Str, seq<Field>) -> string) {
    e.ToolReply? && e.result.Some? && e.id < |w.calls| ==> e.result.value == f(w.calls[e.id].tool, w.calls[e.id].args)
  }

  /** The log grows only by a tool's reply. */
  lemma StepLog(w: World, e: Event, digest: string -> string, ttls: nat -> real)
    ensures Step(w, e, digest, ttls).log == w.log
            || (&& e.ToolReply? && e.result.Some? && e.id < |w.calls|
                && var c := w.calls[e.id];
                   Step(w, e, digest, ttls).log == w.log + [Computed(c.tool, c.args, c.cache, e.result.value, e.now)])
  {
    hide MakeKey, IsError, Live, Bypassed;
  }

  lemma {:induction false} LogAgrees(breakers: seq<Breaker>, es: seq<Event>, digest: string -> string,
                                     ttls: nat -> real, f: (Str, seq<Field>) -> string)
    requires Deterministic(breakers, es, digest, ttls, f)
    ensures Agrees(Run(Fresh(breakers), es, digest, ttls).log, f)
  {
    hide Step;
    if es != [] {
      var before, e := es[..|es| - 1], es[|es| - 1];
      assert Deterministic(breakers, before, digest, ttls, f) by {
        assert forall i | 0 <= i < |before| :: before[..i] == es[..i] && before[i] == es[i];
      }
      LogAgrees(breakers, before, digest, ttls, f);
      assert AnswersAs(Run(Fresh(breakers), before, digest, ttls), e, f);
      StepLog(Run(Fresh(breakers), before, digest, ttls), e, digest, ttls);
    }
  }

  /** With a deterministic tool and a collision-free digest, every wrapped call that returns, in every run,
      returns exactly what the tool returns. */
  lemma {:induction false} CachedToolAgrees(breakers: seq<Breaker>, es: seq<Event>, digest: string -> string,
                                            ttls: nat -> real, clock: real,
                                            f: (Str, seq<Field>) -> string, id: nat)
    requires Clocked(es) && GoodCalls(es) && forall e | e in es :: e.now <= clock
    requires CollisionFree(digest) && OrderBlind(f) && Deterministic(breakers, es, digest, ttls, f)
    requires id < |Run(Fresh(breakers), es, digest, ttls).calls|
    ensures var c := Run(Fresh(breakers), es, digest, ttls).calls[id];
            c.phase.Returned? ==> c.phase.result == f(c.tool, c.args)
  {
    hide MakeKey, GoodArgs, IsError, Same, Run;
    var w := Run(Fresh(breakers), es, digest, ttls);
    RunKeeps(breakers, es, digest, ttls, clock);
    LogAgrees(breakers, es, digest, ttls, f);
    var c := w.calls[id];
    assert CallFine(w, c, digest, ttls, clock);
    if c.phase.Returned? {
      var i :| 0 <= i < |w.log| && Fits(w.log[i], c.key, c.phase.result, clock, None, digest, ttls);
      KeysAgreeIff(digest, w.log[i].tool, w.log[i].args, c.tool, c.args);
    }
  }

  // ----- What the store holds and what it saves -----

  /** In every run no stored value starts with `ERROR:` and none is a printed object with a key `error`. */
  lemma {:induction false} StoredValues(breakers: seq<Breaker>, es: seq<Event>, digest: string -> string,
                                        ttls: nat -> real, clock: real, key: string)
    requires Clocked(es) && GoodCalls(es) && forall e | e in es :: e.now <= clock
    requires key in Run(Fresh(breakers), es, digest, ttls).store
    ensures var value := Run(Fresh(breakers), es, digest, ttls).store[key].value;
            && !("ERROR:" <= value)
            && forall fields | Valid(Obj(fields)) && AllClean(Obj(fields)) && value == Print(Obj(fields)) ::
                 !HasKey(fields, Lit("error"))
  {
    hide Run, HasKey, Lit, Print, IsError;
    RunKeeps(breakers, es, digest, ttls, clock);
    var w := Run(Fresh(breakers), es, digest, ttls);
    assert EntryFine(w, key, digest, ttls, clock);
    var value := w.store[key].value;
    if "ERROR:" <= value {
      assert value == "ERROR:" + value[6..];
      PrefixIsError(value[6..]);
    }
    forall fields | Valid(Obj(fields)) && AllClean(Obj(fields)) && value == Print(Obj(fields))
      ensures !HasKey(fields, Lit("error"))
    {
      ObjectErrorIff(fields);
    }
  }

  /** The cache saves calls: after an answered call without faults, an equal call gets the first answer, whatever the
      tool would answer now, if and only if it is read before the time to live has passed; then it gets the new one. */
  lemma {:induction false} SecondCallIff(store: Store, b: Breaker, tool: Str, args: seq<Field>, first: string,
                                         k: Course, c: Breaker, again: seq<Field>, second: string, l: Course,
                                         digest: string -> string, ttls: nat -> real)
    requires GoodArgs(args) && GoodArgs(again) && Clean(tool) && CollisionFree(digest) && Same(Obj(args), Obj(again))
    requires !IsError(first) && first != second && Live(store, MakeKey(digest, tool, args), k.got).None?
    requires !k.getFails && !k.setFails && k.applied && !l.getFails && !l.setFails && l.applied
    requires !Open(b, SETTINGS, k.begin) && !Open(Succeeded(b), SETTINGS, k.computed) && !Open(c, SETTINGS, l.begin)
    ensures var one := Uninterrupted(World(store, [b], [], []), tool, args, first, k, digest, ttls);
            var two := Uninterrupted(World(one.store, [c], [], []), tool, again, second, l, digest, ttls);
            && |two.calls| == 1 && two.calls[0].phase.Returned?
            && (two.calls[0].phase.result == first <==> l.got < k.wrote + ttls(0))
            && (two.calls[0].phase.result == second <==> l.got >= k.wrote + ttls(0))
  {
    hide MakeKey, IsError, GoodArgs, Same, Clean, Open, Succeeded, Failed, LookedUp, Written;
    KeysAgreeIff(digest, tool, args, tool, again);
    var key := MakeKey(digest, tool, args);
    LookUpMeaning(store, b, tool, args, k, digest, ttls);
    var looked := Call(tool, args, 0, key, Computing, None);
    WriteMeaning(store, Succeeded(b), looked, first, k, digest, ttls);
    var after := store[key := Entry(first, k.wrote, ttls(0))];
    LookUpMeaning(after, c, tool, again, l, digest, ttls);
    var found := LookedUp(World(after, [c], [], []), tool, again, l, digest, ttls);
    if l.got < k.wrote + ttls(0) {
      AnsweredWritesNothing(found, second, l, digest, ttls);
    } else {
      WriteMeaning(after, Succeeded(c), found.calls[0], second, l, digest, ttls);
    }
  }
}
