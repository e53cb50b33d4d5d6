/**
 RateLimitService.Allow and the RateLimit middleware, on a store of counters. Time passes and any
 command may fail between two commands of a call; what other calls do in between is the matter of
 module RateLimiter, and each call here is shown to be a run of that machine.
 */
module RateLimitService {
  import opened Environments
  import opened Options
  import opened RateLimiter

  /** Durations and the clock count nanoseconds. */
  const SECOND := 1_000_000_000

  function Key(scope: string, identifier: string): string {
    "auth:rate_limit:" + scope + ":" + identifier
  }

  function FirstColon(s: string): nat {
    if s == "" || s[0] == ':' then 0 else 1 + FirstColon(s[1..])
  }

  lemma {:induction false} ScopeEnds(scope: string, identifier: string)
    requires ':' !in scope
    ensures FirstColon(scope + ":" + identifier) == |scope|
  {
    if scope != "" {
      assert (scope + ":" + identifier)[1..] == scope[1..] + ":" + identifier;
      ScopeEnds(scope[1..], identifier);
    }
  }

  /** Scopes without a colon keep their counters apart, whatever the identifiers. */
  lemma KeysApart(scope: string, identifier: string, scope': string, identifier': string)
    requires ':' !in scope && ':' !in scope'
    ensures Key(scope, identifier) == Key(scope', identifier') <==> scope == scope' && identifier == identifier'
  {
    var prefix := "auth:rate_limit:";
    var left, right := scope + ":" + identifier, scope' + ":" + identifier';
    assert Key(scope, identifier)[|prefix|..] == left && Key(scope', identifier')[|prefix|..] == right;
    ScopeEnds(scope, identifier);
    ScopeEnds(scope', identifier');
    assert scope == left[..|scope|] && scope' == right[..|scope'|];
    assert identifier == left[|scope| + 1..] && identifier' == right[|scope'| + 1..];
  }

  /** The machine sees the counter, the clock and the configuration of one key. */
  predicate Sees(s: State, now: int, counter: Option<Counter>, limit: int, window: int) {
    s.now == now && s.counter == counter && s.limit == limit && s.window == window
  }

  class RateLimitService {
    const env: Environment
    var now: int
    var counters: map<string, Counter>

    function At(key: string): Option<Counter>
      reads this
    {
      if key in counters then Some(counters[key]) else None
    }

    constructor (env: Environment, now: int)
      ensures this.env == env && this.now == now && counters == map[]
    {
      this.env, this.now, counters := env, now, map[];
    }

    method Pass() returns (duration: nat)
      modifies this`now
      ensures now == old(now) + duration
    {
      duration := *;
      now := now + duration;
    }

    /** INCR; a failed command may have been carried out. */
    method Incr(key: string) returns (reply: Option<nat>)
      modifies this`counters
      ensures counters == old(counters) || counters == old(counters)[key := Incremented(old(At(key)), now)]
      ensures reply.Some? ==>
        counters == old(counters)[key := Incremented(old(At(key)), now)] && reply.value == counters[key].value
      ensures env.sound ==> reply.Some?
    {
      var lost := env.Fails();
      var unanswered := env.Fails();
      if lost {
        return None;
      }
      counters := counters[key :=
        if Live(At(key), now) then Counter(counters[key].value + 1, counters[key].deadline) else Counter(1, None)];
      return if unanswered then None else Some(counters[key].value);
    }

    /** EXPIRE */
    method Expire(key: string, window: int) returns (ok: bool)
      modifies this`counters
      ensures counters == old(counters) || (key in counters && counters == old(counters)[key := counters[key]])
      ensures At(key) == old(At(key)) || At(key) == Expired(old(At(key)), now, window)
      ensures ok ==> At(key) == Expired(old(At(key)), now, window)
      ensures env.sound ==> ok
    {
      var lost := env.Fails();
      var unanswered := env.Fails();
      if lost {
        return false;
      }
      if Live(At(key), now) {
        counters := counters[key := Counter(counters[key].value, Some(now + window))];
      }
      return !unanswered;
    }

    /** TTL: the time left of a counter with a deadline; negative for any other. */
    method Ttl(key: string) returns (reply: Option<int>)
      ensures reply.Some? ==> reply.value == TtlOf(At(key), now)
      ensures reply.Some? ==>
        if HasDeadline(At(key), now) then reply.value == counters[key].deadline.value - now else reply.value < 0
      ensures env.sound ==> reply.Some?
    {
      var failed := env.Fails();
      return if failed then None else Some(TtlOf(At(key), now));
    }

    /** INCR, and its part of the run: the request is counted, or gone. */
    method Count(key: string, limit: int, window: int, ghost s: State, ghost rid: Rid)
      returns (count: Option<nat>, ghost events: seq<Event>)
      requires Sees(s, now, At(key), limit, window) && rid !in s.requests && rid !in s.results
      modifies this
      ensures
        var m := Exec(s, events);
        && Sees(m, now, At(key), limit, window)
        && (count.Some? ==>
              && m.results == s.results && m.requests.Keys == s.requests.Keys + {rid}
              && m.requests == s.requests[rid := m.requests[rid]] && m.requests[rid].count == count.value
              && (m.requests[rid].ExpireNext? <==> count.value == 1))
        && (count.None? ==> m.requests == s.requests && (m.results == s.results || m.results == s.results[rid := None]))
      ensures env.sound ==> count.Some?
      ensures forall k :: k != key ==> At(k) == old(At(k))
    {
      var duration := Pass();
      ghost var m := Apply(s, Tick(duration));
      events := [Tick(duration)];
      assert events[..0] == [];
      count := Incr(key);
      ghost var counted := count.Some? || counters != old(counters);
      if counted {
        m, events := Follow(s, events, RateLimiter.Incr(rid));
      }
      if count.None? && counted {
        m, events := Follow(s, events, Stop(rid));
        assert m.requests == s.requests;
      }
    }

    /** EXPIRE, and its part of the run. */
    method OpenWindow(key: string, limit: int, window: int, ghost s: State, ghost rid: Rid)
      returns (ok: bool, ghost events: seq<Event>)
      requires Sees(s, now, At(key), limit, window) && rid in s.requests && s.requests[rid].ExpireNext?
      modifies this
      ensures
        var m := Exec(s, events);
        && Sees(m, now, At(key), limit, window)
        && (if ok then m.requests == s.requests[rid := TtlNext(s.requests[rid].count)] && m.results == s.results
            else m.requests == s.requests - {rid} && m.results == s.results[rid := None])
      ensures env.sound ==> ok
      ensures forall k :: k != key ==> At(k) == old(At(k))
    {
      var duration := Pass();
      ghost var m := Apply(s, Tick(duration));
      events := [Tick(duration)];
      assert events[..0] == [];
      ok := Expire(key, window);
      if At(key) == Expired(m.counter, now, window) {
        m, events := Follow(s, events, Do(rid));
      }
      if !ok {
        m, events := Follow(s, events, Stop(rid));
      }
    }

    /** TTL, and the end of the run. */
    method Answer(key: string, limit: int, window: int, ghost s: State, ghost rid: Rid, count: nat)
      returns (result: Option<RateLimitResult>, ghost events: seq<Event>)
      requires Sees(s, now, At(key), limit, window) && rid in s.requests && s.requests[rid] == TtlNext(count)
      modifies this`now
      ensures
        var m := Exec(s, events);
        && Sees(m, now, At(key), limit, window)
        && m.requests == s.requests - {rid} && m.results == s.results[rid := result]
      ensures result.Some? ==> Waits(At(key), now, window, result.value.resetIn)
      ensures env.sound ==> result.Some?
    {
      var duration := Pass();
      ghost var m := Apply(s, Tick(duration));
      events := [Tick(duration)];
      assert events[..0] == [];
      var ttl := Ttl(key);
      if ttl.None? {
        m, events := Follow(s, events, Stop(rid));
        return None, events;
      }
      m, events := Follow(s, events, Do(rid));
      var resetIn := if ttl.value < 0 then window else ttl.value;
      var remaining := limit - count;
      if remaining < 0 {
        remaining := 0;
      }
      return Some(RateLimitResult(count <= limit, remaining, resetIn)), events;
    }

    /**
     Allow. Whatever state of the machine has this key's counter, the call is a run of the machine
     from there by a request new to it: the counter and the clock end up as after that run, and
     the answer is the one the run records, its wait the time the counter has left. It fails only
     if something around it does. Other keys are not touched.
     */
    method Allow(scope: string, identifier: string, limit: int, window: int, ghost s: State, ghost rid: Rid)
      returns (result: Option<RateLimitResult>, ghost events: seq<Event>)
      requires Sees(s, now, At(Key(scope, identifier)), limit, window) && rid !in s.requests && rid !in s.results
      modifies this
      ensures
        var m := Exec(s, events);
        && Sees(m, now, At(Key(scope, identifier)), limit, window)
        && m.requests == s.requests
        && (result.Some? ==> rid in m.results && m.results[rid] == result)
        && (result.None? ==> m.results == s.results || m.results == s.results[rid := None])
      ensures result.Some? ==> Waits(At(Key(scope, identifier)), now, window, result.value.resetIn)
      ensures env.sound ==> result.Some?
      ensures forall k :: k != Key(scope, identifier) ==> At(k) == old(At(k))
    {
      var key := Key(scope, identifier);
      var count;
      count, events := Count(key, limit, window, s, rid);
      if count.None? {
        return None, events;
      }
      ghost var m := Exec(s, events);
      ghost var more;
      if count.value == 1 {
        var ok;
        ok, more := OpenWindow(key, limit, window, m, rid);
        ExecConcat(s, events, more);
        events, m := events + more, Exec(m, more);
        if !ok {
          assert m.requests == s.requests;
          return None, events;
        }
      }
      result, more := Answer(key, limit, window, m, rid, count.value);
      ExecConcat(s, events, more);
      events, m := events + more, Exec(m, more);
      assert m.requests == s.requests;
    }
  }

  /** One more event of the machine. */
  lemma Follow(s: State, events: seq<Event>, e: Event) returns (m: State, more: seq<Event>)
    ensures more == events + [e] && m == Exec(s, more) == Apply(Exec(s, events), e)
  {
    more := events + [e];
    m := Exec(s, more);
    ExecOne(s, events, e);
  }

  // ---- the middleware ----

  datatype Response = PassedOn | Refused(status: int, code: string, retryAfter: Option<int>)

  /** int(duration.Seconds()): whole seconds, towards zero. */
  function WholeSeconds(duration: int): int {
    if duration >= 0 then duration / SECOND else -(-duration / SECOND)
  }

  /** formatRetryAfter, as a number. */
  method FormatRetryAfter(duration: int) returns (seconds: int)
    ensures seconds >= 1
    ensures seconds <= WholeSeconds(duration) || seconds == 1
    ensures duration >= SECOND ==> seconds * SECOND <= duration < (seconds + 1) * SECOND
    ensures duration < 2 * SECOND ==> seconds == 1
  {
    seconds := WholeSeconds(duration);
    if seconds < 1 {
      seconds := 1;
    }
  }

  /**
   RateLimit: the request goes on exactly when the limiter answers and allows it; a failed check
   answers 500, and a refusal 429 with the time the counter has left in whole seconds, at least 1.
   */
  method RateLimit(
      service: RateLimitService, scope: string, identifier: string, limit: int, window: int,
      ghost before: seq<Event>, ghost start: int, ghost rid: Rid)
    returns (response: Response, ghost events: seq<Event>)
    requires window >= 1
    requires
      var s := Run(start, limit, window, before);
      && Sees(s, service.now, service.At(Key(scope, identifier)), limit, window)
      && rid !in s.requests && rid !in s.results
    modifies service
    ensures
      var s' := Run(start, limit, window, before + events);
      && Sees(s', service.now, service.At(Key(scope, identifier)), limit, window)
      && (response.PassedOn? ==> rid in s'.results && s'.results[rid].Some? && s'.results[rid].value.allowed)
      && (response.Refused? && response.status == 429 ==>
            && rid in s'.results && s'.results[rid].Some? && !s'.results[rid].value.allowed
            && response.code == "rate_limit_exceeded" && response.retryAfter.Some?)
      && (response.Refused? && response.status != 429 ==>
            && response == Refused(500, "rate_limit_check_failed", None)
            && (rid in s'.results ==> s'.results[rid] == None))
    ensures service.env.sound ==> response.PassedOn? || response.status == 429
    ensures response.Refused? && response.retryAfter.Some? ==>
      exists wait ::
        && Waits(service.At(Key(scope, identifier)), service.now, window, wait)
        && response.retryAfter.value == if wait < 1_000_000_000 then 1 else wait / 1_000_000_000
    ensures response.Refused? && response.retryAfter.Some? ==>
      1 <= response.retryAfter.value && (response.retryAfter.value == 1 || response.retryAfter.value * SECOND <= window)
    ensures forall k :: k != Key(scope, identifier) ==> service.At(k) == old(service.At(k))
  {
    var result;
    result, events := service.Allow(scope, identifier, limit, window, Run(start, limit, window, before), rid);
    ExecConcat(Init(start, limit, window), before, events);
    if result.None? {
      return Refused(500, "rate_limit_check_failed", None), events;
    }
    if !result.value.allowed {
      AnswersRight(start, limit, window, before + events, rid);
      var seconds := FormatRetryAfter(result.value.resetIn);
      assert Waits(service.At(Key(scope, identifier)), service.now, window, result.value.resetIn);
      return Refused(429, "rate_limit_exceeded", Some(seconds)), events;
    }
    return PassedOn, events;
  }
}
