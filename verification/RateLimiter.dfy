/**
 The shared fixed-window counter of one rate-limit key. INCR, EXPIRE and TTL are separate Redis
 commands of requests on any number of instances, so every event below is one command of one
 request; a request may stop after any of them. A counter lives from the INCR that creates it
 until its deadline, if it ever gets one: such a life is a generation.
 */
module RateLimiter {

  import opened Fresh
  import opened Options

  type Rid = nat

  /** A Redis counter; without a deadline it never expires. */
  datatype Counter = Counter(value: nat, deadline: Option<int>)

  /** Where a call of Allow is after its INCR. */
  datatype Pc = ExpireNext(count: nat, generation: int) | TtlNext(count: nat)

  datatype RateLimitResult = RateLimitResult(allowed: bool, remaining: int, resetIn: int)

  /** History: one INCR of a request, with its time, its generation and the count it returned. */
  datatype Hit = Hit(rid: Rid, time: int, generation: int, count: nat)

  datatype State = State(
    now: int,
    limit: int,
    window: int,
    counter: Option<Counter>,
    requests: map<Rid, Pc>,
    results: map<Rid, Option<RateLimitResult>>,  // None: the call ended in an error
    hits: seq<Hit>,
    starts: seq<int>)  // the time of the first INCR of each generation

  datatype Event = Tick(duration: nat) | Incr(rid: Rid) | Do(rid: Rid) | Stop(rid: Rid)

  function Init(now: int, limit: int, window: int): State {
    State(now, limit, window, None, map[], map[], [], [])
  }

  /** A key exists strictly before its deadline. */
  predicate Live(counter: Option<Counter>, now: int) {
    counter.Some? && (counter.value.deadline.Some? ==> now < counter.value.deadline.value)
  }

  /** INCR: creates the counter with no deadline, or increments it and keeps its deadline. */
  function Incremented(counter: Option<Counter>, now: int): Counter {
    if Live(counter, now) then counter.value.(value := counter.value.value + 1) else Counter(1, None)
  }

  /** EXPIRE: no effect on a key that is not there. */
  function Expired(counter: Option<Counter>, now: int, window: int): Option<Counter> {
    if Live(counter, now) then Some(counter.value.(deadline := Some(now + window))) else counter
  }

  /** TTL: -2 without a key, -1 without a deadline, the time left otherwise. */
  function TtlOf(counter: Option<Counter>, now: int): int {
    if !Live(counter, now) then -2
    else if counter.value.deadline.None? then -1
    else counter.value.deadline.value - now
  }

  /** What Allow returns for its count and the reply to TTL. */
  function Decide(count: nat, ttl: int, limit: int, window: int): RateLimitResult {
    RateLimitResult(count <= limit, if limit - count < 0 then 0 else limit - count, if ttl < 0 then window else ttl)
  }

  function DoIncr(s: State, rid: Rid): State {
    var counter := Incremented(s.counter, s.now);
    var starts := if Live(s.counter, s.now) then s.starts else s.starts + [s.now];
    var generation := |starts| - 1;
    s.(counter := Some(counter), starts := starts,
       hits := s.hits + [Hit(rid, s.now, generation, counter.value)],
       requests := s.requests[rid := if counter.value == 1 then ExpireNext(1, generation) else TtlNext(counter.value)])
  }

  function Apply(s: State, e: Event): State {
    match e
    case Tick(duration) => s.(now := s.now + duration)
    case Incr(rid) => if rid in s.requests || rid in s.results then s else DoIncr(s, rid)
    case Do(rid) =>
      if rid !in s.requests then s else
        (match s.requests[rid]
         case ExpireNext(count, _) =>
           s.(counter := Expired(s.counter, s.now, s.window), requests := s.requests[rid := TtlNext(count)])
         case TtlNext(count) =>
           s.(requests := s.requests - {rid},
              results := s.results[rid := Some(Decide(count, TtlOf(s.counter, s.now), s.limit, s.window))]))
    case Stop(rid) =>
      if rid !in s.requests then s else s.(requests := s.requests - {rid}, results := s.results[rid := None])
  }

  function Exec(s: State, events: seq<Event>): State {
    if events == [] then s else Apply(Exec(s, events[..|events| - 1]), events[|events| - 1])
  }

  // ---- invariant ----

  /** The last INCR, if the counter is still the one it left. */
  ghost predicate CounterInv(s: State) {
    && (s.counter.None? <==> s.hits == [])
    && (s.counter.Some? ==>
          && s.counter.value.value == s.hits[|s.hits| - 1].count
          && |s.starts| == s.hits[|s.hits| - 1].generation + 1 && |s.starts| > 0
          && (s.counter.value.deadline.Some? ==>
                s.starts[|s.starts| - 1] + s.window <= s.counter.value.deadline.value <= s.now + s.window))
    && (s.hits == [] ==> s.starts == [])
  }

  /** Hit `j` follows hit `i`: the next count of the same generation, or the first of the next one. */
  predicate FollowsOn(i: Hit, j: Hit) {
    && i.time <= j.time
    && ((j.generation == i.generation && j.count == i.count + 1) || (j.generation == i.generation + 1 && j.count == 1))
  }

  /** The hits of a run: generations one after the other, each counting up from 1. */
  ghost predicate Chain(hits: seq<Hit>) {
    && (|hits| > 0 ==> hits[0].generation == 0 && hits[0].count == 1)
    && (forall i, j :: 0 <= i && j == i + 1 < |hits| ==> FollowsOn(hits[i], hits[j]))
  }

  predicate HitInv(s: State, h: Hit) {
    && 0 <= h.generation < |s.starts| && s.starts[h.generation] <= h.time <= s.now && h.count >= 1
    && (h.generation + 1 < |s.starts| ==> h.time <= s.starts[h.generation + 1])
  }

  ghost predicate HitsInv(s: State) {
    Chain(s.hits) && forall i :: 0 <= i < |s.hits| ==> HitInv(s, s.hits[i])
  }

  /** Generations start at least a window apart. */
  ghost predicate StartsInv(s: State) {
    && (forall g :: 0 <= g < |s.starts| ==> s.starts[g] <= s.now)
    && (forall g, h :: 0 <= g && h == g + 1 < |s.starts| ==> s.starts[g] + s.window <= s.starts[h])
  }

  /** A pending EXPIRE belongs to the current generation, which has no deadline yet. */
  ghost predicate PendingInv(s: State) {
    && (forall r :: r in s.requests && s.requests[r].ExpireNext? ==>
          && s.requests[r].count == 1 && s.requests[r].generation == |s.starts| - 1
          && s.counter.Some? && s.counter.value.deadline.None?)
    && (forall r, q :: r in s.requests && q in s.requests && s.requests[r].ExpireNext? && s.requests[q].ExpireNext? ==>
          r == q)
  }

  ghost predicate Inv(s: State) {
    CounterInv(s) && HitsInv(s) && StartsInv(s) && PendingInv(s)
  }

  lemma InitInv(now: int, limit: int, window: int)
    ensures Inv(Init(now, limit, window))
  {
  }

  lemma IncrHits(s: State, rid: Rid)
    requires Inv(s)
    ensures HitsInv(DoIncr(s, rid))
  {
    hide PendingInv;
    var s' := DoIncr(s, rid);
    forall i | 0 <= i < |s'.hits| ensures HitInv(s', s'.hits[i]) {
      if i < |s.hits| {
        assert HitInv(s, s.hits[i]);
      }
    }
    forall i, j | 0 <= i && j == i + 1 < |s'.hits| ensures FollowsOn(s'.hits[i], s'.hits[j]) {
      if j < |s.hits| {
        assert FollowsOn(s.hits[i], s.hits[j]);
      } else {
        assert HitInv(s, s.hits[i]);
      }
    }
  }

  lemma IncrKeeps(s: State, rid: Rid)
    requires Inv(s) && rid !in s.requests && s.window >= 1
    ensures Inv(DoIncr(s, rid))
  {
    IncrHits(s, rid);
    IncrPending(s, rid);
    hide HitInv, Chain, PendingInv;
    assert s.hits != [] ==> HitInv(s, s.hits[|s.hits| - 1]);
  }

  lemma IncrPending(s: State, rid: Rid)
    requires Inv(s) && rid !in s.requests
    ensures PendingInv(DoIncr(s, rid))
  {
    hide StartsInv, Chain;
    if s.hits != [] {
      assert HitInv(s, s.hits[|s.hits| - 1]);
    }
  }

  lemma StepKeeps(s: State, rid: Rid)
    requires Inv(s) && rid in s.requests && s.window >= 1
    ensures Inv(Apply(s, Do(rid)))
  {
    var s' := Apply(s, Do(rid));
    assert HitsInv(s') by {
      assert forall h :: HitInv(s', h) == HitInv(s, h);
    }
    hide HitsInv;
    assert PendingInv(s') by {
      forall r, q | r in s'.requests && q in s'.requests && s'.requests[r].ExpireNext? && s'.requests[q].ExpireNext?
        ensures r == q
      {
        assert s.requests[r] == s'.requests[r] && s.requests[q] == s'.requests[q];
      }
    }
  }

  lemma TickKeeps(s: State, duration: nat)
    requires Inv(s)
    ensures Inv(s.(now := s.now + duration))
  {
    assert forall h :: HitInv(s, h) ==> HitInv(s.(now := s.now + duration), h);
  }

  lemma StopKeeps(s: State, s': State, rid: Rid)
    requires Inv(s) && s' == s.(requests := s.requests - {rid}, results := s'.results)
    ensures Inv(s')
  {
    assert forall h :: HitInv(s', h) == HitInv(s, h);
  }

  lemma ApplyKeeps(s: State, e: Event)
    requires Inv(s) && s.window >= 1
    ensures var s' := Apply(s, e); Inv(s') && s'.limit == s.limit && s'.window == s.window
  {
    hide Inv;
    match e
    case Tick(duration) => TickKeeps(s, duration);
    case Incr(rid) =>
      if rid !in s.requests && rid !in s.results {
        IncrKeeps(s, rid);
      }
    case Do(rid) =>
      if rid in s.requests {
        StepKeeps(s, rid);
      }
    case Stop(rid) => StopKeeps(s, Apply(s, e), rid);
  }

  lemma {:induction false} RunKeeps(s: State, events: seq<Event>)
    requires Inv(s) && s.window >= 1
    ensures var s' := Exec(s, events); Inv(s') && s'.limit == s.limit && s'.window == s.window
  {
    hide Inv, Apply;
    if events != [] {
      RunKeeps(s, events[..|events| - 1]);
      ApplyKeeps(Exec(s, events[..|events| - 1]), events[|events| - 1]);
    }
  }

  function Run(now: int, limit: int, window: int, events: seq<Event>): State {
    Exec(Init(now, limit, window), events)
  }

  lemma Reached(now: int, limit: int, window: int, events: seq<Event>)
    requires window >= 1
    ensures var s := Run(now, limit, window, events); Inv(s) && s.limit == limit && s.window == window
  {
    InitInv(now, limit, window);
    RunKeeps(Init(now, limit, window), events);
  }

  // ---- generations ----

  /**
   Every interleaving, failed EXPIREs included: the EXPIRE of a request lands on the generation
   whose INCR returned 1 to that request, which is still alive and has no deadline; it then lives
   a window from there.
   */
  lemma ExpireLandsOnItsOwn(now: int, limit: int, window: int, events: seq<Event>, rid: Rid)
    requires window >= 1
    requires var s := Run(now, limit, window, events); rid in s.requests && s.requests[rid].ExpireNext?
    ensures
      var s := Run(now, limit, window, events);
      var s' := Apply(s, Do(rid));
      && s.requests[rid].count == 1 && s.requests[rid].generation == |s.starts| - 1 >= 0
      && Live(s.counter, s.now) && s.counter.value.deadline == None
      && s'.counter == Some(Counter(s.counter.value.value, Some(s.now + window)))
      && s.starts[|s.starts| - 1] + window <= s.now + window && s'.starts == s.starts
  {
    Reached(now, limit, window, events);
    hide HitsInv, Run;
  }

  /** The counts a generation's INCRs returned, in order. */
  function CountsOf(hits: seq<Hit>, generation: int): seq<nat> {
    if hits == [] then [] else
      var last := hits[|hits| - 1];
      CountsOf(hits[..|hits| - 1], generation) + (if last.generation == generation then [last.count] else [])
  }

  function UpTo(n: nat): seq<nat> {
    seq(n, i => i + 1)
  }

  lemma ChainPrefix(hits: seq<Hit>, k: nat)
    requires Chain(hits) && k <= |hits|
    ensures Chain(hits[..k])
  {
  }

  lemma {:induction false} ChainCounts(hits: seq<Hit>, generation: int)
    requires Chain(hits) && hits != []
    ensures
      var last := hits[|hits| - 1];
      && last.count >= 1 && last.generation >= 0
      && (generation == last.generation ==> CountsOf(hits, generation) == UpTo(last.count))
      && (generation > last.generation ==> CountsOf(hits, generation) == [])
      && (0 <= generation < last.generation ==>
            CountsOf(hits, generation) != [] && CountsOf(hits, generation) == UpTo(|CountsOf(hits, generation)|))
  {
    if |hits| > 1 {
      var before := hits[..|hits| - 1];
      ChainPrefix(hits, |hits| - 1);
      ChainCounts(before, generation);
      assert FollowsOn(hits[|hits| - 2], hits[|hits| - 1]);
      assert before[|before| - 1] == hits[|hits| - 2];
    } else {
      assert hits[..0] == [];
      assert UpTo(1) == [1];
    }
  }

  function AllowedCounts(counts: seq<nat>, limit: int): nat {
    if counts == [] then 0
    else AllowedCounts(counts[..|counts| - 1], limit) + (if counts[|counts| - 1] <= limit then 1 else 0)
  }

  lemma {:induction false} AllowedUpTo(n: nat, limit: int)
    ensures AllowedCounts(UpTo(n), limit) == (if limit < 0 then 0 else if n < limit then n else limit)
  {
    if n > 0 {
      assert UpTo(n)[..n - 1] == UpTo(n - 1);
      AllowedUpTo(n - 1, limit);
    }
  }

  /**
   Every interleaving: the INCRs of a generation return exactly 1, 2, ..., n, so exactly
   min(n, limit) of its requests are within the limit; and generations start a window apart.
   */
  lemma GenerationCounts(now: int, limit: int, window: int, events: seq<Event>, generation: int)
    requires window >= 1
    requires 0 <= generation < |Run(now, limit, window, events).starts|
    ensures
      var s := Run(now, limit, window, events);
      var n := |CountsOf(s.hits, generation)|;
      && n >= 1 && CountsOf(s.hits, generation) == UpTo(n)
      && AllowedCounts(CountsOf(s.hits, generation), limit) == (if limit < 0 then 0 else if n < limit then n else limit)
      && (generation > 0 ==> s.starts[generation - 1] + window <= s.starts[generation])
  {
    Reached(now, limit, window, events);
    var s := Run(now, limit, window, events);
    ChainCounts(s.hits, generation);
    AllowedUpTo(|CountsOf(s.hits, generation)|, limit);
  }

  // ---- the bound on admitted requests ----

  predicate Within(h: Hit, limit: int, from: int, to: int) {
    h.count <= limit && from <= h.time < to
  }

  /** How many requests the INCRs admit from `from` up to, not including, `to`. */
  function Admitted(hits: seq<Hit>, limit: int, from: int, to: int): nat {
    if hits == [] then 0 else
      Admitted(hits[..|hits| - 1], limit, from, to) + (if Within(hits[|hits| - 1], limit, from, to) then 1 else 0)
  }

  function Max0(limit: int): nat {
    if limit < 0 then 0 else limit
  }

  function Ceiling(length: int, window: int): int
    requires window >= 1
  {
    (length + window - 1) / window
  }

  lemma {:induction false} NoneBefore(hits: seq<Hit>, limit: int, from: int, to: int)
    requires forall i :: 0 <= i < |hits| ==> hits[i].time < from || to <= hits[i].time
    ensures Admitted(hits, limit, from, to) == 0
  {
    if hits != [] {
      NoneBefore(hits[..|hits| - 1], limit, from, to);
    }
  }

  /** Counting from hit `i`, each generation admits at most `limit`. */
  lemma {:induction false} AdmittedGrows(hits: seq<Hit>, limit: int, from: int, to: int, i: nat)
    requires Chain(hits) && i < |hits| && (forall j :: 0 <= j < i ==> hits[j].time < from)
    ensures
      var last := hits[|hits| - 1];
      var bound := Max0(limit);
      && last.generation >= hits[i].generation && last.count >= 1
      && Admitted(hits, limit, from, to) <=
           (last.generation - hits[i].generation) * bound + (if last.count < bound then last.count else bound)
  {
    var n := |hits| - 1;
    ChainCounts(hits, 0);
    if i == n {
      NoneBefore(hits[..n], limit, from, to);
    } else {
      ChainPrefix(hits, n);
      AdmittedGrows(hits[..n], limit, from, to, i);
      assert FollowsOn(hits[n - 1], hits[n]);
      var d := hits[n - 1].generation - hits[i].generation;
      assert (d + 1) * Max0(limit) == d * Max0(limit) + Max0(limit);
    }
  }

  lemma {:induction false} StartsApart(s: State, g: nat, h: nat)
    requires StartsInv(s) && g <= h < |s.starts| && s.window >= 1
    ensures s.starts[g] + (h - g) * s.window <= s.starts[h]
  {
    if g < h {
      StartsApart(s, g, h - 1);
      assert (h - g) * s.window == (h - 1 - g) * s.window + s.window;
    }
  }

  lemma {:induction false} TimesGrow(hits: seq<Hit>, i: nat, j: nat)
    requires Chain(hits) && i <= j < |hits|
    ensures hits[i].time <= hits[j].time
  {
    if i < j {
      TimesGrow(hits, i, j - 1);
      assert FollowsOn(hits[j - 1], hits[j]);
    }
  }

  /** Hits at or after `to` admit nothing in the interval. */
  lemma {:induction false} AdmittedPrefix(hits: seq<Hit>, limit: int, from: int, to: int, k: nat)
    requires k <= |hits| && forall j :: k <= j < |hits| ==> to <= hits[j].time
    ensures Admitted(hits, limit, from, to) == Admitted(hits[..k], limit, from, to)
  {
    if k == |hits| {
      assert hits[..k] == hits;
    } else {
      AdmittedPrefix(hits[..|hits| - 1], limit, from, to, k);
      assert hits[..|hits| - 1][..k] == hits[..k];
    }
  }

  /** At most this many generations begin after the first one of the interval. */
  lemma GenerationsIn(s: State, i: nat, k: nat, from: int, length: nat)
    requires Inv(s) && s.window >= 1 && i <= k < |s.hits|
    requires from <= s.hits[i].time && s.hits[k].time < from + length
    ensures s.hits[k].generation - s.hits[i].generation <= Ceiling(length, s.window)
  {
    var g, h := s.hits[i].generation, s.hits[k].generation;
    assert HitInv(s, s.hits[i]) && HitInv(s, s.hits[k]);
    CeilingNat(length, s.window);
    hide Ceiling, CounterInv, PendingInv, Chain;
    if h > g {
      assert StartsInv(s);
      StartsApart(s, g + 1, h);
      hide StartsInv, HitsInv;
      CeilingAbove(h - g, length, s.window);
    }
  }

  lemma CeilingAbove(d: int, length: int, window: int)
    requires window >= 1 && (d - 1) * window < length
    ensures d <= Ceiling(length, window)
  {
    assert d * window == (d - 1) * window + window;
    assert d * window <= length + window - 1;
    DivideBelow(d, length + window - 1, window);
  }

  lemma DivideBelow(d: int, x: int, window: int)
    requires window >= 1 && d * window <= x
    ensures d <= x / window
  {
    var m := d - x / window;
    assert m * window == d * window - (x / window) * window;
    assert m * window < 1 * window;
  }

  /** The first index from `k` on whose hit satisfies the bound on its time; all earlier ones do not. */
  lemma {:induction false} FirstAt(hits: seq<Hit>, k: nat, time: int) returns (i: nat)
    requires k <= |hits|
    ensures k <= i <= |hits| && (i < |hits| ==> time <= hits[i].time)
    ensures forall j :: k <= j < i ==> hits[j].time < time
    decreases |hits| - k
  {
    if k == |hits| || time <= hits[k].time {
      i := k;
    } else {
      i := FirstAt(hits, k + 1, time);
    }
  }

  lemma HitsBound(s: State, from: int, length: nat)
    requires Inv(s) && s.window >= 1
    ensures Admitted(s.hits, s.limit, from, from + length) <= (Ceiling(length, s.window) + 1) * Max0(s.limit)
  {
    hide Ceiling, Max0, CounterInv, PendingInv, StartsInv, HitInv, Admitted;
    var to := from + length;
    var i := FirstAt(s.hits, 0, from);
    var k := FirstAt(s.hits, i, to);
    assert Chain(s.hits);
    hide Chain;
    forall j | k <= j < |s.hits| ensures to <= s.hits[j].time {
      TimesGrow(s.hits, k, j);
    }
    AdmittedPrefix(s.hits, s.limit, from, to, k);
    CeilingNat(length, s.window);
    var c, bound := Ceiling(length, s.window), Max0(s.limit);
    if i == k {
      NoneBefore(s.hits[..k], s.limit, from, to);
      Scale(-1, c, bound);
    } else {
      ChainPrefix(s.hits, k);
      AdmittedGrows(s.hits[..k], s.limit, from, to, i);
      GenerationsIn(s, i, k - 1, from, length);
      Scale(s.hits[k - 1].generation - s.hits[i].generation, c, bound);
    }
  }

  lemma CeilingNat(length: nat, window: int)
    requires window >= 1
    ensures Ceiling(length, window) >= 0
  {
  }

  lemma Scale(d: int, c: int, bound: nat)
    requires d <= c
    ensures d * bound + bound <= (c + 1) * bound
  {
    assert (c + 1) * bound - (d * bound + bound) == (c - d) * bound;
  }

  // ---- answers ----

  /** The count a request is still to be answered for. */
  function CountOf(pc: Pc): nat {
    pc.count
  }

  /** Every hit is a request's, and its answer is the one its count calls for. */
  predicate AnswerInv(s: State, h: Hit) {
    && (h.rid in s.requests || h.rid in s.results)
    && (h.rid in s.requests ==> h.rid !in s.results && CountOf(s.requests[h.rid]) == h.count)
    && (h.rid in s.results && s.results[h.rid].Some? ==>
          var answer := s.results[h.rid].value;
          && (answer.allowed <==> h.count <= s.limit)
          && answer.remaining == Max0(s.limit - h.count)
          && 1 <= answer.resetIn <= s.window)
  }

  ghost predicate AnswersInv(s: State) {
    && (forall i :: 0 <= i < |s.hits| ==> AnswerInv(s, s.hits[i]))
    && (forall i, j :: 0 <= i < j < |s.hits| ==> s.hits[i].rid != s.hits[j].rid)
    && (forall r :: r in s.requests || r in s.results ==> HasHit(s.hits, r))
  }

  predicate HasHit(hits: seq<Hit>, rid: Rid) {
    exists i :: 0 <= i < |hits| && hits[i].rid == rid
  }

  lemma HasHitLonger(hits: seq<Hit>, h: Hit, rid: Rid)
    ensures HasHit(hits + [h], rid) <==> HasHit(hits, rid) || h.rid == rid
  {
    if HasHit(hits, rid) {
      var i :| 0 <= i < |hits| && hits[i].rid == rid;
      assert (hits + [h])[i].rid == rid;
    }
    if h.rid == rid {
      assert (hits + [h])[|hits|].rid == rid;
    }
  }

  lemma IncrAnswers(s: State, rid: Rid)
    requires AnswersInv(s) && rid !in s.requests && rid !in s.results
    ensures AnswersInv(DoIncr(s, rid))
  {
    var s' := DoIncr(s, rid);
    var n := |s.hits|;
    forall i | 0 <= i < |s'.hits| ensures AnswerInv(s', s'.hits[i]) {
      if i < n {
        assert AnswerInv(s, s.hits[i]);
      }
    }
    forall i, j | 0 <= i < j < |s'.hits| ensures s'.hits[i].rid != s'.hits[j].rid {
      if j == n {
        assert AnswerInv(s, s.hits[i]);
      }
    }
    forall r | r in s'.requests || r in s'.results ensures HasHit(s'.hits, r) {
      HasHitLonger(s.hits, s'.hits[n], r);
    }
  }

  lemma TtlRange(s: State)
    requires Inv(s) && s.window >= 1
    ensures var ttl := TtlOf(s.counter, s.now); ttl < 0 || 1 <= ttl <= s.window
  {
    hide HitsInv, StartsInv, PendingInv;
  }

  /** A step of a request answers it, or leaves its count and its answer alone. */
  lemma StepAnswer(s: State, e: Event, h: Hit)
    requires AnswerInv(s, h) && s.window >= 1 && !e.Incr?
    requires var ttl := TtlOf(s.counter, s.now); ttl < 0 || 1 <= ttl <= s.window
    ensures AnswerInv(Apply(s, e), h)
  {
    hide TtlOf, Expired;
  }

  lemma SameCallers(s: State, e: Event)
    requires !e.Incr?
    ensures var s' := Apply(s, e);
      s'.hits == s.hits && forall r :: r in s'.requests || r in s'.results ==> r in s.requests || r in s.results
  {
  }

  lemma ApplyAnswers(s: State, e: Event)
    requires Inv(s) && AnswersInv(s) && s.window >= 1
    ensures AnswersInv(Apply(s, e))
  {
    var s' := Apply(s, e);
    if e.Incr? {
      if e.rid !in s.requests && e.rid !in s.results {
        IncrAnswers(s, e.rid);
      }
    } else {
      TtlRange(s);
      SameCallers(s, e);
      hide Inv, HasHit, Apply, AnswerInv;
      forall i | 0 <= i < |s'.hits| ensures AnswerInv(s', s'.hits[i]) {
        StepAnswer(s, e, s.hits[i]);
      }
    }
  }

  lemma {:induction false} RunAnswers(s: State, events: seq<Event>)
    requires Inv(s) && AnswersInv(s) && s.window >= 1
    ensures AnswersInv(Exec(s, events))
  {
    hide Inv, Apply, AnswersInv;
    if events != [] {
      RunAnswers(s, events[..|events| - 1]);
      RunKeeps(s, events[..|events| - 1]);
      ApplyAnswers(Exec(s, events[..|events| - 1]), events[|events| - 1]);
    }
  }

  /** The requests answered "allowed" whose INCR fell within the interval. */
  ghost function AllowedRequests(s: State, from: int, to: int): set<Rid> {
    set r | r in s.results && s.results[r].Some? && s.results[r].value.allowed && HitIn(s.hits, r, from, to)
  }

  predicate HitIn(hits: seq<Hit>, rid: Rid, from: int, to: int) {
    exists i :: 0 <= i < |hits| && hits[i].rid == rid && from <= hits[i].time < to
  }

  lemma {:induction false} CountRequests(hits: seq<Hit>, limit: int, from: int, to: int, rids: set<Rid>)
    requires forall r :: r in rids ==>
      exists i :: 0 <= i < |hits| && hits[i].rid == r && Within(hits[i], limit, from, to)
    ensures |rids| <= Admitted(hits, limit, from, to)
  {
    if hits == [] {
      assert rids == {};
    } else {
      var n := |hits| - 1;
      var rest := if Within(hits[n], limit, from, to) then rids - {hits[n].rid} else rids;
      forall r | r in rest
        ensures exists i :: 0 <= i < n && hits[..n][i].rid == r && Within(hits[..n][i], limit, from, to)
      {
        var i :| 0 <= i < |hits| && hits[i].rid == r && Within(hits[i], limit, from, to);
        assert hits[..n][i] == hits[i];
      }
      CountRequests(hits[..n], limit, from, to, rest);
    }
  }

  /**
   Every interleaving, with any failures: over any half-open interval of length T at most
   (ceiling(T / window) + 1) * limit requests are allowed, timed at their INCR; so at most twice
   the limit in any one window.
   */
  lemma AllowedBound(now: int, limit: int, window: int, events: seq<Event>, from: int, length: nat)
    requires window >= 1
    ensures
      var s := Run(now, limit, window, events);
      && |AllowedRequests(s, from, from + length)| <= (Ceiling(length, window) + 1) * Max0(limit)
      && (length == window ==> |AllowedRequests(s, from, from + length)| <= 2 * Max0(limit))
  {
    hide Inv, Exec, AnswersInv, AllowedRequests;
    var s := Run(now, limit, window, events);
    Reached(now, limit, window, events);
    InitInv(now, limit, window);
    StartAnswers(now, limit, window);
    RunAnswers(Init(now, limit, window), events);
    HitsBound(s, from, length);
    CountAllowed(s, from, from + length);
    if length == window {
      OneWindow(window);
    }
  }

  lemma StartAnswers(now: int, limit: int, window: int)
    ensures AnswersInv(Init(now, limit, window))
  {
  }

  /** Every allowed request has a hit within the limit. */
  lemma CountAllowed(s: State, from: int, to: int)
    requires AnswersInv(s)
    ensures |AllowedRequests(s, from, to)| <= Admitted(s.hits, s.limit, from, to)
  {
    hide Admitted;
    var rids := AllowedRequests(s, from, to);
    forall r | r in rids
      ensures exists i :: 0 <= i < |s.hits| && s.hits[i].rid == r && Within(s.hits[i], s.limit, from, to)
    {
      var i :| 0 <= i < |s.hits| && s.hits[i].rid == r && from <= s.hits[i].time < to;
      assert AnswerInv(s, s.hits[i]);
    }
    CountRequests(s.hits, s.limit, from, to, rids);
  }

  lemma OneWindow(window: int)
    requires window >= 1
    ensures Ceiling(window, window) == 1
  {
    assert window + window - 1 == 1 * window + (window - 1);
  }

  predicate Answers(answer: RateLimitResult, h: Hit, limit: int) {
    (answer.allowed <==> h.count <= limit) && answer.remaining == Max0(limit - h.count)
  }

  /** Every answer: allowed exactly within the limit, and a wait between 1 and the window. */
  lemma AnswersRight(now: int, limit: int, window: int, events: seq<Event>, rid: Rid)
    requires window >= 1
    requires var s := Run(now, limit, window, events); rid in s.results && s.results[rid].Some?
    ensures
      var s := Run(now, limit, window, events);
      var answer := s.results[rid].value;
      && 1 <= answer.resetIn <= window
      && (exists i :: 0 <= i < |s.hits| && s.hits[i].rid == rid && Answers(answer, s.hits[i], limit))
  {
    var s := Run(now, limit, window, events);
    Reached(now, limit, window, events);
    InitInv(now, limit, window);
    RunAnswers(Init(now, limit, window), events);
    hide Inv, Run;
    var i :| 0 <= i < |s.hits| && s.hits[i].rid == rid;
    assert AnswerInv(s, s.hits[i]);
    assert Answers(s.results[rid].value, s.hits[i], limit);
  }

  // ---- the wait ----

  /** The counter is there and has a deadline ahead. */
  predicate HasDeadline(counter: Option<Counter>, now: int) {
    counter.Some? && counter.value.deadline.Some? && now < counter.value.deadline.value
  }

  /** `wait` is the time that the counter has left, or the window if it has no deadline. */
  predicate Waits(counter: Option<Counter>, now: int, window: int, wait: int) {
    if HasDeadline(counter, now) then now + wait == counter.value.deadline.value else wait == window
  }

  /**
   Every interleaving: a request that gets its reply to TTL is answered, and the wait it is told is
   the time its counter has left at that moment.
   */
  lemma AnswerTellsWait(now: int, limit: int, window: int, events: seq<Event>, rid: Rid)
    requires var s := Run(now, limit, window, events); rid in s.requests && s.requests[rid].TtlNext?
    ensures
      var s := Run(now, limit, window, events);
      var s' := Apply(s, Do(rid));
      && rid in s'.results && s'.results[rid].Some? && s'.counter == s.counter
      && Waits(s.counter, s.now, window, s'.results[rid].value.resetIn)
  {
    WindowKept(Init(now, limit, window), events);
  }

  lemma {:induction false} WindowKept(s: State, events: seq<Event>)
    ensures Exec(s, events).window == s.window
  {
    if events != [] {
      WindowKept(s, events[..|events| - 1]);
    }
  }

  /** A counter with a deadline changes only by an INCR. */
  lemma {:induction false} OnlyIncrCounts(s: State, more: seq<Event>)
    requires Inv(s) && s.window >= 1 && s.counter.Some? && s.counter.value.deadline.Some?
    requires forall i :: 0 <= i < |more| ==> !more[i].Incr?
    ensures Exec(s, more).counter == s.counter
  {
    if more != [] {
      var n := |more| - 1;
      OnlyIncrCounts(s, more[..n]);
      RunKeeps(s, more[..n]);
      assert PendingInv(Exec(s, more[..n]));
    }
  }

  /**
   So the wait is exact: while no other request is counted, one that comes before it is over gets
   the next count of the same counter, and one that comes when it is over gets count 1.
   */
  lemma WaitIsExact(now: int, limit: int, window: int, events: seq<Event>, rid: Rid, more: seq<Event>, next: Rid)
    requires window >= 1 && forall i :: 0 <= i < |more| ==> !more[i].Incr?
    requires
      var s := Run(now, limit, window, events);
      && rid in s.requests && s.requests[rid].TtlNext? && HasDeadline(s.counter, s.now)
    requires
      var m := Exec(Apply(Run(now, limit, window, events), Do(rid)), more);
      next !in m.requests && next !in m.results
    ensures
      var s := Run(now, limit, window, events);
      var answered := Apply(s, Do(rid));
      var m := Exec(answered, more);
      var m' := Apply(m, Incr(next));
      && rid in answered.results && answered.results[rid].Some?
      && |m'.hits| == |m.hits| + 1 && m'.hits[|m.hits|].rid == next
      && m'.hits[|m.hits|].count ==
           if m.now < s.now + answered.results[rid].value.resetIn then s.counter.value.value + 1 else 1
  {
    var s := Run(now, limit, window, events);
    Reached(now, limit, window, events);
    AnswerTellsWait(now, limit, window, events, rid);
    ApplyKeeps(s, Do(rid));
    hide Inv, Run, Exec;
    OnlyIncrCounts(Apply(s, Do(rid)), more);
  }

  // ---- blocked keys ----

  predicate HasPending(s: State) {
    exists r :: r in s.requests && s.requests[r].ExpireNext?
  }

  /** The counter has no deadline and no request is left to set one. */
  predicate Stuck(s: State) {
    s.counter.Some? && s.counter.value.deadline == None && !HasPending(s)
  }

  /** No request that comes after `s` is within the limit, whatever happens. */
  ghost predicate BlockedForGood(s: State) {
    forall events, i :: |s.hits| <= i < |Exec(s, events).hits| ==> Exec(s, events).hits[i].count > s.limit
  }

  lemma StuckStep(s: State, e: Event)
    requires Stuck(s) && s.counter.value.value >= 1
    ensures var s' := Apply(s, e);
      && Stuck(s') && s'.limit == s.limit && s.counter.value.value <= s'.counter.value.value
      && s.hits <= s'.hits && (forall i :: |s.hits| <= i < |s'.hits| ==> s'.hits[i].count > s.counter.value.value)
  {
    var s' := Apply(s, e);
    forall r | r in s'.requests ensures !s'.requests[r].ExpireNext? {
      assert r in s.requests ==> !s.requests[r].ExpireNext?;
    }
  }

  lemma {:induction false} StuckStays(s: State, events: seq<Event>)
    requires Stuck(s) && s.counter.value.value >= 1
    ensures var s' := Exec(s, events);
      && Stuck(s') && s'.limit == s.limit && s.counter.value.value <= s'.counter.value.value
      && s.hits <= s'.hits && (forall i :: |s.hits| <= i < |s'.hits| ==> s'.hits[i].count > s.counter.value.value)
  {
    StuckHas(s);
    hide Stuck, Apply;
    if events != [] {
      var m := Exec(s, events[..|events| - 1]);
      StuckStays(s, events[..|events| - 1]);
      assert m.counter.Some? by { assert Stuck(m); StuckHas(m); }
      StuckStep(m, events[|events| - 1]);
      var s' := Exec(s, events);
      forall i | |s.hits| <= i < |s'.hits| ensures s'.hits[i].count > s.counter.value.value {
        if i < |m.hits| {
          assert s'.hits[i] == m.hits[i];
        }
      }
    }
  }

  lemma StuckHas(s: State)
    requires Stuck(s)
    ensures s.counter.Some?
  {
  }

  lemma ExecOne(s: State, events: seq<Event>, e: Event)
    ensures Exec(s, events + [e]) == Apply(Exec(s, events), e)
  {
    assert (events + [e])[..|events|] == events;
  }

  lemma {:induction false} ExecConcat(s: State, first: seq<Event>, rest: seq<Event>)
    ensures Exec(s, first + rest) == Exec(Exec(s, first), rest)
    decreases |rest|
  {
    if rest == [] {
      assert first + rest == first;
    } else {
      var n := |rest| - 1;
      ExecConcat(s, first, rest[..n]);
      assert (first + rest)[..|first + rest| - 1] == first + rest[..n];
    }
  }

  /** A new request whose count is within the limit shows that the key is not blocked. */
  lemma Unblocked(s: State, events: seq<Event>, rid: Rid)
    requires var m := Exec(s, events);
      && rid !in m.requests && rid !in m.results && m.limit == s.limit && |s.hits| <= |m.hits|
      && Incremented(m.counter, m.now).value <= s.limit
    ensures !BlockedForGood(s)
  {
    var m := Exec(s, events);
    ExecOne(s, events, Incr(rid));
    assert Exec(s, events + [Incr(rid)]).hits[|m.hits|].count <= s.limit;
  }

  /** A counter with a deadline dies; the next request is the first of a new generation. */
  lemma UnblockedByDeadline(s: State, events: seq<Event>)
    requires var m := Exec(s, events);
      m.counter.Some? && m.counter.value.deadline.Some? && m.limit == s.limit && |s.hits| <= |m.hits|
    requires s.limit >= 1
    ensures !BlockedForGood(s)
  {
    var m := Exec(s, events);
    var d := m.counter.value.deadline.value;
    var wait: nat := if d > m.now then d - m.now else 0;
    ExecOne(s, events, Tick(wait));
    var rid := FreshNat(m.requests.Keys + m.results.Keys);
    Unblocked(s, events + [Tick(wait)], rid);
  }

  /**
   When a key is blocked for good, so that no later request is ever allowed on any instance:
   exactly when its counter has reached the limit with no deadline and no request is left that
   would set one.
   */
  lemma BlockedIffStuck(now: int, limit: int, window: int, events: seq<Event>)
    requires window >= 1 && limit >= 1
    ensures
      var s := Run(now, limit, window, events);
      BlockedForGood(s) <==> Stuck(s) && s.counter.value.value >= limit
  {
    var s := Run(now, limit, window, events);
    Reached(now, limit, window, events);
    hide Run, HitsInv, StartsInv;
    assert Exec(s, []) == s;
    if Stuck(s) && s.counter.value.value >= limit {
      forall more, i | |s.hits| <= i < |Exec(s, more).hits| ensures Exec(s, more).hits[i].count > limit {
        StuckStays(s, more);
      }
    } else if s.counter.Some? && s.counter.value.deadline.Some? {
      UnblockedByDeadline(s, []);
    } else if HasPending(s) {
      var r :| r in s.requests && s.requests[r].ExpireNext?;
      ExecOne(s, [], Do(r));
      UnblockedByDeadline(s, [] + [Do(r)]);
    } else {
      var rid := FreshNat(s.requests.Keys + s.results.Keys);
      Unblocked(s, [], rid);
    }
  }

  /** A request cut short between its INCR and its EXPIRE leaves the key stuck. */
  lemma CutShortSticks(now: int, limit: int, window: int, events: seq<Event>, rid: Rid)
    requires window >= 1
    requires var s := Run(now, limit, window, events); rid in s.requests && s.requests[rid].ExpireNext?
    ensures Stuck(Apply(Run(now, limit, window, events), Stop(rid)))
  {
    Reached(now, limit, window, events);
    var s := Run(now, limit, window, events);
    hide Run, HitsInv, StartsInv, CounterInv;
    forall r | r in Apply(s, Stop(rid)).requests ensures !Apply(s, Stop(rid)).requests[r].ExpireNext? {
      assert r in s.requests && r != rid;
    }
  }

  /** One request is cut short after its INCR; others follow until the count is `n`. */
  function CutShortRun(n: nat): seq<Event>
    requires n >= 1
  {
    if n == 1 then [Incr(0), Stop(0)] else CutShortRun(n - 1) + [Incr(n - 1)]
  }

  lemma {:induction false} CutShortCounts(now: int, limit: int, window: int, n: nat)
    requires n >= 1
    ensures
      var s := Run(now, limit, window, CutShortRun(n));
      && s.counter == Some(Counter(n, None)) && s.limit == limit
      && (forall r :: r in s.requests ==> r < n && !s.requests[r].ExpireNext?) && (forall r :: r in s.results ==> r < n)
  {
    var s0 := Init(now, limit, window);
    if n == 1 {
      assert [Incr(0), Stop(0)] == ([] + [Incr(0)]) + [Stop(0)];
      ExecOne(s0, [], Incr(0));
      ExecOne(s0, [] + [Incr(0)], Stop(0));
      assert Exec(s0, []) == s0;
    } else {
      CutShortCounts(now, limit, window, n - 1);
      ExecOne(s0, CutShortRun(n - 1), Incr(n - 1));
    }
  }

  /**
   So it does happen: whatever the limit and the window, one request cut short after the first
   INCR of a key, and as many requests as the limit allows, block the key for good.
   */
  lemma OneFailureBlocks(now: int, limit: int, window: int)
    requires window >= 1 && limit >= 1
    ensures BlockedForGood(Run(now, limit, window, CutShortRun(limit)))
  {
    CutShortCounts(now, limit, window, limit);
    BlockedIffStuck(now, limit, window, CutShortRun(limit));
  }

  predicate WillExpire(s: State) {
    s.counter.Some? && s.counter.value.deadline == None ==> HasPending(s)
  }

  lemma FaultFreeStep(s: State, e: Event)
    requires Inv(s) && WillExpire(s) && !e.Stop? && s.window >= 1
    ensures WillExpire(Apply(s, e))
  {
    hide HitsInv, StartsInv;
    var s' := Apply(s, e);
    if HasPending(s) {
      var r :| r in s.requests && s.requests[r].ExpireNext?;
      if !(e.Do? && e.rid == r) {
        assert r in s'.requests && s'.requests[r] == s.requests[r];
      }
    } else if
      && e.Incr? && e.rid in s'.requests && s'.counter != s.counter
      && s'.counter.Some? && s'.counter.value.deadline == None
    {
      assert s'.requests[e.rid].ExpireNext?;
    }
  }

  lemma {:induction false} FaultFreeRun(s: State, events: seq<Event>)
    requires Inv(s) && WillExpire(s) && s.window >= 1 && forall i :: 0 <= i < |events| ==> !events[i].Stop?
    ensures WillExpire(Exec(s, events))
  {
    hide WillExpire, Apply, Inv;
    if events != [] {
      FaultFreeRun(s, events[..|events| - 1]);
      RunKeeps(s, events[..|events| - 1]);
      FaultFreeStep(Exec(s, events[..|events| - 1]), events[|events| - 1]);
    }
  }

  /**
   Runs without failures, limit at least 1: no key is ever blocked for good; a counter that no
   request is about to give a deadline has one, at most a window ahead; and the first request at
   or after that deadline gets count 1.
   */
  lemma NeverBlocked(now: int, limit: int, window: int, events: seq<Event>, wait: nat, rid: Rid)
    requires window >= 1 && limit >= 1 && forall i :: 0 <= i < |events| ==> !events[i].Stop?
    ensures
      var s := Run(now, limit, window, events);
      && !BlockedForGood(s)
      && (s.counter.Some? && !HasPending(s) ==>
            s.counter.value.deadline.Some? && s.counter.value.deadline.value <= s.now + window)
      && (s.counter.Some? && s.counter.value.deadline.Some? && s.counter.value.deadline.value <= s.now + wait
          && rid !in s.requests && rid !in s.results ==>
            var s' := Apply(Apply(s, Tick(wait)), Incr(rid));
            |s'.hits| == |s.hits| + 1 && s'.hits[|s.hits|].rid == rid && s'.hits[|s.hits|].count == 1)
  {
    var s := Run(now, limit, window, events);
    Reached(now, limit, window, events);
    InitInv(now, limit, window);
    FaultFreeRun(Init(now, limit, window), events);
    BlockedIffStuck(now, limit, window, events);
    hide Run, HitsInv, StartsInv, BlockedForGood, HasPending;
  }
}
