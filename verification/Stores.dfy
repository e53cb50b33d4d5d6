/**
 The shared store as the serial service sees it: its clock, Redis keys, index sets and session
 rows, changed in place. The history beside them is a serial run of the protocol, one event for
 every command, and `Valid` says that the store is what that run leaves; so whatever holds after
 every serial run holds of the store after any sequence of calls.
 */
module Stores {
  import opened Environments
  import opened Records
  import opened Protocol
  import opened ProtocolInvariants
  import opened ProtocolSteps
  import opened ProtocolTheorems
  import opened SerialRuns
  import opened Sweeps

  /** The indexes, the session rows and the history of created tokens are as they were. */
  predicate SameRest(s: State, s': State) {
    && s'.userIndex == s.userIndex && s'.sessionIndex == s.sessionIndex && s'.sessions == s.sessions
    && s'.births == s.births && s'.order == s.order && s'.lifetime == s.lifetime
  }

  /** Time may have passed, and tokens may have been rewritten. */
  predicate OnlyTokens(s: State, s': State) {
    SameRest(s, s') && s.now <= s'.now
  }

  /** Time may have passed. */
  predicate Aged(s: State, s': State) {
    && OnlyTokens(s, s') && s'.tokens == s.tokens
    && s'.requests == s.requests && s'.results == s.results && s'.marks == s.marks
  }

  /** The request `rid` is the only one in flight, and it is at `pc`. */
  predicate Busy(s: State, rid: Rid, pc: Pc) {
    At(s, rid, pc) && Alone(s, rid)
  }

  /** No request is in flight, and `rid` ended with `outcome`. */
  predicate Ended(s: State, rid: Rid, outcome: Outcome) {
    s.requests == map[] && rid in s.results && s.results[rid] == outcome
  }

  /** The effect of moving on, or ending, on the data: none. */
  predicate SameData(s: State, s': State) {
    SameRest(s, s') && s'.tokens == s.tokens && s'.now == s.now
  }

  lemma GotoBusy(s: State, rid: Rid, pc: Pc)
    requires Alone(s, rid)
    ensures var s' := Goto(s, rid, pc); Busy(s', rid, pc) && SameData(s, s') && s'.results == s.results
  {
  }

  lemma FinishEnds(s: State, rid: Rid, outcome: Outcome)
    requires Alone(s, rid)
    ensures var s' := Finish(s, rid, outcome); Ended(s', rid, outcome) && Alone(s', rid) && SameData(s, s')
  {
    assert Finish(s, rid, outcome).requests == map[];
  }

  lemma BusyAlone(s: State, rid: Rid, pc: Pc)
    requires Busy(s, rid, pc)
    ensures Alone(s, rid)
  {
  }

  /** The request has moved on to `pc`, and the data are as they were. */
  predicate Moved(s: State, s': State, rid: Rid, pc: Pc) {
    Busy(s', rid, pc) && SameData(s, s')
  }

  lemma GotoMoves(s: State, rid: Rid, pc: Pc)
    requires Alone(s, rid)
    ensures Moved(s, Goto(Numbered(s), rid, pc), rid, pc)
  {
  }

  /** Time passing, or a step of the request. */
  predicate Own(e: Event, rid: Rid) {
    e.Tick? || ((e.Do? || e.Stop?) && e.rid == rid)
  }

  ghost predicate Extends(trace: seq<Event>, trace': seq<Event>, rid: Rid) {
    trace <= trace' && forall i :: |trace| <= i < |trace'| ==> Own(trace'[i], rid)
  }

  class Store {
    const env: Environment
    ghost const start: int
    ghost const lifetime: nat
    var now: int
    var tokens: map<Token, Entry>
    var userIndex: map<Id, set<Token>>
    var sessionIndex: map<Id, set<Token>>
    var sessions: map<Id, Session>
    ghost var trace: seq<Event>
    ghost var state: State

    ghost predicate Ran()
      reads this
    {
      state == Run(start, lifetime, trace) && SerialRun(Init(start, lifetime), trace)
    }

    ghost predicate Mirrors()
      reads this
    {
      && now == state.now && tokens == state.tokens && userIndex == state.userIndex
      && sessionIndex == state.sessionIndex && sessions == state.sessions && lifetime == state.lifetime
    }

    ghost predicate Valid()
      reads this
    {
      Ran() && Mirrors() && "" !in sessions
    }

    /** So far every logout presented a token ACTIVE or absent, or of a session without a usable one. */
    ghost predicate Guarded()
      reads this
    {
      GuardedRun(Init(start, lifetime), trace)
    }

    /** The history has grown, by time passing and by steps of request `rid`. */
    twostate predicate Continues(rid: Rid)
      reads this
    {
      Extends(old(trace), trace, rid) && (old(Guarded()) ==> Guarded())
    }

    /** The history has grown by one request, which made `call`, and by time passing. */
    twostate predicate Serves(rid: Rid, call: Call)
      reads this
    {
      Extends(old(trace) + [Start(rid, call)], trace, rid)
    }

    constructor (env: Environment, now: int, ghost lifetime: nat)
      ensures this.env == env
      ensures Valid() && Guarded() && state == Init(now, lifetime) && this.lifetime == lifetime
      ensures tokens == map[] && sessions == map[]
    {
      this.env := env;
      this.start, this.lifetime, this.now := now, lifetime, now;
      tokens, userIndex, sessionIndex, sessions := map[], map[], map[], map[];
      trace, state := [], Init(now, lifetime);
    }

    /** The next event of the history. */
    ghost method Record(e: Event)
      requires Ran() && Serial(state, e)
      modifies this`trace, this`state
      ensures Ran() && trace == old(trace) + [e] && state == Apply(old(state), e)
      ensures old(Guarded()) && (e.Start? ==> Presentable(old(state), e.call)) ==> Guarded()
    {
      hide Apply, Presentable;
      ExecOne(Init(start, lifetime), trace, e);
      assert (trace + [e])[..|trace + [e]| - 1] == trace;
      trace, state := trace + [e], Apply(state, e);
    }

    /** Time passes. */
    method Pass(ghost rid: Rid)
      requires Valid()
      modifies this
      ensures Valid() && Continues(rid) && Aged(old(state), state)
    {
      var duration: nat := *;
      now := now + duration;
      Record(Tick(duration));
    }

    /** A request begins. */
    ghost method Begin(rid: Rid, call: Call)
      requires Valid() && state.requests == map[] && rid !in state.results
      modifies this`trace, this`state
      ensures Valid() && trace == old(trace) + [Start(rid, call)] && Busy(state, rid, Entry0(call, now))
      ensures Aged(old(state).(requests := state.requests), state) && state.now == old(state).now
      ensures old(Guarded()) && Presentable(old(state), call) ==> Guarded()
    {
      hide Presentable, Entry0;
      Record(Start(rid, call));
    }

    /** A request stops where it is, if it has not ended. */
    ghost method Halt(rid: Rid)
      requires Valid() && Alone(state, rid)
      modifies this`trace, this`state
      ensures Valid() && Continues(rid) && state.requests == map[]
      ensures Aged(old(state).(requests := map[], results := state.results), state) && state.now == old(state).now
      ensures state.results == old(state).results || state.results == old(state).results[rid := Failed]
    {
      if rid in state.requests {
        FinishEnds(Numbered(state), rid, Failed);
      }
      Record(Stop(rid));
      assert state.requests == map[];
    }
  }

  /** In every history a key outlives its token. */
  lemma AlwaysLasting(store: Store)
    requires store.Valid()
    ensures Lasting(store.tokens)
  {
    hide IndexInv, MarksInv, RequestsInv, Run, SerialRun;
    Reached(store.start, store.lifetime, store.trace);
    var s := store.state;
    forall t | t in s.tokens ensures s.tokens[t].record.expiresAt <= s.tokens[t].deadline {
      assert Copy(s, t, s.tokens[t].record);
    }
  }
}
