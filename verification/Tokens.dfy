/** TokenService.GenerateRefreshToken: a fresh ACTIVE token and its expiry. */
module Tokens {
  import opened Options
  import opened Records
  import opened Protocol
  import opened ProtocolSteps
  import opened ProtocolTheorems
  import opened SerialRuns
  import opened Stores

  /** `token` is generated: it is known from now on, and nothing else has changed. */
  predicate Born(s: State, s': State, token: Token, record: Record, rid: Rid) {
    && token !in s.births
    && s'.births == s.births[token := Birth(record.userId, record.sessionId, record.createdAt, record.expiresAt, rid)]
    && s'.tokens == s.tokens && s'.userIndex == s.userIndex && s'.sessionIndex == s.sessionIndex
    && s'.sessions == s.sessions && s'.lifetime == s.lifetime && s.now <= s'.now
  }

  lemma MintMoves(s: State, rid: Rid, userId: Id, sessionId: Id, origin: Origin, random: Token)
    requires Busy(s, rid, Mint(userId, sessionId, origin)) && random !in s.births
    ensures
      var s' := Apply(s, Do(rid, random));
      var record := Record(userId, sessionId, Active, s.now, s.now + s.lifetime);
      Born(s, s', random, record, rid) && s'.now == s.now && Busy(s', rid, CreateTtl(random, record, origin))
  {
    hide Apply, Goto;
    AtMint(s, rid, userId, sessionId, origin, random);
    var record := Record(userId, sessionId, Active, s.now, s.now + s.lifetime);
    var birth := Birth(userId, sessionId, s.now, s.now + s.lifetime, rid);
    GotoBusy(Numbered(s).(births := s.births[random := birth]), rid, CreateTtl(random, record, origin));
  }

  class TokenService {
    const store: Store
    const refreshTtl: nat

    constructor (store: Store, refreshTtl: nat)
      ensures this.store == store && this.refreshTtl == refreshTtl
    {
      this.store, this.refreshTtl := store, refreshTtl;
    }

    /**
     The random bytes are `random`, a token never generated before; the caller fills in the
     session. The token is ACTIVE and expires one lifetime from now.
     */
    method GenerateRefreshToken(
        userId: Id, random: Token, ghost rid: Rid, ghost sessionId: Id, ghost origin: Origin)
      returns (reply: Reply<Record>)
      requires store.Valid() && Busy(store.state, rid, Mint(userId, sessionId, origin)) && refreshTtl == store.lifetime
      requires random !in store.state.births
      modifies store
      ensures store.Valid() && store.Continues(rid) && Alone(store.state, rid) && !reply.NotFound?
      ensures old(store.now) <= store.now
      ensures reply.Fault? ==> Aged(old(store.state), store.state)
      ensures reply.Answer? ==>
        var record := reply.value.(sessionId := sessionId);
        && reply.value == Record(userId, "", Active, store.now, store.now + refreshTtl)
        && Born(old(store.state), store.state, random, record, rid)
        && Busy(store.state, rid, CreateTtl(random, record, origin))
      ensures store.env.sound ==> !reply.Fault?
    {
      hide Apply, Run, SerialRun, GuardedRun;
      store.Pass(rid);
      var failed := store.env.Fails();
      if failed {
        return Fault;
      }
      MintMoves(store.state, rid, userId, sessionId, origin, random);
      store.Record(Do(rid, random));
      return Answer(Record(userId, "", Active, store.now, store.now + refreshTtl));
    }
  }
}
