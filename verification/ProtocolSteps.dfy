/** The effect of one event, by the position of the request: what a caller needs to know of `Apply`. */
module ProtocolSteps {
  import opened Records
  import opened Protocol

  predicate At(s: State, rid: Rid, pc: Pc) {
    rid in s.requests && s.requests[rid] == pc
  }

  lemma AtLoginInsert(s: State, rid: Rid, row: Session, pick: string)
    requires At(s, rid, LoginInsert(row))
    ensures Apply(s, Do(rid, pick)) == DoLoginInsert(Numbered(s), rid, row, pick)
  {
  }

  lemma AtMint(s: State, rid: Rid, userId: Id, sessionId: Id, origin: Origin, pick: string)
    requires At(s, rid, Mint(userId, sessionId, origin))
    ensures Apply(s, Do(rid, pick)) == DoMint(Numbered(s), rid, userId, sessionId, origin, pick)
  {
  }

  lemma AtCreateTtl(s: State, rid: Rid, token: Token, record: Record, origin: Origin, pick: string)
    requires At(s, rid, CreateTtl(token, record, origin))
    ensures Apply(s, Do(rid, pick)) == DoCreateTtl(Numbered(s), rid, token, record, origin)
  {
  }

  lemma AtCreateExec(s: State, rid: Rid, token: Token, record: Record, ttl: int, origin: Origin, pick: string)
    requires At(s, rid, CreateExec(token, record, ttl, origin))
    ensures Apply(s, Do(rid, pick)) == DoCreateExec(Numbered(s), rid, token, record, ttl, origin)
  {
  }

  lemma AtTouch(s: State, rid: Rid, sessionId: Id, at: int, renewed: Token, pick: string)
    requires At(s, rid, Touch(sessionId, at, renewed))
    ensures Apply(s, Do(rid, pick)) == DoTouch(Numbered(s), rid, sessionId, at, renewed)
  {
  }

  lemma AtRefreshFind(s: State, rid: Rid, token: Token, pick: string)
    requires At(s, rid, RefreshFind(token))
    ensures Apply(s, Do(rid, pick)) == DoRefreshFind(Numbered(s), rid, token)
  {
  }

  lemma AtRefreshCheck(s: State, rid: Rid, token: Token, record: Record, readAt: nat, pick: string)
    requires At(s, rid, RefreshCheck(token, record, readAt))
    ensures Apply(s, Do(rid, pick)) == DoRefreshCheck(Numbered(s), rid, token, record, readAt)
  {
  }

  lemma AtRefreshUser(s: State, rid: Rid, token: Token, record: Record, readAt: nat, pick: string)
    requires At(s, rid, RefreshUser(token, record, readAt))
    ensures Apply(s, Do(rid, pick)) == DoRefreshUser(Numbered(s), rid, token, record, readAt, pick)
  {
  }

  lemma AtUpdateFind(s: State, rid: Rid, token: Token, goal: Goal, pick: string)
    requires At(s, rid, UpdateFind(token, goal))
    ensures Apply(s, Do(rid, pick)) == DoUpdateFind(Numbered(s), rid, token, goal)
  {
  }

  lemma AtUpdateTtl(s: State, rid: Rid, token: Token, record: Record, goal: Goal, pick: string)
    requires At(s, rid, UpdateTtl(token, record, goal))
    ensures Apply(s, Do(rid, pick)) == DoUpdateTtl(Numbered(s), rid, token, record, goal)
  {
  }

  lemma AtUpdateSet(s: State, rid: Rid, token: Token, record: Record, ttl: int, ttlAt: int, goal: Goal, pick: string)
    requires At(s, rid, UpdateSet(token, record, ttl, ttlAt, goal))
    ensures Apply(s, Do(rid, pick)) == DoUpdateSet(Numbered(s), rid, token, record, ttl, ttlAt, goal)
  {
  }

  lemma AtSweepMembers(s: State, rid: Rid, scope: Scope, reason: Reason, pick: string)
    requires At(s, rid, SweepMembers(scope, reason))
    ensures Apply(s, Do(rid, pick)) == DoSweepMembers(Numbered(s), rid, scope, reason)
  {
  }

  lemma AtSweepNext(s: State, rid: Rid, sweep: Sweep, pick: string)
    requires At(s, rid, SweepNext(sweep))
    ensures Apply(s, Do(rid, pick)) == DoSweepNext(Numbered(s), rid, sweep, pick)
  {
  }

  lemma AtSweepFind(s: State, rid: Rid, token: Token, sweep: Sweep, pick: string)
    requires At(s, rid, SweepFind(token, sweep))
    ensures Apply(s, Do(rid, pick)) == DoSweepFind(Numbered(s), rid, token, sweep)
  {
  }

  lemma AtLogoutFind(s: State, rid: Rid, token: Token, pick: string)
    requires At(s, rid, LogoutFind(token))
    ensures Apply(s, Do(rid, pick)) == DoLogoutFind(Numbered(s), rid, token)
  {
  }

  lemma AtOwnerCheck(s: State, rid: Rid, userId: Id, sessionId: Id, pick: string)
    requires At(s, rid, OwnerCheck(userId, sessionId))
    ensures Apply(s, Do(rid, pick)) == DoOwnerCheck(Numbered(s), rid, userId, sessionId)
  {
  }

  lemma AtTouchStamp(s: State, rid: Rid, sessionId: Id, renewed: Token, pick: string)
    requires At(s, rid, TouchStamp(sessionId, renewed))
    ensures Apply(s, Do(rid, pick)) == Goto(Numbered(s), rid, Touch(sessionId, s.now, renewed))
  {
  }

  lemma AtRevokeRows(s: State, rid: Rid, scope: Scope, reason: Reason, snapshot: set<Token>, pick: string)
    requires At(s, rid, RevokeRows(scope, reason, snapshot))
    ensures Apply(s, Do(rid, pick)) == DoRevokeRows(Numbered(s), rid, scope, reason)
  {
  }

  lemma AtTick(s: State, duration: nat)
    ensures Apply(s, Tick(duration)) == Numbered(s).(now := s.now + duration)
  {
    hide DoStep, Goto, Finish, Entry0;
  }

  lemma AtExpire(s: State, token: Token)
    ensures
      var dead := token in s.tokens && s.tokens[token].deadline <= s.now;
      Apply(s, Expire(token)) == Numbered(s).(tokens := if dead then s.tokens - {token} else s.tokens)
  {
    hide DoStep, Goto, Finish, Entry0;
  }

  /** The clock moves on, or a dead key goes: no request is involved. */
  lemma AtClock(s: State, e: Event)
    requires e.Tick? || e.Expire?
    ensures
      var s' := Apply(s, e);
      && s' == s.(now := s'.now, steps := s.steps + 1, tokens := s'.tokens) && s.now <= s'.now
      && (forall t :: t in s'.tokens ==> t in s.tokens && s'.tokens[t] == s.tokens[t])
      && (forall t :: t in s.tokens && t !in s'.tokens ==> s.tokens[t].deadline <= s.now)
  {
    hide Apply;
    match e
    case Tick(duration) => AtTick(s, duration);
    case Expire(token) => AtExpire(s, token);
  }
}
