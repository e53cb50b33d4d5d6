/**
 A logout that runs to its end while no other request moves, with time passing and keys expiring
 between any two of its steps: exactly when its session keeps a usable token.
 */
module LogoutRuns {
  import opened Options
  import opened Records
  import opened Protocol
  import opened ProtocolSteps
  import opened ProtocolInvariants
  import opened ProtocolTheorems
  import opened QuietScopes
  import opened SerialRuns
  import opened SerialTheorems

  /** Time passing, a key expiring, or a step of the request. */
  predicate Unaided(e: Event, rid: Rid) {
    e.Tick? || e.Expire? || (e.Do? && e.rid == rid)
  }

  /** The key is as it was, unless it has expired. */
  predicate Kept(before: map<Token, Entry>, after: map<Token, Entry>, now: int, token: Token) {
    && (token in after ==> token in before && after[token] == before[token])
    && (token in before && token !in after ==> before[token].deadline <= now)
  }

  /** What the first lookup found, or that the key was dead by then. */
  predicate Found(s0: State, s: State, token: Token, owner: Option<Record>)
    requires token in s0.tokens
  {
    match owner
    case None => s0.tokens[token].deadline <= s.now
    case Some(record) => record == s0.tokens[token].record
  }

  predicate Asked(s0: State, s: State, token: Token, asked: Token, goal: Goal)
    requires token in s0.tokens
  {
    asked == token && goal.LogoutToken? && Found(s0, s, token, goal.owner)
  }

  /** The local facts of the logout of `token` that began in `s0`. */
  predicate LogoutPc(s0: State, s: State, pc: Pc, token: Token)
    requires token in s0.tokens
  {
    match pc
    case LogoutFind(t) => t == token && Kept(s0.tokens, s.tokens, s.now, token)
    case UpdateFind(t, goal) => Asked(s0, s, token, t, goal) && Kept(s0.tokens, s.tokens, s.now, token)
    case UpdateTtl(t, record, goal) =>
      && Asked(s0, s, token, t, goal) && Kept(s0.tokens, s.tokens, s.now, token)
      && record == s0.tokens[token].record.(status := Revoked)
    case UpdateSet(t, record, _, _, goal) =>
      Asked(s0, s, token, t, goal) && record == s0.tokens[token].record.(status := Revoked)
    case RevokeRows(scope, reason, _) =>
      scope == OfSession(s0.tokens[token].record.sessionId) && reason == Requested && !Usable(s, token)
    case _ => false
  }

  /** The logout is over: its token is not usable, and its session is revoked unless the key was dead. */
  predicate LogoutOver(s0: State, s: State, token: Token)
    requires token in s0.tokens
  {
    && !Usable(s, token)
    && (s.sessions == RevokeRow(s0.sessions, s0.tokens[token].record.sessionId)
        || (s.sessions == s0.sessions && s0.tokens[token].deadline <= s.now))
  }

  ghost predicate LogoutSoFar(s0: State, s: State, rid: Rid, token: Token)
    requires token in s0.tokens
  {
    && s0.now <= s.now && s.sessionIndex == s0.sessionIndex
    && (forall u :: u != token ==> Kept(s0.tokens, s.tokens, s.now, u))
    && (rid in s.requests ==> LogoutPc(s0, s, s.requests[rid], token) && s.sessions == s0.sessions && rid !in s.results)
    && (rid !in s.requests ==> rid in s.results && LogoutOver(s0, s, token))
  }

  /** The tokens, rows and clock that a step of the logout leaves, besides its own token. */
  ghost predicate SameBut(s: State, m: State, token: Token) {
    && m.now == s.now && m.sessionIndex == s.sessionIndex && m.requests == s.requests && m.results == s.results
    && (forall u :: u != token ==> (u in m.tokens <==> u in s.tokens) && (u in s.tokens ==> m.tokens[u] == s.tokens[u]))
  }

  lemma OthersKept(s0: State, s: State, m: State, rid: Rid, token: Token)
    requires token in s0.tokens && LogoutSoFar(s0, s, rid, token) && SameBut(s, m, token)
    ensures forall u :: u != token ==> Kept(s0.tokens, m.tokens, m.now, u)
  {
    forall u | u != token ensures Kept(s0.tokens, m.tokens, m.now, u) {
      assert Kept(s0.tokens, s.tokens, s.now, u);
    }
  }

  lemma GotoSoFar(s0: State, s: State, m: State, rid: Rid, token: Token, pc: Pc)
    requires token in s0.tokens && LogoutSoFar(s0, s, rid, token) && rid in s.requests
    requires SameBut(s, m, token) && m.sessions == s0.sessions && LogoutPc(s0, m, pc, token)
    ensures LogoutSoFar(s0, Goto(m, rid, pc), rid, token)
  {
    OthersKept(s0, s, m, rid, token);
  }

  lemma FinishSoFar(s0: State, s: State, m: State, rid: Rid, token: Token, outcome: Outcome)
    requires token in s0.tokens && LogoutSoFar(s0, s, rid, token) && rid in s.requests
    requires SameBut(s, m, token) && LogoutOver(s0, m, token)
    ensures LogoutSoFar(s0, Finish(m, rid, outcome), rid, token)
  {
    OthersKept(s0, s, m, rid, token);
  }

  lemma InFlight(s0: State, s: State, rid: Rid, token: Token)
    requires token in s0.tokens && LogoutSoFar(s0, s, rid, token) && rid in s.requests
    ensures LogoutPc(s0, s, s.requests[rid], token) && s.sessions == s0.sessions
  {
  }

  lemma NumberedOver(s0: State, s: State, token: Token)
    requires token in s0.tokens
    ensures Usable(Numbered(s), token) == Usable(s, token) && SameBut(s, Numbered(s), token)
  {
  }

  lemma MissingSoFar(s0: State, s: State, rid: Rid, token: Token, goal: Goal)
    requires token in s0.tokens && LogoutSoFar(s0, s, rid, token) && rid in s.requests
    requires Asked(s0, s, token, token, goal) && !Usable(s, token)
    ensures LogoutSoFar(s0, UpdateMissing(Numbered(s), rid, goal), rid, token)
  {
    hide LogoutSoFar, Goto, Finish, Usable;
    InFlight(s0, s, rid, token);
    NumberedOver(s0, s, token);
    match goal.owner
    case None => FinishSoFar(s0, s, Numbered(s), rid, token, Done);
    case Some(record) =>
      GotoSoFar(s0, s, Numbered(s), rid, token, RevokeRows(OfSession(record.sessionId), Requested, {}));
  }

  lemma LogoutFindSoFar(s0: State, s: State, rid: Rid, token: Token, pick: string)
    requires token in s0.tokens && LogoutSoFar(s0, s, rid, token) && At(s, rid, LogoutFind(token))
    ensures LogoutSoFar(s0, Apply(s, Do(rid, pick)), rid, token)
  {
    hide Apply, Goto;
    AtLogoutFind(s, rid, token, pick);
    GotoSoFar(s0, s, Numbered(s), rid, token, UpdateFind(token, LogoutToken(Lookup(s.tokens, s.now, token))));
  }

  lemma UpdateFindSoFar(s0: State, s: State, rid: Rid, token: Token, goal: Goal, pick: string)
    requires token in s0.tokens && LogoutSoFar(s0, s, rid, token) && At(s, rid, UpdateFind(token, goal))
    ensures LogoutSoFar(s0, Apply(s, Do(rid, pick)), rid, token)
  {
    hide Apply, Goto, UpdateMissing;
    AtUpdateFind(s, rid, token, goal, pick);
    match Lookup(s.tokens, s.now, token)
    case None => MissingSoFar(s0, s, rid, token, goal);
    case Some(record) => GotoSoFar(s0, s, Numbered(s), rid, token, UpdateTtl(token, record.(status := Revoked), goal));
  }

  lemma UpdateTtlSoFar(s0: State, s: State, rid: Rid, token: Token, record: Record, goal: Goal, pick: string)
    requires token in s0.tokens && LogoutSoFar(s0, s, rid, token) && At(s, rid, UpdateTtl(token, record, goal))
    ensures LogoutSoFar(s0, Apply(s, Do(rid, pick)), rid, token)
  {
    hide Apply, Goto, UpdateMissing;
    AtUpdateTtl(s, rid, token, record, goal, pick);
    if record.expiresAt - s.now <= 0 {
      MissingSoFar(s0, s, rid, token, goal);
    } else {
      GotoSoFar(s0, s, Numbered(s), rid, token, UpdateSet(token, record, record.expiresAt - s.now, s.now, goal));
    }
  }

  lemma UpdateSetSoFar(
      s0: State, s: State, rid: Rid, token: Token, record: Record, ttl: int, ttlAt: int, goal: Goal, pick: string)
    requires token in s0.tokens && LogoutSoFar(s0, s, rid, token)
    requires At(s, rid, UpdateSet(token, record, ttl, ttlAt, goal))
    ensures LogoutSoFar(s0, Apply(s, Do(rid, pick)), rid, token)
  {
    hide Apply, Goto, Finish;
    AtUpdateSet(s, rid, token, record, ttl, ttlAt, goal, pick);
    var m := Overwrite(Numbered(s), token, record, ttl);
    match goal.owner
    case None => FinishSoFar(s0, s, m, rid, token, Done);
    case Some(owner) => GotoSoFar(s0, s, m, rid, token, RevokeRows(OfSession(owner.sessionId), Requested, {}));
  }

  lemma RevokeRowsSoFar(s0: State, s: State, rid: Rid, token: Token, snapshot: set<Token>, pick: string)
    requires token in s0.tokens && LogoutSoFar(s0, s, rid, token)
    requires At(s, rid, RevokeRows(OfSession(s0.tokens[token].record.sessionId), Requested, snapshot))
    ensures LogoutSoFar(s0, Apply(s, Do(rid, pick)), rid, token)
  {
    hide Apply, Finish;
    var scope := OfSession(s0.tokens[token].record.sessionId);
    AtRevokeRows(s, rid, scope, Requested, snapshot, pick);
    FinishSoFar(s0, s, Numbered(s).(sessions := RowsAfter(s.sessions, scope)), rid, token, Done);
  }

  lemma ClockSoFar(s0: State, s: State, rid: Rid, token: Token, e: Event)
    requires token in s0.tokens && LogoutSoFar(s0, s, rid, token) && (e.Tick? || e.Expire?)
    ensures LogoutSoFar(s0, Apply(s, e), rid, token)
  {
    hide Apply;
    AtClock(s, e);
    var s' := Apply(s, e);
    forall u | Kept(s0.tokens, s.tokens, s.now, u) ensures Kept(s0.tokens, s'.tokens, s'.now, u) {
    }
    assert !Usable(s, token) ==> !Usable(s', token);
  }

  lemma StepSoFar(s0: State, s: State, rid: Rid, token: Token, pick: string)
    requires token in s0.tokens && LogoutSoFar(s0, s, rid, token)
    ensures LogoutSoFar(s0, Apply(s, Do(rid, pick)), rid, token)
  {
    hide LogoutSoFar, Apply, Usable;
    if rid in s.requests {
      var pc := s.requests[rid];
      InFlight(s0, s, rid, token);
      match pc
      case LogoutFind(t) => LogoutFindSoFar(s0, s, rid, token, pick);
      case UpdateFind(t, goal) => UpdateFindSoFar(s0, s, rid, token, goal, pick);
      case UpdateTtl(t, record, goal) => UpdateTtlSoFar(s0, s, rid, token, record, goal, pick);
      case UpdateSet(t, record, ttl, ttlAt, goal) => UpdateSetSoFar(s0, s, rid, token, record, ttl, ttlAt, goal, pick);
      case RevokeRows(scope, reason, snapshot) => RevokeRowsSoFar(s0, s, rid, token, snapshot, pick);
    } else {
      NoStepSoFar(s0, s, rid, token, pick);
    }
  }

  lemma NoStepSoFar(s0: State, s: State, rid: Rid, token: Token, pick: string)
    requires token in s0.tokens && LogoutSoFar(s0, s, rid, token) && rid !in s.requests
    ensures LogoutSoFar(s0, Apply(s, Do(rid, pick)), rid, token)
  {
    hide DoStep;
  }

  lemma {:induction false} RunSoFar(s0: State, s: State, events: seq<Event>, rid: Rid, token: Token)
    requires token in s0.tokens && LogoutSoFar(s0, s, rid, token)
    requires forall i :: 0 <= i < |events| ==> Unaided(events[i], rid)
    ensures LogoutSoFar(s0, Exec(s, events), rid, token)
  {
    hide LogoutSoFar, Apply;
    if events != [] {
      var n := |events| - 1;
      RunSoFar(s0, s, events[..n], rid, token);
      var m := Exec(s, events[..n]);
      match events[n]
      case Do(_, pick) => StepSoFar(s0, m, rid, token, pick);
      case _ => ClockSoFar(s0, m, rid, token, events[n]);
    }
  }

  lemma StartSoFar(s: State, rid: Rid, token: Token)
    requires token in s.tokens && rid !in s.requests && rid !in s.results
    ensures LogoutSoFar(s, Apply(s, Start(rid, Logout(token))), rid, token)
  {
    hide DoStep;
  }

  // ---- what the logout leaves ----

  ghost predicate HasUsable(s: State, sessionId: Id) {
    exists t :: t in Members(s.sessionIndex, sessionId) && Usable(s, t)
  }

  /** The session has a token that is usable at `s` and does not expire until after `now`. */
  ghost predicate HasUsableAt(s: State, sessionId: Id, now: int) {
    exists t :: t in Members(s.sessionIndex, sessionId) && UsableAt(s, t, now)
  }

  predicate UsableAt(s: State, token: Token, now: int) {
    Usable(s, token) && now < s.tokens[token].record.expiresAt
  }

  lemma OthersUsable(s0: State, s: State, rid: Rid, token: Token, u: Token)
    requires Inv(s0) && token in s0.tokens && LogoutSoFar(s0, s, rid, token) && rid !in s.requests
    ensures Usable(s, u) <==> UsableAt(s0, u, s.now) && u != token
  {
    hide IndexInv, MarksInv, RequestsInv;
    if u in s0.tokens {
      assert Copy(s0, u, s0.tokens[u].record);
    }
    assert u != token ==> Kept(s0.tokens, s.tokens, s.now, u);
  }

  /** If the token presented is ACTIVE, no other token of its session is usable. */
  lemma NoOtherUsable(s: State, token: Token, now: int)
    requires FullInv(s, false) && token in s.tokens
    requires var sessionId := s.tokens[token].record.sessionId;
      || s.tokens[token].record.status == Active
      || forall t :: t in Members(s.sessionIndex, sessionId) ==> !UsableAt(s, t, now)
    ensures
      var sessionId := s.tokens[token].record.sessionId;
      forall t :: t in Members(s.sessionIndex, sessionId) && t != token ==> !UsableAt(s, t, now)
  {
    hide MarksInv, RequestsInv, SerialInv, Usable;
    var sessionId := s.tokens[token].record.sessionId;
    if ActiveIn(s, token) {
      OnlyTheActiveOne(s, token);
      forall t | t in Members(s.sessionIndex, sessionId) && t != token ensures !Usable(s, t) {
        assert Spent(s, t);
        UsableUnspent(s, t);
      }
    }
  }

  /**
   A logout with a known token, after any serial run, that completes undisturbed, with any pauses
   and its token perhaps expiring on the way. The tokens usable afterwards are those that were
   and have not expired, without the one presented; the session is REVOKED, unless the token's key
   was gone by then. So the session keeps a usable token exactly when the token presented was not
   ACTIVE and the session had one that is still unexpired.
   */
  lemma LogoutLeavesUsable(now: int, lifetime: int, events: seq<Event>, rid: Rid, token: Token, during: seq<Event>)
    requires SerialRun(Init(now, lifetime), events) && forall i :: 0 <= i < |during| ==> Unaided(during[i], rid)
    requires
      var s := Run(now, lifetime, events);
      rid !in s.requests && rid !in s.results && Lookup(s.tokens, s.now, token).Some?
    requires rid !in Exec(Apply(Run(now, lifetime, events), Start(rid, Logout(token))), during).requests
    ensures
      var s := Run(now, lifetime, events);
      var s' := Exec(Apply(s, Start(rid, Logout(token))), during);
      var record := s.tokens[token].record;
      && (forall u :: Usable(s', u) <==> UsableAt(s, u, s'.now) && u != token)
      && (HasUsable(s', record.sessionId) <==> record.status != Active && HasUsableAt(s, record.sessionId, s'.now))
      && (s.tokens[token].deadline <= s'.now
          || (record.sessionId in s'.sessions && s'.sessions[record.sessionId].status == SessionRevoked))
  {
    var s := Run(now, lifetime, events);
    SerialReached(now, lifetime, events, false);
    var m := Apply(s, Start(rid, Logout(token)));
    StartSoFar(s, rid, token);
    RunSoFar(s, m, during, rid, token);
    Concludes(s, Exec(m, during), rid, token);
  }

  lemma Concludes(s: State, s': State, rid: Rid, token: Token)
    requires FullInv(s, false) && token in s.tokens && LogoutSoFar(s, s', rid, token) && rid !in s'.requests
    ensures
      var record := s.tokens[token].record;
      && (forall u :: Usable(s', u) <==> UsableAt(s, u, s'.now) && u != token)
      && (HasUsable(s', record.sessionId) <==> record.status != Active && HasUsableAt(s, record.sessionId, s'.now))
      && (s.tokens[token].deadline <= s'.now
          || (record.sessionId in s'.sessions && s'.sessions[record.sessionId].status == SessionRevoked))
  {
    var record := s.tokens[token].record;
    forall u ensures Usable(s', u) <==> UsableAt(s, u, s'.now) && u != token {
      OthersUsable(s, s', rid, token, u);
    }
    assert Owned(s, record.sessionId, record.userId) by {
      assert Copy(s, token, record);
    }
    assert record.status != Active ==> !Usable(s, token);
    if record.status == Active {
      NoOtherUsable(s, token, s'.now);
    }
  }

  /**
   So the logouts that leave a usable token are those that are not presentable: a logout that
   leaves one was not, and one that is not leaves one if no time passes before it ends.
   */
  lemma UnpresentableIffUsable(
      now: int, lifetime: int, events: seq<Event>, rid: Rid, token: Token, during: seq<Event>)
    requires SerialRun(Init(now, lifetime), events) && forall i :: 0 <= i < |during| ==> Unaided(during[i], rid)
    requires
      var s := Run(now, lifetime, events);
      rid !in s.requests && rid !in s.results && Lookup(s.tokens, s.now, token).Some?
    requires rid !in Exec(Apply(Run(now, lifetime, events), Start(rid, Logout(token))), during).requests
    ensures
      var s := Run(now, lifetime, events);
      var s' := Exec(Apply(s, Start(rid, Logout(token))), during);
      var sessionId := s.tokens[token].record.sessionId;
      && (HasUsable(s', sessionId) ==> !Presentable(s, Logout(token)))
      && (s'.now == s.now && !Presentable(s, Logout(token)) ==> HasUsable(s', sessionId))
  {
    LogoutLeavesUsable(now, lifetime, events, rid, token, during);
    hide Run, SerialRun, Exec, Apply;
    var s := Run(now, lifetime, events);
    var sessionId := s.tokens[token].record.sessionId;
    assert NoneUsable(s, OfSession(sessionId)) <==> !HasUsable(s, sessionId);
  }
}
