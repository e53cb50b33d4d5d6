/**
 The sweeping requests run to their end undisturbed: reuse detection, LogoutAll and RevokeSession.
 Whatever order the members of the index come in, the request ends as it promises, and exactly
 the unexpired tokens and the session rows of its user or session are revoked.
 */
module CompleteSweeps {
  import opened Records
  import opened Protocol
  import opened ProtocolSteps
  import opened ProtocolInvariants
  import opened ProtocolTheorems
  import opened CompleteRuns
  import opened Revocation

  /** A member that the sweep rewrites: visible, unexpired and not yet REVOKED. */
  predicate Rewrites(entry: Entry, now: int) {
    now < entry.deadline && now < entry.record.expiresAt && entry.record.status != Revoked
  }

  /** The tokens after a sweep of `members` at one moment. */
  function SweptAt(tokens: map<Token, Entry>, members: set<Token>, now: int): map<Token, Entry> {
    map t | t in tokens ::
      if t in members && Rewrites(tokens[t], now)
      then Entry(tokens[t].record.(status := Revoked), tokens[t].record.expiresAt)
      else tokens[t]
  }

  lemma SweptAtMore(tokens: map<Token, Entry>, token: Token, rest: set<Token>, now: int)
    requires token !in rest
    ensures SweptAt(SweptAt(tokens, {token}, now), rest, now) == SweptAt(tokens, {token} + rest, now)
  {
  }

  lemma SweptAtSkips(tokens: map<Token, Entry>, token: Token, now: int)
    requires token in tokens ==> !Rewrites(tokens[token], now)
    ensures SweptAt(tokens, {token}, now) == tokens
  {
  }

  // ---- one member ----

  /** The read of a member that is gone or already REVOKED. */
  lemma SkippedSteps(s: State, rid: Rid, token: Token, sweep: Sweep)
    requires
      var found := Lookup(s.tokens, s.now, token);
      found.None? || found.value.status == Revoked
    ensures
      Driven(Sole(s, rid, SweepFind(token, sweep)), rid, [""]) ==
      Sole(s.(steps := s.steps + 1), rid, SweepNext(sweep))
  {
    hide Apply, Driven, Goto;
    DrivenOne(Sole(s, rid, SweepFind(token, sweep)), rid, "");
    AtSweepFind(Sole(s, rid, SweepFind(token, sweep)), rid, token, sweep, "");
    SoleGoto(Numbered(s), rid, SweepFind(token, sweep), SweepNext(sweep));
  }

  lemma TakenUp(s: State, rid: Rid, token: Token, sweep: Sweep)
    requires
      var found := Lookup(s.tokens, s.now, token);
      found.Some? && found.value.status != Revoked
    ensures
      Driven(Sole(s, rid, SweepFind(token, sweep)), rid, [""]) ==
      Sole(s.(steps := s.steps + 1), rid, UpdateFind(token, SweepToken(sweep)))
  {
    hide Apply, Driven, Goto;
    DrivenOne(Sole(s, rid, SweepFind(token, sweep)), rid, "");
    AtSweepFind(Sole(s, rid, SweepFind(token, sweep)), rid, token, sweep, "");
    SoleGoto(Numbered(s), rid, SweepFind(token, sweep), UpdateFind(token, SweepToken(sweep)));
  }

  /** A visible member that has expired: UpdateStatus finds no time left. */
  lemma ExpiredSteps(s: State, rid: Rid, token: Token, sweep: Sweep)
    requires Lookup(s.tokens, s.now, token).Some? && s.tokens[token].record.expiresAt <= s.now
    ensures
      Driven(Sole(s, rid, UpdateFind(token, SweepToken(sweep))), rid, [""] + [""]) ==
      Sole(s.(steps := s.steps + 2), rid, SweepNext(sweep))
  {
    hide Apply, Driven, Goto;
    var goal := SweepToken(sweep);
    var record := s.tokens[token].record.(status := Revoked);
    var s0 := Sole(s, rid, UpdateFind(token, goal));
    DrivenConcat(s0, rid, [""], [""]);
    DrivenOne(s0, rid, "");
    AtUpdateFind(s0, rid, token, goal, "");
    SoleGoto(Numbered(s), rid, UpdateFind(token, goal), UpdateTtl(token, record, goal));
    var s1 := Sole(Numbered(s), rid, UpdateTtl(token, record, goal));
    DrivenOne(s1, rid, "");
    AtUpdateTtl(s1, rid, token, record, goal, "");
    SoleGoto(Numbered(Numbered(s)), rid, UpdateTtl(token, record, goal), SweepNext(sweep));
  }

  lemma RevokedSteps(s: State, rid: Rid, token: Token, sweep: Sweep)
    requires token in s.tokens && Rewrites(s.tokens[token], s.now)
    ensures
      Driven(Sole(s, rid, UpdateFind(token, SweepToken(sweep))), rid, ["", "", ""]) ==
      Sole(s.(steps := s.steps + 3, tokens := SweptAt(s.tokens, {token}, s.now)), rid, SweepNext(sweep))
  {
    hide Apply, Driven, Goto;
    var record := s.tokens[token].record.(status := Revoked);
    var goal := SweepToken(sweep);
    UpdateSteps(s, rid, token, goal);
    var w := StatusSet(s, token, Revoked);
    assert w.tokens == SweptAt(s.tokens, {token}, s.now);
    SoleGoto(w, rid, UpdateSet(token, record, record.expiresAt - s.now, s.now, goal), SweepNext(sweep));
  }

  lemma UpdateMember(s: State, rid: Rid, token: Token, sweep: Sweep) returns (picks: seq<string>)
    requires Lookup(s.tokens, s.now, token).Some? && s.tokens[token].record.status != Revoked
    ensures
      Driven(Sole(s, rid, UpdateFind(token, SweepToken(sweep))), rid, picks) ==
      Sole(s.(steps := s.steps + |picks|, tokens := SweptAt(s.tokens, {token}, s.now)), rid, SweepNext(sweep))
  {
    hide Apply, Driven, SweptAt, Sole;
    if s.tokens[token].record.expiresAt <= s.now {
      picks := [""] + [""];
      ExpiredSteps(s, rid, token, sweep);
      SweptAtSkips(s.tokens, token, s.now);
    } else {
      picks := ["", "", ""];
      RevokedSteps(s, rid, token, sweep);
    }
  }

  lemma MemberSteps(s: State, rid: Rid, token: Token, sweep: Sweep) returns (picks: seq<string>)
    ensures
      Driven(Sole(s, rid, SweepFind(token, sweep)), rid, picks) ==
      Sole(s.(steps := s.steps + |picks|, tokens := SweptAt(s.tokens, {token}, s.now)), rid, SweepNext(sweep))
  {
    hide Apply, Driven, SweptAt, Sole;
    var found := Lookup(s.tokens, s.now, token);
    if found.None? || found.value.status == Revoked {
      picks := [""];
      SkippedSteps(s, rid, token, sweep);
      SweptAtSkips(s.tokens, token, s.now);
    } else {
      TakenUp(s, rid, token, sweep);
      var more := UpdateMember(s.(steps := s.steps + 1), rid, token, sweep);
      DrivenConcat(Sole(s, rid, SweepFind(token, sweep)), rid, [""], more);
      picks := [""] + more;
    }
  }

  // ---- the loop ----

  /** Every element, each once. */
  ghost predicate Enumerates(order: seq<Token>, all: set<Token>) {
    && (forall x :: x in order <==> x in all)
    && (forall i, j :: 0 <= i < j < |order| ==> order[i] != order[j])
  }

  /** There is such an order of every set. */
  lemma {:induction false} Enumerated(all: set<Token>) returns (order: seq<Token>)
    ensures Enumerates(order, all)
  {
    order := [];
    if all != {} {
      var x :| x in all;
      order := Enumerated(all - {x});
      order := order + [x];
    }
  }

  lemma NextMember(s: State, rid: Rid, sweep: Sweep, token: Token)
    requires token in sweep.left
    ensures
      Driven(Sole(s, rid, SweepNext(sweep)), rid, [token]) ==
      Sole(s.(steps := s.steps + 1), rid, SweepFind(token, sweep.(left := sweep.left - {token})))
  {
    hide Apply, Driven, Goto;
    DrivenOne(Sole(s, rid, SweepNext(sweep)), rid, token);
    AtSweepNext(Sole(s, rid, SweepNext(sweep)), rid, sweep, token);
    SoleGoto(Numbered(s), rid, SweepNext(sweep), SweepFind(token, sweep.(left := sweep.left - {token})));
  }

  lemma LoopEnds(s: State, rid: Rid, sweep: Sweep)
    requires sweep.left == {}
    ensures
      Driven(Sole(s, rid, SweepNext(sweep)), rid, [""]) ==
      Sole(s.(steps := s.steps + 1), rid, RevokeRows(sweep.scope, sweep.reason, sweep.snapshot))
  {
    hide Apply, Driven, Goto;
    DrivenOne(Sole(s, rid, SweepNext(sweep)), rid, "");
    AtSweepNext(Sole(s, rid, SweepNext(sweep)), rid, sweep, "");
    SoleGoto(Numbered(s), rid, SweepNext(sweep), RevokeRows(sweep.scope, sweep.reason, sweep.snapshot));
  }

  /** The loop, over the members that are left in any order. */
  lemma {:induction false} LoopSteps(s: State, rid: Rid, sweep: Sweep, order: seq<Token>) returns (picks: seq<string>)
    requires Enumerates(order, sweep.left)
    ensures
      Driven(Sole(s, rid, SweepNext(sweep)), rid, picks) ==
      Sole(s.(steps := s.steps + |picks|, tokens := SweptAt(s.tokens, sweep.left, s.now)),
           rid, RevokeRows(sweep.scope, sweep.reason, sweep.snapshot))
    decreases |order|
  {
    hide Apply, Driven, SweptAt;
    if order == [] {
      picks := [""];
      LoopEnds(s, rid, sweep);
      SweptAtNone(s.tokens, s.now);
    } else {
      var token, rest := order[0], sweep.(left := sweep.left - {order[0]});
      NextMember(s, rid, sweep, token);
      var a := s.(steps := s.steps + 1);
      var member := MemberSteps(a, rid, token, rest);
      var b := a.(steps := a.steps + |member|, tokens := SweptAt(s.tokens, {token}, s.now));
      var more := LoopSteps(b, rid, rest, order[1..]);
      SweptAtMore(s.tokens, token, rest.left, s.now);
      assert {token} + rest.left == sweep.left;
      picks := [token] + (member + more);
      DrivenConcat(Sole(s, rid, SweepNext(sweep)), rid, [token], member + more);
      DrivenConcat(Sole(a, rid, SweepFind(token, rest)), rid, member, more);
    }
  }

  lemma SweptAtNone(tokens: map<Token, Entry>, now: int)
    ensures SweptAt(tokens, {}, now) == tokens
  {
  }

  /** The whole sweep of one request: what it leaves, and its answer. */
  lemma SweepSteps(s: State, rid: Rid, scope: Scope, reason: Reason, order: seq<Token>) returns (picks: seq<string>)
    requires rid !in s.requests && Enumerates(order, ScopeMembers(s, scope))
    ensures
      Driven(Sole(s, rid, SweepMembers(scope, reason)), rid, picks) ==
      s.(steps := s.steps + |picks|, tokens := SweptAt(s.tokens, ScopeMembers(s, scope), s.now),
         sessions := RowsAfter(s.sessions, scope),
         results := s.results[rid := if reason == Reuse then ReuseDetected else Done])
  {
    hide Apply, Driven, SweptAt, RowsAfter, Goto, Finish, ScopeMembers;
    var members := ScopeMembers(s, scope);
    var sweep := Sweep(scope, reason, members, members);
    var s0 := Sole(s, rid, SweepMembers(scope, reason));
    DrivenOne(s0, rid, "");
    AtSweepMembers(s0, rid, scope, reason, "");
    ScopeSame(s, Numbered(s0), scope);
    SoleGoto(Numbered(s), rid, SweepMembers(scope, reason), SweepNext(sweep));
    var a := Numbered(s);
    var loop := LoopSteps(a, rid, sweep, order);
    var b := a.(steps := a.steps + |loop|, tokens := SweptAt(s.tokens, members, s.now));
    var pc := RevokeRows(scope, reason, members);
    DrivenOne(Sole(b, rid, pc), rid, "");
    AtRevokeRows(Sole(b, rid, pc), rid, scope, reason, members, "");
    SoleFinish(Numbered(b).(sessions := RowsAfter(s.sessions, scope)), rid, pc,
               if reason == Reuse then ReuseDetected else Done);
    picks := [""] + (loop + [""]);
    DrivenConcat(s0, rid, [""], loop + [""]);
    DrivenConcat(Sole(a, rid, SweepNext(sweep)), rid, loop, [""]);
  }

  // ---- what it comes to after any run ----

  /** The row of the session, or the rows of the user, and no others. */
  predicate RowsRevokedIn(before: map<Id, Session>, after: map<Id, Session>, scope: Scope) {
    match scope
    case OfUser(userId) => UserRowsRevoked(before, after, userId)
    case OfSession(sessionId) => SessionRowRevoked(before, after, sessionId)
  }

  lemma RowsAfterRevoked(sessions: map<Id, Session>, scope: Scope)
    ensures RowsRevokedIn(sessions, RowsAfter(sessions, scope), scope)
  {
    match scope
    case OfUser(userId) => RowsRevoked(sessions, userId);
    case OfSession(sessionId) => RowsRevoked(sessions, sessionId);
  }

  /**
   Exactly the unexpired tokens in the scope are REVOKED, each otherwise as it was; no other token
   has changed, and nothing but the rows and the answer of `rid`.
   */
  predicate RevokedThroughout(s: State, s': State, scope: Scope, rid: Rid, outcome: Outcome) {
    && s'.tokens.Keys == s.tokens.Keys
    && (forall t :: t in s.tokens ==>
          var record := s.tokens[t].record;
          if Concerns(scope, record.userId, record.sessionId) && s.now < record.expiresAt
          then s'.tokens[t].record == record.(status := Revoked)
          else s'.tokens[t] == s.tokens[t])
    && RowsRevokedIn(s.sessions, s'.sessions, scope)
    && s' == s.(steps := s'.steps, tokens := s'.tokens, sessions := s'.sessions, results := s.results[rid := outcome])
  }

  lemma SweptThroughout(s: State, s': State, scope: Scope, rid: Rid, outcome: Outcome)
    requires Inv(s)
    requires s' == s.(steps := s'.steps, tokens := SweptAt(s.tokens, ScopeMembers(s, scope), s.now),
                      sessions := RowsAfter(s.sessions, scope), results := s.results[rid := outcome])
    ensures RevokedThroughout(s, s', scope, rid, outcome)
  {
    hide Inv, RowsAfter, RowsRevokedIn, ScopeMembers;
    RowsAfterRevoked(s.sessions, scope);
    forall t | t in s.tokens
      ensures s.tokens[t].record.expiresAt <= s.tokens[t].deadline
      ensures
        var record := s.tokens[t].record;
        t in ScopeMembers(s, scope) <==> Concerns(scope, record.userId, record.sessionId)
    {
      MembersExact(s, scope, t);
      KeyOutlives(s, t);
    }
  }

  lemma KeyOutlives(s: State, t: Token)
    requires Inv(s) && t in s.tokens
    ensures s.tokens[t].record.expiresAt <= s.tokens[t].deadline
  {
    hide IndexInv, MarksInv, RequestsInv;
    assert Copy(s, t, s.tokens[t].record);
  }

  /** A sweep, from its first step on. */
  lemma SweepFrom(s: State, a: State, rid: Rid, scope: Scope, reason: Reason, order: seq<Token>)
    returns (picks: seq<string>)
    requires Inv(s) && rid !in s.requests && Enumerates(order, ScopeMembers(s, scope))
    requires a == Sole(s.(steps := a.steps), rid, SweepMembers(scope, reason))
    ensures
      RevokedThroughout(s, Driven(a, rid, picks), scope, rid, if reason == Reuse then ReuseDetected else Done)
  {
    hide Inv, Driven, SweptAt, RowsAfter, RevokedThroughout, ScopeMembers;
    var from := s.(steps := a.steps);
    assert ScopeMembers(from, scope) == ScopeMembers(s, scope) by {
      ScopeSame(s, from, scope);
    }
    picks := SweepSteps(from, rid, scope, reason, order);
    SweptThroughout(s, Driven(a, rid, picks), scope, rid, if reason == Reuse then ReuseDetected else Done);
  }

  lemma ScopeSame(s: State, t: State, scope: Scope)
    requires t.userIndex == s.userIndex && t.sessionIndex == s.sessionIndex
    ensures ScopeMembers(t, scope) == ScopeMembers(s, scope)
  {
  }

  /**
   After any run, serial or not: a refresh of a USED token whose key lives, undisturbed, ends in
   the reuse error, and by then exactly the unexpired tokens and the rows of its user are REVOKED.
   */
  lemma ReuseCompletes(start: int, lifetime: int, events: seq<Event>, rid: Rid, token: Token, order: seq<Token>)
    returns (picks: seq<string>)
    requires
      var s := Run(start, lifetime, events);
      && Unseen(s, rid) && token in s.tokens && s.now < s.tokens[token].deadline
      && s.tokens[token].record.status == Used
      && Enumerates(order, Members(s.userIndex, s.tokens[token].record.userId))
    ensures
      var s := Run(start, lifetime, events);
      RevokedThroughout(s, Whole(s, rid, Refresh(token), picks), OfUser(s.tokens[token].record.userId), rid,
                        ReuseDetected)
  {
    hide Run, Apply, Driven, Goto, Inv, RevokedThroughout;
    var s := Run(start, lifetime, events);
    var record, scope := s.tokens[token].record, OfUser(s.tokens[token].record.userId);
    Reached(start, lifetime, events);
    ReadSteps(s, rid, token);
    var a := s.(steps := s.steps + 2);
    var pc := RefreshCheck(token, record, s.steps + 2);
    AtRefreshCheck(Sole(a, rid, pc), rid, token, record, s.steps + 2, "");
    SoleGoto(Numbered(a), rid, pc, SweepMembers(scope, Reuse));
    DrivenOne(Sole(a, rid, pc), rid, "");
    var sweep := SweepFrom(s, Sole(Numbered(a), rid, SweepMembers(scope, Reuse)), rid, scope, Reuse, order);
    picks := [""] + ([""] + sweep);
    DrivenConcat(Apply(s, Start(rid, Refresh(token))), rid, [""], [""] + sweep);
    DrivenConcat(Sole(a, rid, pc), rid, [""], sweep);
  }

  /** Likewise LogoutAll. */
  lemma LogoutAllCompletes(start: int, lifetime: int, events: seq<Event>, rid: Rid, userId: Id, order: seq<Token>)
    returns (picks: seq<string>)
    requires
      var s := Run(start, lifetime, events);
      Unseen(s, rid) && Enumerates(order, Members(s.userIndex, userId))
    ensures
      var s := Run(start, lifetime, events);
      RevokedThroughout(s, Whole(s, rid, LogoutAll(userId), picks), OfUser(userId), rid, Done)
  {
    hide Run, Apply, Driven, Inv, RevokedThroughout;
    var s := Run(start, lifetime, events);
    Reached(start, lifetime, events);
    Started(s, rid, LogoutAll(userId));
    picks := SweepFrom(s, Apply(s, Start(rid, LogoutAll(userId))), rid, OfUser(userId), Requested, order);
  }

  /**
   Likewise RevokeSession of the session's owner; without the row it is an error and for anyone
   else a rejection, and then nothing changes.
   */
  lemma RevokeSessionCompletes(
      start: int, lifetime: int, events: seq<Event>, rid: Rid, userId: Id, sessionId: Id, order: seq<Token>)
    returns (picks: seq<string>)
    requires
      var s := Run(start, lifetime, events);
      Unseen(s, rid) && Enumerates(order, Members(s.sessionIndex, sessionId))
    ensures
      var s := Run(start, lifetime, events);
      var s' := Whole(s, rid, RevokeSession(userId, sessionId), picks);
      if sessionId !in s.sessions then s' == s.(steps := s'.steps, results := s.results[rid := Failed])
      else if s.sessions[sessionId].userId != userId then
        s' == s.(steps := s'.steps, results := s.results[rid := Rejected])
      else RevokedThroughout(s, s', OfSession(sessionId), rid, Done)
  {
    hide Run, Apply, Driven, Goto, Finish, Inv, RevokedThroughout;
    var s, scope := Run(start, lifetime, events), OfSession(sessionId);
    Reached(start, lifetime, events);
    Started(s, rid, RevokeSession(userId, sessionId));
    var a, pc := Numbered(s), OwnerCheck(userId, sessionId);
    AtOwnerCheck(Sole(a, rid, pc), rid, userId, sessionId, "");
    DrivenOne(Sole(a, rid, pc), rid, "");
    SoleFinish(Numbered(a), rid, pc, Failed);
    SoleFinish(Numbered(a), rid, pc, Rejected);
    SoleGoto(Numbered(a), rid, pc, SweepMembers(scope, Requested));
    picks := [""];
    if sessionId in s.sessions && s.sessions[sessionId].userId == userId {
      var sweep := SweepFrom(s, Sole(Numbered(a), rid, SweepMembers(scope, Requested)), rid, scope, Requested, order);
      picks := [""] + sweep;
      DrivenConcat(Sole(a, rid, pc), rid, [""], sweep);
    }
  }
}
