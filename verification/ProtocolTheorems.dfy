/** What the invariant means for every run of the protocol, stated on runs from the empty store. */
module ProtocolTheorems {
  import opened Records
  import opened Protocol
  import opened ProtocolInvariants

  function Run(now: int, lifetime: int, events: seq<Event>): State {
    Exec(Init(now, lifetime), events)
  }

  lemma Reached(now: int, lifetime: int, events: seq<Event>)
    ensures Inv(Run(now, lifetime, events))
  {
    InitInv(now, lifetime);
    RunKeeps(Init(now, lifetime), events);
  }

  /** What a run can never undo about a stored token. */
  predicate Settled(s: State, s': State, token: Token) {
    && token in s.order && token in s'.order && s'.order[token] == s.order[token]
    && token in s.births && token in s'.births && s'.births[token] == s.births[token]
    && (!ActiveIn(s, token) ==> !ActiveIn(s', token))
    && (Spent(s, token) ==> Spent(s', token))
  }

  lemma {:induction false} RunSettles(s: State, events: seq<Event>, token: Token)
    requires Inv(s) && token in s.order
    ensures Settled(s, Exec(s, events), token)
  {
    hide Apply;
    if events == [] {
      assert Spent(s, token) || token in s.births;
    } else {
      var before := events[..|events| - 1];
      RunSettles(s, before, token);
      RunKeeps(s, before);
      ApplyKeeps(Exec(s, before), events[|events| - 1]);
      hide Inv;
      var actor :| Evolves(Exec(s, before), Exec(s, events), actor);
    }
  }

  lemma UsableUnspent(s: State, token: Token)
    requires Inv(s) && token in s.order
    ensures Usable(s, token) <==> !Spent(s, token)
  {
    hide IndexInv, MarksInv, RequestsInv;
    if !Spent(s, token) {
      assert token in s.tokens && Copy(s, token, s.tokens[token].record);
    }
    if Usable(s, token) {
      assert Copy(s, token, s.tokens[token].record);
    }
  }

  /**
   Every interleaving: a stored token that is not ACTIVE after `before` is not ACTIVE after any
   continuation, and whichever requests rewrite its record, from however stale a read, its user,
   session, creation and expiry stay what they were.
   */
  lemma LeftActiveForGood(now: int, lifetime: int, before: seq<Event>, after: seq<Event>, token: Token)
    requires token in Run(now, lifetime, before).order
    ensures
      var s := Run(now, lifetime, before);
      var s' := Run(now, lifetime, before + after);
      && (!ActiveIn(s, token) ==> !ActiveIn(s', token))
      && (token in s.tokens && token in s'.tokens ==>
            s'.tokens[token].record == s.tokens[token].record.(status := s'.tokens[token].record.status))
  {
    Reached(now, lifetime, before);
    Reached(now, lifetime, before + after);
    ExecConcat(Init(now, lifetime), before, after);
    RunSettles(Run(now, lifetime, before), after, token);
    hide IndexInv, MarksInv, RequestsInv, Spent;
  }

  /** Every interleaving: a REVOKED session stays REVOKED, and no session changes its user. */
  lemma {:induction false} RevokedForGood(s: State, events: seq<Event>, sessionId: Id)
    requires Inv(s) && sessionId in s.sessions
    ensures
      var s' := Exec(s, events);
      && sessionId in s'.sessions && s'.sessions[sessionId].userId == s.sessions[sessionId].userId
      && (s.sessions[sessionId].status == SessionRevoked ==> s'.sessions[sessionId].status == SessionRevoked)
  {
    hide Inv, Apply;
    if events != [] {
      var before := events[..|events| - 1];
      RevokedForGood(s, before, sessionId);
      RunKeeps(s, before);
      ApplyKeeps(Exec(s, before), events[|events| - 1]);
      var actor :| Evolves(Exec(s, before), Exec(s, events), actor);
    }
  }

  /**
   Every interleaving: once a sweep has got through its snapshot without an error, no token of
   the snapshot is usable, then or ever after, whatever other requests wrote meanwhile.
   */
  lemma SweptTokensUnusable(now: int, lifetime: int, before: seq<Event>, after: seq<Event>, rid: Rid)
    requires
      var s := Run(now, lifetime, before);
      rid in s.requests && s.requests[rid].RevokeRows?
    ensures forall t :: t in Run(now, lifetime, before).requests[rid].snapshot ==>
      !Usable(Run(now, lifetime, before), t) && !Usable(Run(now, lifetime, before + after), t)
  {
    var s := Run(now, lifetime, before);
    Reached(now, lifetime, before);
    Reached(now, lifetime, before + after);
    ExecConcat(Init(now, lifetime), before, after);
    assert PcInv(s, rid, s.requests[rid]);
    forall t | t in s.requests[rid].snapshot ensures !Usable(s, t) && !Usable(Run(now, lifetime, before + after), t) {
      assert Spent(s, t);
      RunSettles(s, after, t);
      UsableUnspent(s, t);
      UsableUnspent(Run(now, lifetime, before + after), t);
    }
  }

  /**
   Every interleaving: a key is never dropped before its token's expiry, so until then a GET
   finds the token, and finds it not ACTIVE if any refresh has ever marked it.
   */
  lemma KnownUntilExpiry(now: int, lifetime: int, events: seq<Event>, token: Token)
    requires var s := Run(now, lifetime, events); token in s.order && token in s.births
    requires var s := Run(now, lifetime, events); s.now < s.births[token].expiresAt
    ensures
      var s := Run(now, lifetime, events);
      var found := Lookup(s.tokens, s.now, token);
      && found.Some? && Matches(found.value, s.births[token])
      && (forall r :: r in s.marks && s.marks[r].token == token ==> found.value.status != Active)
  {
    Reached(now, lifetime, events);
    var s := Run(now, lifetime, events);
    hide IndexInv, RequestsInv, Exec;
    assert Copy(s, token, s.tokens[token].record);
    forall r | r in s.marks && s.marks[r].token == token ensures !ActiveIn(s, token) {
      assert MarkInv(s, r);
    }
  }

  /**
   Every interleaving: a refresh that succeeded had marked its token, and its token's expiry was
   still strictly ahead when UpdateStatus computed the time to live, although the refresh's own
   check lets an expiry equal to the clock through. Its new token belongs to the session and
   user of the old one, and was stored only after the old one had been marked.
   */
  lemma RefreshRotates(now: int, lifetime: int, events: seq<Event>, rid: Rid)
    requires var s := Run(now, lifetime, events); rid in s.results && s.results[rid].Refreshed?
    ensures
      var s := Run(now, lifetime, events);
      var next := s.results[rid].token;
      && rid in s.marks && next in s.births && next in s.order
      && s.marks[rid].token in s.births && s.marks[rid].token in s.order
      && s.marks[rid].ttlAt < s.births[s.marks[rid].token].expiresAt
      && s.births[next].userId == s.births[s.marks[rid].token].userId
      && s.births[next].sessionId == s.births[s.marks[rid].token].sessionId
      && s.order[s.marks[rid].token] < s.marks[rid].markAt < s.order[next]
  {
    Reached(now, lifetime, events);
    var s := Run(now, lifetime, events);
    hide StoreInv, IndexInv, RequestsInv, Exec;
    assert Rotated(s, rid, s.results[rid].token);
    assert MarkInv(s, rid);
  }

  /**
   Every interleaving: if two refreshes of one token both succeed, each had read the token
   before the other wrote its mark.
   */
  lemma DoubleRedemptionOverlaps(now: int, lifetime: int, events: seq<Event>, r: Rid, q: Rid)
    requires r != q
    requires
      var s := Run(now, lifetime, events);
      && r in s.results && s.results[r].Refreshed? && q in s.results && s.results[q].Refreshed?
      && r in s.marks && q in s.marks && s.marks[r].token == s.marks[q].token
    ensures
      var s := Run(now, lifetime, events);
      s.marks[r].readAt < s.marks[q].markAt && s.marks[q].readAt < s.marks[r].markAt
  {
    Reached(now, lifetime, events);
    hide StoreInv, IndexInv, RequestsInv, Exec;
  }

  /**
   Every interleaving: the indexes name exactly the tokens ever stored for a user or session,
   a token that is still stored names that user and session, and the user of a token owns the
   token's session.
   */
  lemma IndexesExact(now: int, lifetime: int, events: seq<Event>, token: Token, userId: Id, sessionId: Id)
    ensures
      var s := Run(now, lifetime, events);
      && (token in s.tokens ==>
            var record := s.tokens[token].record;
            && (token in Members(s.userIndex, userId) <==> userId == record.userId)
            && (token in Members(s.sessionIndex, sessionId) <==> sessionId == record.sessionId)
            && Owned(s, record.sessionId, record.userId))
      && (token in Members(s.sessionIndex, sessionId) && token in Members(s.userIndex, userId) ==>
            Owned(s, sessionId, userId))
  {
    Reached(now, lifetime, events);
    var s := Run(now, lifetime, events);
    hide MarksInv, RequestsInv, Exec;
    if token in s.tokens {
      assert Copy(s, token, s.tokens[token].record);
    }
  }
}
