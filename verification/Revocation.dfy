/**
 What the sweeps mean on a store that a run of the protocol has left: they reach exactly the
 tokens of their user or session, and revoking a user's sessions one by one comes to the same as
 one LogoutAll.
 */
module Revocation {
  import opened Records
  import opened Protocol
  import opened ProtocolInvariants
  import opened ProtocolTheorems
  import opened OneActiveToken
  import opened SerialRuns
  import opened SerialTheorems
  import opened Stores
  import opened Sweeps

  /** The members of an index that are still stored are the tokens that belong there. */
  lemma MembersExact(s: State, scope: Scope, token: Token)
    requires Inv(s) && token in s.tokens
    ensures
      var record := s.tokens[token].record;
      && (token in ScopeMembers(s, scope) <==> Concerns(scope, record.userId, record.sessionId))
      && Owned(s, record.sessionId, record.userId)
  {
    hide MarksInv, RequestsInv;
    assert Copy(s, token, s.tokens[token].record);
  }

  /**
   A completed sweep leaves no usable token in its scope, and every other token, of other users
   or other sessions, exactly as it was.
   */
  lemma SweepReachesScope(store: Store, before: map<Token, Entry>, scope: Scope)
    requires store.Valid() && Swept(before, store.tokens, ScopeMembers(store.state, scope), store.now)
    ensures forall t :: t in store.tokens ==>
      var record := store.tokens[t].record;
      if Concerns(scope, record.userId, record.sessionId) then !Usable(store.state, t)
      else t in before && store.tokens[t] == before[t]
  {
    hide Inv, Run, SerialRun;
    Reached(store.start, store.lifetime, store.trace);
    forall t | t in store.tokens
      ensures
        var record := store.tokens[t].record;
        if Concerns(scope, record.userId, record.sessionId) then !Usable(store.state, t)
        else t in before && store.tokens[t] == before[t]
    {
      MembersExact(store.state, scope, t);
      assert t in before && RevokedOrSame(before[t].record, store.tokens[t].record);
    }
  }

  // ---- what holds after any sequence of calls ----

  /** Whatever was called, and wherever it stopped: no two ACTIVE tokens of one session. */
  lemma OneActivePerSession(store: Store, t: Token, u: Token)
    requires store.Valid() && t in store.tokens && u in store.tokens
    requires store.tokens[t].record.status == Active && store.tokens[u].record.status == Active
    requires store.tokens[t].record.sessionId == store.tokens[u].record.sessionId
    ensures t == u
  {
    hide Inv, Run, SerialRun;
    SerialRotation(store.start, store.lifetime, store.trace, store.tokens[t].record.sessionId);
    var s := store.state;
    var active := ActiveTokens(s, store.tokens[t].record.sessionId);
    ActiveHere(store, t);
    ActiveHere(store, u);
    if t != u {
      assert {t, u} <= active;
      SubsetSize({t, u}, active);
    }
  }

  lemma ActiveHere(store: Store, t: Token)
    requires store.Valid() && t in store.tokens && store.tokens[t].record.status == Active
    ensures t in ActiveTokens(store.state, store.tokens[t].record.sessionId)
  {
    hide IndexInv, MarksInv, RequestsInv, Run, SerialRun;
    Reached(store.start, store.lifetime, store.trace);
    assert Copy(store.state, t, store.tokens[t].record);
  }

  lemma {:induction false} SubsetSize<T>(a: set<T>, b: set<T>)
    requires a <= b
    ensures |a| <= |b|
  {
    if a != {} {
      var x :| x in a;
      SubsetSize(a - {x}, b - {x});
    }
  }

  /** If every logout so far was presentable: a REVOKED session has no usable token. */
  lemma RevokedSessionUnusable(store: Store, t: Token)
    requires store.Valid() && store.Guarded() && t in store.tokens
    requires
      var id := store.tokens[t].record.sessionId;
      id in store.sessions && store.sessions[id].status == SessionRevoked
    ensures !Usable(store.state, t)
  {
    hide Inv, Run, SerialRun, GuardedRun;
    var id := store.tokens[t].record.sessionId;
    Reached(store.start, store.lifetime, store.trace);
    MembersExact(store.state, OfSession(id), t);
    assert store.trace + [] == store.trace;
    RevokedSessionDead(store.start, store.lifetime, store.trace, [], id);
  }

  // ---- one by one, or all at once ----

  /** The store between two revocations. */
  datatype Snapshot = Snapshot(tokens: map<Token, Entry>, sessions: map<Id, Session>, now: int)

  /** The effect of one completed RevokeSession, as its contract states it. */
  ghost predicate RevokedOne(a: Snapshot, b: Snapshot, sessionIndex: map<Id, set<Token>>, sessionId: Id) {
    && a.now <= b.now && Swept(a.tokens, b.tokens, Members(sessionIndex, sessionId), b.now)
    && SessionRowRevoked(a.sessions, b.sessions, sessionId)
  }

  /** Completed calls of RevokeSession, one for each of `ids`, with the store between them. */
  ghost predicate RevokedInTurn(path: seq<Snapshot>, sessionIndex: map<Id, set<Token>>, ids: seq<Id>) {
    && |path| == |ids| + 1
    && forall i, j :: 0 <= i && j == i + 1 < |path| ==> RevokedOne(path[i], path[j], sessionIndex, ids[i])
  }

  /** The effect of one completed LogoutAll, as its contract states it. */
  ghost predicate RevokedAll(a: Snapshot, b: Snapshot, userIndex: map<Id, set<Token>>, userId: Id) {
    && a.now <= b.now && Swept(a.tokens, b.tokens, Members(userIndex, userId), b.now)
    && UserRowsRevoked(a.sessions, b.sessions, userId)
  }

  function Union(index: map<Id, set<Token>>, ids: seq<Id>): set<Token> {
    if ids == [] then {} else Union(index, ids[..|ids| - 1]) + Members(index, ids[|ids| - 1])
  }

  lemma {:induction false} UnionHas(index: map<Id, set<Token>>, ids: seq<Id>, token: Token)
    ensures token in Union(index, ids) <==> exists id :: id in ids && token in Members(index, id)
  {
    if ids != [] {
      var n := |ids| - 1;
      UnionHas(index, ids[..n], token);
      assert forall id :: id in ids <==> id in ids[..n] || id == ids[n];
    }
  }

  lemma SweptTwice(
      a: map<Token, Entry>, b: map<Token, Entry>, c: map<Token, Entry>,
      first: set<Token>, second: set<Token>, at: int, now: int)
    requires Swept(a, b, first, at) && Swept(b, c, second, now) && at <= now
    ensures Swept(a, c, first + second, now)
  {
    forall t | t in a
      ensures RevokedOrSame(a[t].record, c[t].record)
      ensures t in first + second && now < a[t].record.expiresAt ==> c[t].record.status == Revoked
    {
      assert RevokedOrSame(a[t].record, b[t].record) && RevokedOrSame(b[t].record, c[t].record);
    }
  }

  lemma {:induction false} SweptInTurn(path: seq<Snapshot>, index: map<Id, set<Token>>, ids: seq<Id>)
    requires RevokedInTurn(path, index, ids)
    ensures var a, z := path[0], path[|path| - 1]; Swept(a.tokens, z.tokens, Union(index, ids), z.now)
  {
    if ids == [] {
      SweptNone(path[0].tokens, path[0].now);
    } else {
      var n := |ids| - 1;
      SweptInTurn(path[..n + 1], index, ids[..n]);
      assert RevokedOne(path[n], path[n + 1], index, ids[n]);
      SweptTwice(path[0].tokens, path[n].tokens, path[n + 1].tokens,
                 Union(index, ids[..n]), Members(index, ids[n]), path[n].now, path[n + 1].now);
    }
  }

  function RevokedRows(sessions: map<Id, Session>, ids: seq<Id>): map<Id, Session> {
    map id | id in sessions :: if id in ids then sessions[id].(status := SessionRevoked) else sessions[id]
  }

  lemma {:induction false} RowsInTurn(path: seq<Snapshot>, index: map<Id, set<Token>>, ids: seq<Id>)
    requires RevokedInTurn(path, index, ids)
    ensures path[|path| - 1].sessions == RevokedRows(path[0].sessions, ids)
  {
    if ids != [] {
      var n := |ids| - 1;
      RowsInTurn(path[..n + 1], index, ids[..n]);
      assert RevokedOne(path[n], path[n + 1], index, ids[n]);
      hide RevokedInTurn, RevokedOne;
      assert forall id :: id in ids <==> id in ids[..n] || id == ids[n];
    }
  }

  /** Revoking the rows of all sessions of a user, or all rows of the user. */
  lemma RowsAgree(sessions: map<Id, Session>, after: map<Id, Session>, userId: Id, ids: seq<Id>)
    requires forall id :: id in ids <==> id in sessions && sessions[id].userId == userId
    requires UserRowsRevoked(sessions, after, userId)
    ensures RevokedRows(sessions, ids) == after
  {
  }

  /** After a run, the session indexes of a user's sessions partition the user's index. */
  lemma IndexesPartition(s: State, userId: Id, ids: seq<Id>, token: Token)
    requires Inv(s) && token in s.tokens
    requires forall id :: id in ids <==> id in s.sessions && s.sessions[id].userId == userId
    ensures token in Union(s.sessionIndex, ids) <==> token in Members(s.userIndex, userId)
    ensures forall i, j :: token in Members(s.sessionIndex, i) && token in Members(s.sessionIndex, j) ==> i == j
  {
    hide Inv;
    var record := s.tokens[token].record;
    UnionHas(s.sessionIndex, ids, token);
    MembersExact(s, OfUser(userId), token);
    forall i ensures token in Members(s.sessionIndex, i) <==> i == record.sessionId {
      MembersExact(s, OfSession(i), token);
    }
  }

  lemma SameRecord(
      s: State, userId: Id, ids: seq<Id>, end: map<Token, Entry>, all: map<Token, Entry>, at: int, now: int, t: Token)
    requires Inv(s) && (forall id :: id in ids <==> id in s.sessions && s.sessions[id].userId == userId)
    requires Swept(s.tokens, end, Union(s.sessionIndex, ids), at)
    requires Swept(s.tokens, all, Members(s.userIndex, userId), now)
    requires t in s.tokens && at < s.tokens[t].record.expiresAt && now < s.tokens[t].record.expiresAt
    ensures end[t].record == all[t].record
  {
    hide Inv, Union, Members;
    IndexesPartition(s, userId, ids, t);
    assert RevokedOrSame(s.tokens[t].record, end[t].record) && RevokedOrSame(s.tokens[t].record, all[t].record);
  }

  /**
   After any run, serial or not: revoking every session of a user one by one, in any order and
   with any pauses, ends in the same session rows as one LogoutAll, and in the same record of
   every token that has not expired by the end of either.
   */
  lemma OneByOneIsLogoutAll(
      start: int, lifetime: int, events: seq<Event>, userId: Id, ids: seq<Id>, path: seq<Snapshot>, all: Snapshot)
    requires
      var s := Run(start, lifetime, events);
      && (forall id :: id in ids <==> id in s.sessions && s.sessions[id].userId == userId)
      && RevokedInTurn(path, s.sessionIndex, ids) && path[0] == Snapshot(s.tokens, s.sessions, s.now)
      && RevokedAll(path[0], all, s.userIndex, userId)
    ensures
      var s := Run(start, lifetime, events);
      var end := path[|path| - 1];
      && end.sessions == all.sessions && end.tokens.Keys == all.tokens.Keys == s.tokens.Keys
      && forall t ::
           t in s.tokens && end.now < s.tokens[t].record.expiresAt && all.now < s.tokens[t].record.expiresAt ==>
             end.tokens[t].record == all.tokens[t].record
  {
    var s := Run(start, lifetime, events);
    var end := path[|path| - 1];
    Reached(start, lifetime, events);
    SweptInTurn(path, s.sessionIndex, ids);
    RowsInTurn(path, s.sessionIndex, ids);
    RowsAgree(s.sessions, all.sessions, userId, ids);
    assert end.tokens.Keys == all.tokens.Keys == s.tokens.Keys;
    hide Inv, Run, RevokedInTurn, Union, Members, Swept;
    forall t | t in s.tokens && end.now < s.tokens[t].record.expiresAt && all.now < s.tokens[t].record.expiresAt
      ensures end.tokens[t].record == all.tokens[t].record
    {
      SameRecord(s, userId, ids, end.tokens, all.tokens, end.now, all.now, t);
    }
  }
}
