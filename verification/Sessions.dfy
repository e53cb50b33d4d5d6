/** PostgresSessionRepository over the shared store: each method is one SQL statement. */
module Sessions {
  import opened Options
  import opened Records
  import opened Protocol
  import opened ProtocolSteps
  import opened ProtocolTheorems
  import opened SerialRuns
  import opened Stores

  /** The session rows are now `rows`; time may have passed, and nothing else has changed. */
  predicate RowsBecome(s: State, s': State, rows: map<Id, Session>) {
    && s'.sessions == rows && s'.tokens == s.tokens && s'.userIndex == s.userIndex && s'.sessionIndex == s.sessionIndex
    && s'.births == s.births && s'.order == s.order && s'.lifetime == s.lifetime && s.now <= s'.now
  }

  lemma LoginInsertMoves(s: State, rid: Rid, row: Session, id: Id)
    requires Busy(s, rid, LoginInsert(row)) && id !in s.sessions
    ensures
      var s' := Apply(s, Do(rid, id));
      RowsBecome(s, s', s.sessions[id := row]) && s'.now == s.now && Busy(s', rid, Mint(row.userId, id, FromLogin))
  {
    hide Apply, Goto;
    AtLoginInsert(s, rid, row, id);
    GotoBusy(Numbered(s).(sessions := s.sessions[id := row]), rid, Mint(row.userId, id, FromLogin));
  }

  lemma RevokeRowsMoves(s: State, rid: Rid, scope: Scope, reason: Reason, snapshot: set<Token>)
    requires Busy(s, rid, RevokeRows(scope, reason, snapshot))
    ensures
      var s' := Apply(s, Do(rid, ""));
      && RowsBecome(s, s', RowsAfter(s.sessions, scope)) && s'.now == s.now
      && Ended(s', rid, if reason == Reuse then ReuseDetected else Done) && Alone(s', rid)
  {
    hide Apply, Finish, RowsAfter;
    AtRevokeRows(s, rid, scope, reason, snapshot, "");
    var revoked := Numbered(s).(sessions := RowsAfter(s.sessions, scope));
    FinishEnds(revoked, rid, if reason == Reuse then ReuseDetected else Done);
  }

  lemma TouchStampMoves(s: State, rid: Rid, sessionId: Id, renewed: Token)
    requires Busy(s, rid, TouchStamp(sessionId, renewed))
    ensures Moved(s, Apply(s, Do(rid, "")), rid, Touch(sessionId, s.now, renewed))
  {
    hide Apply, Goto;
    AtTouchStamp(s, rid, sessionId, renewed, "");
    GotoMoves(s, rid, Touch(sessionId, s.now, renewed));
  }

  lemma TouchMoves(s: State, rid: Rid, sessionId: Id, at: int, renewed: Token)
    requires Busy(s, rid, Touch(sessionId, at, renewed))
    ensures
      var s' := Apply(s, Do(rid, ""));
      && RowsBecome(s, s', TouchRow(s.sessions, sessionId, at)) && s'.now == s.now
      && Ended(s', rid, Refreshed(renewed)) && Alone(s', rid)
  {
    hide Apply, Finish, TouchRow;
    AtTouch(s, rid, sessionId, at, renewed, "");
    FinishEnds(Numbered(s).(sessions := TouchRow(s.sessions, sessionId, at)), rid, Refreshed(renewed));
  }

  lemma OwnerCheckMoves(s: State, rid: Rid, userId: Id, sessionId: Id)
    requires Busy(s, rid, OwnerCheck(userId, sessionId))
    ensures
      var s' := Apply(s, Do(rid, ""));
      && SameData(s, s') && Alone(s', rid)
      && (if sessionId !in s.sessions then Ended(s', rid, Failed)
          else if s.sessions[sessionId].userId != userId then Ended(s', rid, Rejected)
          else Busy(s', rid, SweepMembers(OfSession(sessionId), Requested)))
  {
    hide Apply, Goto, Finish;
    AtOwnerCheck(s, rid, userId, sessionId, "");
    GotoBusy(Numbered(s), rid, SweepMembers(OfSession(sessionId), Requested));
    FinishEnds(Numbered(s), rid, Failed);
    FinishEnds(Numbered(s), rid, Rejected);
  }

  lemma {:induction false} NewestOf(rows: map<Id, Session>, ids: set<Id>) returns (id: Id)
    requires ids <= rows.Keys && ids != {}
    ensures id in ids && forall j :: j in ids ==> rows[j].createdAt <= rows[id].createdAt
  {
    var any :| any in ids;
    id := any;
    if ids - {any} != {} {
      var best := NewestOf(rows, ids - {any});
      id := if rows[any].createdAt < rows[best].createdAt then best else any;
      forall j | j in ids ensures rows[j].createdAt <= rows[id].createdAt {
        assert j == any || j in ids - {any};
      }
    } else {
      assert ids == {any};
    }
  }

  ghost predicate Lists(list: seq<(Id, Session)>, id: Id) {
    exists i :: 0 <= i < |list| && list[i].0 == id
  }

  /** The rows of the user, and no others, as they are. */
  ghost predicate ListsExactly(list: seq<(Id, Session)>, rows: map<Id, Session>, userId: Id) {
    && (forall id :: Lists(list, id) <==> id in rows && rows[id].userId == userId)
    && (forall i :: 0 <= i < |list| ==> list[i].0 in rows && list[i].1 == rows[list[i].0])
  }

  ghost predicate NewestFirst(list: seq<(Id, Session)>) {
    forall i, j :: 0 <= i < j < |list| ==> list[i].0 != list[j].0 && list[i].1.createdAt >= list[j].1.createdAt
  }

  lemma ListsMore(list: seq<(Id, Session)>, row: (Id, Session))
    ensures forall id :: Lists(list + [row], id) <==> Lists(list, id) || id == row.0
  {
    forall id ensures Lists(list + [row], id) <==> Lists(list, id) || id == row.0 {
      if Lists(list, id) {
        var i :| 0 <= i < |list| && list[i].0 == id;
        assert (list + [row])[i].0 == id;
      }
      if id == row.0 {
        assert (list + [row])[|list|].0 == id;
      }
    }
  }

  class SessionRepository {
    const store: Store

    constructor (store: Store)
      ensures this.store == store
    {
      this.store := store;
    }

    /** INSERT INTO sessions */
    method Create(id: Id, row: Session, ghost rid: Rid) returns (ok: bool)
      requires store.Valid() && Busy(store.state, rid, LoginInsert(row)) && id !in store.sessions && id != ""
      modifies store
      ensures store.Valid() && store.Continues(rid) && Alone(store.state, rid)
      ensures ok ==> Busy(store.state, rid, Mint(row.userId, id, FromLogin)) && id in store.sessions
      ensures
        || RowsBecome(old(store.state), store.state, old(store.sessions)[id := row])
        || (!ok && Aged(old(store.state), store.state))
      ensures store.env.sound ==> ok
    {
      hide Apply, Run, SerialRun, GuardedRun;
      store.Pass(rid);
      var lost := store.env.Fails();
      var unanswered := store.env.Fails();
      if lost {
        return false;
      }
      store.sessions := store.sessions[id := row];
      LoginInsertMoves(store.state, rid, row, id);
      store.Record(Do(rid, id));
      return !unanswered;
    }

    /** UPDATE sessions SET status = 'REVOKED' WHERE id = $1, the last step of a logout. */
    method UpdateStatus(sessionId: Id, ghost rid: Rid, ghost snapshot: set<Token>) returns (ok: bool)
      requires store.Valid() && Busy(store.state, rid, RevokeRows(OfSession(sessionId), Requested, snapshot))
      modifies store
      ensures store.Valid() && store.Continues(rid) && Alone(store.state, rid)
      ensures ok ==> Ended(store.state, rid, Done)
      ensures
        || RowsBecome(old(store.state), store.state, RevokeRow(old(store.sessions), sessionId))
        || (!ok && Aged(old(store.state), store.state))
      ensures store.env.sound ==> ok
    {
      hide Apply, Run, SerialRun, GuardedRun;
      store.Pass(rid);
      var lost := store.env.Fails();
      var unanswered := store.env.Fails();
      if lost {
        return false;
      }
      if sessionId in store.sessions {
        store.sessions := store.sessions[sessionId := store.sessions[sessionId].(status := SessionRevoked)];
      }
      RevokeRowsMoves(store.state, rid, OfSession(sessionId), Requested, snapshot);
      store.Record(Do(rid, ""));
      return !unanswered;
    }

    /** UPDATE sessions SET status = 'REVOKED' WHERE user_id = $1 AND status = 'ACTIVE' */
    method RevokeAllByUserID(userId: Id, ghost rid: Rid, ghost reason: Reason, ghost snapshot: set<Token>)
      returns (ok: bool)
      requires store.Valid() && Busy(store.state, rid, RevokeRows(OfUser(userId), reason, snapshot))
      modifies store
      ensures store.Valid() && store.Continues(rid) && Alone(store.state, rid)
      ensures ok ==> Ended(store.state, rid, if reason == Reuse then ReuseDetected else Done)
      ensures
        || RowsBecome(old(store.state), store.state, RevokeRowsOf(old(store.sessions), userId))
        || (!ok && Aged(old(store.state), store.state))
      ensures store.env.sound ==> ok
    {
      hide Apply, Run, SerialRun, GuardedRun;
      store.Pass(rid);
      var lost := store.env.Fails();
      var unanswered := store.env.Fails();
      if lost {
        return false;
      }
      store.sessions := RevokeRowsOf(store.sessions, userId);
      RevokeRowsMoves(store.state, rid, OfUser(userId), reason, snapshot);
      store.Record(Do(rid, ""));
      return !unanswered;
    }

    /** UPDATE sessions SET last_used_at = $1 WHERE id = $2, with the clock read just before. */
    method UpdateLastUsedAt(sessionId: Id, ghost rid: Rid, ghost renewed: Token) returns (ok: bool, at: int)
      requires store.Valid() && Busy(store.state, rid, TouchStamp(sessionId, renewed))
      modifies store
      ensures store.Valid() && store.Continues(rid) && Alone(store.state, rid)
      ensures ok ==> Ended(store.state, rid, Refreshed(renewed))
      ensures old(store.now) <= at <= store.now
      ensures
        || RowsBecome(old(store.state), store.state, TouchRow(old(store.sessions), sessionId, at))
        || (!ok && RowsBecome(old(store.state), store.state, old(store.sessions)))
      ensures store.env.sound ==> ok
    {
      hide Apply, Run, SerialRun, GuardedRun;
      store.Pass(rid);
      at := store.now;
      TouchStampMoves(store.state, rid, sessionId, renewed);
      store.Record(Do(rid, ""));
      ok := Touched(sessionId, at, rid, renewed);
    }

    method Touched(sessionId: Id, at: int, ghost rid: Rid, ghost renewed: Token) returns (ok: bool)
      requires store.Valid() && Busy(store.state, rid, Touch(sessionId, at, renewed))
      modifies store
      ensures store.Valid() && store.Continues(rid) && Alone(store.state, rid)
      ensures ok ==> Ended(store.state, rid, Refreshed(renewed))
      ensures
        || RowsBecome(old(store.state), store.state, TouchRow(old(store.sessions), sessionId, at))
        || (!ok && Aged(old(store.state), store.state))
      ensures store.env.sound ==> ok
    {
      hide Apply, Run, SerialRun, GuardedRun;
      store.Pass(rid);
      var lost := store.env.Fails();
      var unanswered := store.env.Fails();
      if lost {
        return false;
      }
      if sessionId in store.sessions {
        store.sessions := store.sessions[sessionId := store.sessions[sessionId].(lastUsedAt := at)];
      }
      TouchMoves(store.state, rid, sessionId, at, renewed);
      store.Record(Do(rid, ""));
      return !unanswered;
    }

    /** SELECT ... WHERE id = $1, and the ownership check that follows it in RevokeSession. */
    method FindByID(sessionId: Id, ghost rid: Rid, ghost userId: Id) returns (reply: Reply<Session>)
      requires store.Valid() && Busy(store.state, rid, OwnerCheck(userId, sessionId))
      modifies store
      ensures store.Valid() && store.Continues(rid) && Alone(store.state, rid)
      ensures RowsBecome(old(store.state), store.state, old(store.sessions))
      ensures reply.NotFound? ==> sessionId !in store.sessions && Ended(store.state, rid, Failed)
      ensures reply.Answer? ==>
        && sessionId in store.sessions && store.sessions[sessionId] == reply.value
        && (if reply.value.userId != userId then Ended(store.state, rid, Rejected)
            else Busy(store.state, rid, SweepMembers(OfSession(sessionId), Requested)))
      ensures store.env.sound ==> !reply.Fault?
    {
      hide Apply, Run, SerialRun, GuardedRun;
      store.Pass(rid);
      var failed := store.env.Fails();
      if failed {
        return Fault;
      }
      OwnerCheckMoves(store.state, rid, userId, sessionId);
      store.Record(Do(rid, ""));
      return if sessionId in store.sessions then Answer(store.sessions[sessionId]) else NotFound;
    }

    /** The user's rows, each once, the newest first, unless the query fails. */
    method ListByUserID(userId: Id) returns (reply: Reply<seq<(Id, Session)>>)
      ensures !reply.NotFound?
      ensures reply.Answer? ==> ListsExactly(reply.value, store.sessions, userId) && NewestFirst(reply.value)
      ensures store.env.sound ==> !reply.Fault?
    {
      var failed := store.env.Fails();
      if failed {
        return Fault;
      }
      var rows := store.sessions;
      var left := set id | id in rows && rows[id].userId == userId;
      var list: seq<(Id, Session)> := [];
      while left != {}
        invariant forall id :: id in left || Lists(list, id) <==> id in rows && rows[id].userId == userId
        invariant forall id :: id in left ==> !Lists(list, id)
        invariant forall i :: 0 <= i < |list| ==> list[i].0 in rows && list[i].1 == rows[list[i].0]
        invariant forall i, id :: 0 <= i < |list| && id in left ==> list[i].1.createdAt >= rows[id].createdAt
        invariant NewestFirst(list)
      {
        ghost var newest := NewestOf(rows, left);
        var id :| id in left && forall j :: j in left ==> rows[j].createdAt <= rows[id].createdAt;
        ListsMore(list, (id, rows[id]));
        list := list + [(id, rows[id])];
        left := left - {id};
      }
      return Answer(list);
    }
  }
}
