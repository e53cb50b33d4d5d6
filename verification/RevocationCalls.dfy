/**
 The comparison of `Revocation` on the calls themselves: one service revokes a user's sessions in
 turn, another with the same history logs the user out everywhere.
 */
module RevocationCalls {
  import opened Fresh
  import opened Records
  import opened Strings
  import opened Protocol
  import opened ProtocolTheorems
  import opened Stores
  import opened Sweeps
  import opened Revocation
  import opened AuthService

  ghost function Shot(store: Store): Snapshot
    reads store
  {
    Snapshot(store.tokens, store.sessions, store.now)
  }

  /** Ids as they are stored: not empty, and trimmed. */
  predicate Clean(id: Id) {
    id != "" && TrimSpace(id) == id
  }

  lemma TurnTaken(path: seq<Snapshot>, index: map<Id, set<Token>>, ids: seq<Id>, next: Snapshot, id: Id)
    requires RevokedInTurn(path, index, ids) && RevokedOne(path[|path| - 1], next, index, id)
    ensures RevokedInTurn(path + [next], index, ids + [id])
  {
    hide RevokedOne;
  }

  lemma TurnIs(a: Snapshot, b: Snapshot, index: map<Id, set<Token>>, id: Id)
    requires a.now <= b.now && Swept(a.tokens, b.tokens, Members(index, id), b.now)
    requires SessionRowRevoked(a.sessions, b.sessions, id)
    ensures RevokedOne(a, b, index, id)
  {
  }

  /** One RevokeSession. */
  method RevokeNext(service: AuthService, userId: Id, id: Id) returns (ok: bool)
    requires service.Valid() && Clean(userId) && Clean(id)
    modifies service.store
    ensures service.Valid() && service.store.sessionIndex == old(service.store.sessionIndex)
    ensures ok ==> RevokedOne(old(Shot(service.store)), Shot(service.store), service.store.sessionIndex, id)
  {
    hide RevokedOne, PartlySwept, SessionRowRevoked, Run, TrimSpace;
    ghost var before := Shot(service.store);
    ghost var rid := FreshNat(service.store.state.results.Keys);
    var outcome := service.RevokeSession(userId, id, rid);
    ok := outcome == Done;
    if ok {
      TurnIs(before, Shot(service.store), service.store.sessionIndex, id);
    }
  }

  /** RevokeSession for each of `ids`, until one fails. */
  method RevokeInTurn(service: AuthService, userId: Id, ids: seq<Id>) returns (ok: bool, ghost path: seq<Snapshot>)
    requires service.Valid() && Clean(userId) && forall id :: id in ids ==> Clean(id)
    modifies service.store
    ensures service.Valid()
    ensures ok ==>
      && RevokedInTurn(path, old(service.store.sessionIndex), ids)
      && path[0] == old(Shot(service.store)) && path[|path| - 1] == Shot(service.store)
  {
    hide RevokedOne;
    path := [Shot(service.store)];
    var i := 0;
    while i < |ids|
      invariant 0 <= i <= |ids| && service.Valid()
      invariant service.store.sessionIndex == old(service.store.sessionIndex)
      invariant RevokedInTurn(path, old(service.store.sessionIndex), ids[..i])
      invariant path[0] == old(Shot(service.store)) && path[|path| - 1] == Shot(service.store)
    {
      ok := RevokeNext(service, userId, ids[i]);
      if !ok {
        return;
      }
      TurnTaken(path, service.store.sessionIndex, ids[..i], Shot(service.store), ids[i]);
      assert ids[..i + 1] == ids[..i] + [ids[i]];
      path := path + [Shot(service.store)];
      i := i + 1;
    }
    assert ids[..|ids|] == ids;
    ok := true;
  }

  /**
   Two services with the same history: one revokes the sessions of a user one by one, in any
   order, the other logs the user out everywhere. If all calls succeed, both end with the same
   session rows and with the same record of every token that has expired in neither.
   */
  method OneByOneOrAtOnce(each: AuthService, all: AuthService, userId: Id, ids: seq<Id>) returns (ok: bool)
    requires each.Valid() && all.Valid() && each.store != all.store
    requires each.store.start == all.store.start && each.store.lifetime == all.store.lifetime
    requires each.store.trace == all.store.trace
    requires Clean(userId) && forall id :: id in ids ==> Clean(id)
    requires forall id :: id in ids <==> id in each.store.sessions && each.store.sessions[id].userId == userId
    modifies each.store, all.store
    ensures each.Valid() && all.Valid()
    ensures ok ==>
      && each.store.sessions == all.store.sessions
      && each.store.tokens.Keys == all.store.tokens.Keys == old(each.store.tokens).Keys
      && forall t :: t in each.store.tokens ==>
           var expiresAt := old(each.store.tokens)[t].record.expiresAt;
           each.store.now < expiresAt && all.store.now < expiresAt ==>
             each.store.tokens[t].record == all.store.tokens[t].record
  {
    hide RevokedOne, RevokedInTurn, Swept, PartlySwept, UserRowsRevoked, Run, TrimSpace;
    ghost var start, lifetime, trace := each.store.start, each.store.lifetime, each.store.trace;
    assert Shot(each.store) == Shot(all.store) && each.store.userIndex == all.store.userIndex;
    ghost var before := Shot(all.store);
    ghost var path;
    ok, path := RevokeInTurn(each, userId, ids);
    ghost var rid := FreshNat(all.store.state.results.Keys);
    var outcome := all.LogoutAll(userId, rid);
    ok := ok && outcome == Done;
    if ok {
      AllIs(before, Shot(all.store), all.store.userIndex, userId);
      OneByOneIsLogoutAll(start, lifetime, trace, userId, ids, path, Shot(all.store));
    }
  }

  lemma AllIs(a: Snapshot, b: Snapshot, index: map<Id, set<Token>>, userId: Id)
    requires a.now <= b.now && Swept(a.tokens, b.tokens, Members(index, userId), b.now)
    requires UserRowsRevoked(a.sessions, b.sessions, userId)
    ensures RevokedAll(a, b, index, userId)
  {
  }
}
