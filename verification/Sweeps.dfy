/**
 What a sweep leaves of the tokens, stated as one scan of the token map: every member that has
 not expired is REVOKED, and nothing else changes.
 */
module Sweeps {
  import opened Records

  /** `token` is rewritten with another status, and nothing else. */
  predicate Rewritten(before: map<Token, Entry>, after: map<Token, Entry>, token: Token, status: TokenStatus) {
    && token in before && token in after
    && after == before[token := Entry(before[token].record.(status := status), after[token].deadline)]
    && before[token].record.expiresAt <= after[token].deadline
  }

  /** A key outlives its token. */
  predicate Lasting(tokens: map<Token, Entry>) {
    forall t :: t in tokens ==> tokens[t].record.expiresAt <= tokens[t].deadline
  }

  predicate RevokedOrSame(before: Record, after: Record) {
    after == before || after == before.(status := Revoked)
  }

  /** Some members may have been revoked, and nothing else has changed. */
  predicate PartlySwept(before: map<Token, Entry>, after: map<Token, Entry>, members: set<Token>) {
    && after.Keys == before.Keys
    && (forall t :: t in before && t !in members ==> after[t] == before[t])
    && (forall t :: t in before ==> RevokedOrSame(before[t].record, after[t].record))
  }

  /** Also, every member still unexpired at `now` is REVOKED. */
  predicate Swept(before: map<Token, Entry>, after: map<Token, Entry>, members: set<Token>, now: int) {
    && PartlySwept(before, after, members)
    && forall t :: t in before && t in members && now < before[t].record.expiresAt ==> after[t].record.status == Revoked
  }

  lemma SweptNone(tokens: map<Token, Entry>, now: int)
    ensures Swept(tokens, tokens, {}, now)
  {
  }

  /** One more member dealt with. */
  lemma SweptOneMore(
      before: map<Token, Entry>, mid: map<Token, Entry>, after: map<Token, Entry>,
      done: set<Token>, token: Token, at: int, now: int)
    requires Swept(before, mid, done, at) && at <= now
    requires mid == after || Rewritten(mid, after, token, Revoked)
    requires token in after && now < after[token].record.expiresAt ==> after[token].record.status == Revoked
    ensures Swept(before, after, done + {token}, now)
  {
    forall t | t in before ensures RevokedOrSame(before[t].record, after[t].record) {
      assert RevokedOrSame(before[t].record, mid[t].record);
    }
  }

  lemma PartlySweptOneMore(
      before: map<Token, Entry>, mid: map<Token, Entry>, after: map<Token, Entry>, members: set<Token>, token: Token)
    requires PartlySwept(before, mid, members) && token in members
    requires mid == after || Rewritten(mid, after, token, Revoked)
    ensures PartlySwept(before, after, members)
  {
    forall t | t in before ensures RevokedOrSame(before[t].record, after[t].record) {
      assert RevokedOrSame(before[t].record, mid[t].record);
    }
  }

  lemma PartlySweptMore(before: map<Token, Entry>, after: map<Token, Entry>, some: set<Token>, members: set<Token>)
    requires PartlySwept(before, after, some) && some <= members
    ensures PartlySwept(before, after, members)
  {
  }

  lemma PartlySweptSame(tokens: map<Token, Entry>, members: set<Token>)
    ensures PartlySwept(tokens, tokens, members)
  {
  }

  lemma SweptPartly(
      before: map<Token, Entry>, after: map<Token, Entry>, some: set<Token>, now: int, members: set<Token>)
    requires Swept(before, after, some, now) && some <= members
    ensures PartlySwept(before, after, members)
  {
    PartlySweptMore(before, after, some, members);
  }

  lemma RewrittenLasting(before: map<Token, Entry>, after: map<Token, Entry>, token: Token)
    requires Lasting(before) && (after == before || Rewritten(before, after, token, Revoked))
    ensures Lasting(after)
  {
  }

  lemma SweptLater(before: map<Token, Entry>, after: map<Token, Entry>, members: set<Token>, at: int, now: int)
    requires Swept(before, after, members, at) && at <= now
    ensures Swept(before, after, members, now)
  {
  }

  lemma RewrittenStored(before: map<Token, Entry>, after: map<Token, Entry>, token: Token, status: TokenStatus)
    requires Rewritten(before, after, token, status)
    ensures token in before && token in after && after[token].record.status == status
  {
  }
}
