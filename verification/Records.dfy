/** The stored entities: refresh-token records (Redis) and session rows (Postgres). */
module Records {

  import opened Options

  type Id = string
  type Token = string

  datatype TokenStatus = Active | Used | Revoked

  datatype Record = Record(userId: Id, sessionId: Id, status: TokenStatus, createdAt: int, expiresAt: int)

  /** A Redis string key: its value and the instant from which the key no longer exists. */
  datatype Entry = Entry(record: Record, deadline: int)

  datatype SessionStatus = SessionActive | SessionRevoked

  datatype Session = Session(
    userId: Id, deviceName: string, ipAddress: string,
    status: SessionStatus, createdAt: int, lastUsedAt: int)

  /** GET: a key is seen strictly before its deadline. */
  function Lookup(tokens: map<Token, Entry>, now: int, token: Token): Option<Record> {
    if token in tokens && now < tokens[token].deadline then Some(tokens[token].record) else None
  }

  /** There is no such key, or its time has come. */
  predicate KeyDead(tokens: map<Token, Entry>, now: int, token: Token) {
    token !in tokens || tokens[token].deadline <= now
  }

  /** SMEMBERS: a set that was never written is empty. */
  function Members(index: map<Id, set<Token>>, id: Id): set<Token> {
    if id in index then index[id] else {}
  }

  /** SADD */
  function AddMember(index: map<Id, set<Token>>, id: Id, token: Token): (r: map<Id, set<Token>>)
    ensures forall u :: Members(r, u) == if u == id then Members(index, u) + {token} else Members(index, u)
  {
    index[id := Members(index, id) + {token}]
  }

  /** UPDATE sessions SET status = 'REVOKED' WHERE id = $1 */
  function RevokeRow(sessions: map<Id, Session>, id: Id): map<Id, Session> {
    if id in sessions then sessions[id := sessions[id].(status := SessionRevoked)] else sessions
  }

  /** UPDATE sessions SET status = 'REVOKED' WHERE user_id = $1 AND status = 'ACTIVE' */
  function RevokeRowsOf(sessions: map<Id, Session>, userId: Id): map<Id, Session> {
    map id | id in sessions ::
      if sessions[id].userId == userId && sessions[id].status == SessionActive
      then sessions[id].(status := SessionRevoked)
      else sessions[id]
  }

  /** Every row of the user is REVOKED and otherwise as it was; the rows of others are as they were. */
  predicate UserRowsRevoked(before: map<Id, Session>, after: map<Id, Session>, userId: Id) {
    && after.Keys == before.Keys
    && forall id :: id in before ==>
         after[id] == if before[id].userId == userId then before[id].(status := SessionRevoked) else before[id]
  }

  /** The row, if it is there, is REVOKED and otherwise as it was; all others are as they were. */
  predicate SessionRowRevoked(before: map<Id, Session>, after: map<Id, Session>, sessionId: Id) {
    && after.Keys == before.Keys
    && forall id :: id in before ==>
         after[id] == if id == sessionId then before[id].(status := SessionRevoked) else before[id]
  }

  lemma RowsRevoked(sessions: map<Id, Session>, id: Id)
    ensures UserRowsRevoked(sessions, RevokeRowsOf(sessions, id), id)
    ensures SessionRowRevoked(sessions, RevokeRow(sessions, id), id)
  {
  }

  /** UPDATE sessions SET last_used_at = $1 WHERE id = $2 */
  function TouchRow(sessions: map<Id, Session>, id: Id, at: int): map<Id, Session> {
    if id in sessions then sessions[id := sessions[id].(lastUsedAt := at)] else sessions
  }
}
