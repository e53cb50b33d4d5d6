/**
 The users table. Emails are stored and looked up in normal form, and a unique index stands
 behind both, so each person has one account however the email is spelled.
 */
module Users {
  import opened Environments
  import opened Options
  import opened Records
  import opened Strings

  datatype User = User(
    id: Id, email: string, hashedPassword: string, isEmailVerified: bool, createdAt: int, updatedAt: int)

  datatype Creation = UserCreated(user: User) | DuplicateEmail | CreationFailed

  type Table = map<Id, User>

  predicate HasEmail(users: Table, email: string) {
    exists id :: id in users && users[id].email == email
  }

  /** INSERT INTO users, under the primary key and the unique index on email. */
  function Inserted(users: Table, user: User): Table {
    if user.id in users || HasEmail(users, user.email) then users else users[user.id := user]
  }

  /** The row CreateUser inserts for `user`. */
  function Row(user: User): User {
    user.(email := Normalize(user.email))
  }

  /** The table after any sequence of calls of CreateUser. */
  function TableAfter(attempts: seq<User>): Table {
    if attempts == [] then map[]
    else Inserted(TableAfter(attempts[..|attempts| - 1]), Row(attempts[|attempts| - 1]))
  }

  // ---- what every run guarantees ----

  predicate Keyed(users: Table) {
    forall id :: id in users ==> users[id].id == id
  }

  predicate NormalEmails(users: Table) {
    forall id :: id in users ==> NoCapitals(users[id].email) && Trim(users[id].email)
  }

  predicate UniqueEmails(users: Table) {
    forall i, j :: i in users && j in users && users[i].email == users[j].email ==> i == j
  }

  lemma {:induction false} TableSound(attempts: seq<User>)
    ensures var users := TableAfter(attempts); Keyed(users) && NormalEmails(users) && UniqueEmails(users)
  {
    if attempts != [] {
      var n := |attempts| - 1;
      TableSound(attempts[..n]);
      NormalForm(attempts[n].email);
    }
  }

  lemma {:induction false} TableGrows(attempts: seq<User>, more: seq<User>, id: Id)
    requires id in TableAfter(attempts)
    ensures id in TableAfter(attempts + more) && TableAfter(attempts + more)[id] == TableAfter(attempts)[id]
    decreases |more|
  {
    if more == [] {
      assert attempts + more == attempts;
    } else {
      var n := |more| - 1;
      assert (attempts + more)[..|attempts + more| - 1] == attempts + more[..n];
      TableGrows(attempts, more[..n], id);
    }
  }

  /** In every run, two users whose emails spell the same are one. */
  lemma EmailsUnique(attempts: seq<User>, i: Id, j: Id)
    requires i in TableAfter(attempts) && j in TableAfter(attempts)
    requires Spells(TableAfter(attempts)[i].email, TableAfter(attempts)[j].email)
    ensures i == j
  {
    TableSound(attempts);
    StoredNormal(attempts, i);
    StoredNormal(attempts, j);
    SpellsIff(TableAfter(attempts)[i].email, TableAfter(attempts)[j].email);
  }

  lemma StoredNormal(attempts: seq<User>, id: Id)
    requires id in TableAfter(attempts)
    ensures var email := TableAfter(attempts)[id].email; NoCapitals(email) && Trim(email) && Normalize(email) == email
  {
    TableSound(attempts);
    var email := TableAfter(attempts)[id].email;
    NormalIsFixed(email);
  }

  lemma NormalIsFixed(email: string)
    requires NoCapitals(email) && Trim(email)
    ensures Normalize(email) == email
  {
    SpellsIff(email, email);
    assert SplitsAs(email, "", email, "") by {
      assert "" + email + "" == email;
    }
    assert SameLetters(email, email);
  }

  /** The lookup compares normal forms, and so finds exactly the spellings of the stored emails. */
  lemma StoredUnder(attempts: seq<User>, spelling: string)
    ensures var users := TableAfter(attempts);
      forall id :: id in users ==> (users[id].email == Normalize(spelling) <==> Spells(spelling, users[id].email))
  {
    TableSound(attempts);
    forall id | id in TableAfter(attempts)
      ensures
        var email := TableAfter(attempts)[id].email;
        email == Normalize(spelling) <==> Spells(spelling, email)
    {
      SpellsIff(spelling, TableAfter(attempts)[id].email);
    }
  }

  /**
   A registered user is found under every spelling of the email, padded with white space and in
   any mixture of cases, ever after; nobody else is found under it; and nobody else can
   register under any spelling of it.
   */
  lemma FoundByAnySpelling(attempts: seq<User>, more: seq<User>, id: Id, spelling: string)
    requires id in TableAfter(attempts) && Spells(spelling, TableAfter(attempts)[id].email)
    ensures
      var users := TableAfter(attempts + more);
      && id in users && users[id] == TableAfter(attempts)[id]
      && (forall other :: other in users && users[other].email == Normalize(spelling) <==> other == id)
      && (forall user :: user in more && Spells(user.email, users[id].email) ==> Inserted(users, Row(user)) == users)
  {
    var users := TableAfter(attempts + more);
    TableSound(attempts + more);
    TableGrows(attempts, more, id);
    StoredUnder(attempts + more, spelling);
    forall user | user in more && Spells(user.email, users[id].email) ensures Inserted(users, Row(user)) == users {
      StoredUnder(attempts + more, user.email);
    }
  }

  lemma OneMore(attempts: seq<User>, user: User)
    ensures TableAfter(attempts + [user]) == Inserted(TableAfter(attempts), Row(user))
  {
    assert (attempts + [user])[..|attempts + [user]| - 1] == attempts;
  }

  /** The row is under a normal form, which the email given spells; and who else has that form. */
  lemma RowFor(attempts: seq<User>, user: User)
    ensures
      var row, users := Row(user), TableAfter(attempts);
      && row == user.(email := ToLower(TrimSpace(user.email)))
      && Spells(user.email, row.email) && NoCapitals(row.email) && Trim(row.email)
      && (forall id :: id in users ==> (users[id].email == row.email <==> Spells(user.email, users[id].email)))
  {
    StoredUnder(attempts, user.email);
    NormalForm(user.email);
    SpellsIff(user.email, Normalize(user.email));
  }

  /** PostgresUserRepository: each call is one SQL statement, and any call may fail. */
  class UserRepository {
    const env: Environment
    var users: Table
    ghost var attempts: seq<User>

    ghost predicate Valid()
      reads this
    {
      users == TableAfter(attempts)
    }

    constructor (env: Environment)
      ensures this.env == env && Valid() && users == map[]
    {
      this.env := env;
      users, attempts := map[], [];
    }

    /** Strings with one normal form are spellings of the same stored emails. */
    lemma SpelledAlike(s: string, t: string)
      requires Valid() && Normalize(s) == Normalize(t)
      ensures forall id :: id in users ==> (Spells(s, users[id].email) <==> Spells(t, users[id].email))
    {
      StoredUnder(attempts, s);
      StoredUnder(attempts, t);
      assert users == TableAfter(attempts);
      forall id | id in users ensures Spells(s, users[id].email) <==> Spells(t, users[id].email) {
        assert TableAfter(attempts)[id].email == Normalize(s) <==> Spells(s, TableAfter(attempts)[id].email);
      }
    }

    /** Exactly the user whose email this spells. */
    method FindByEmail(email: string) returns (reply: Reply<User>)
      requires Valid()
      ensures reply.Answer? ==>
        && reply.value.id in users && users[reply.value.id] == reply.value
        && (forall id :: id in users && Spells(email, users[id].email) <==> id == reply.value.id)
      ensures reply.NotFound? ==> forall id :: id in users ==> !Spells(email, users[id].email)
      ensures env.sound ==> !reply.Fault?
    {
      TableSound(attempts);
      StoredUnder(attempts, email);
      var failed := env.Fails();
      if failed {
        return Fault;
      }
      var key := ToLower(TrimSpace(email));
      if id :| id in users && users[id].email == key {
        return Answer(users[id]);
      }
      return NotFound;
    }

    method FindByID(id: Id) returns (reply: Reply<User>)
      requires Valid()
      ensures reply.Answer? ==> id in users && users[id] == reply.value && reply.value.id == id
      ensures reply.NotFound? ==> id !in users
      ensures env.sound ==> !reply.Fault?
    {
      TableSound(attempts);
      var failed := env.Fails();
      if failed {
        return Fault;
      }
      return if id in users then Answer(users[id]) else NotFound;
    }

    /**
     A failed statement may have taken effect. A success adds one row, under an email nobody
     had; a duplicate adds none, because somebody has the email (or the id).
     */
    method CreateUser(user: User) returns (creation: Creation)
      requires Valid()
      modifies this
      ensures Valid() && old(attempts) <= attempts
      ensures users == old(users) || users == Inserted(old(users), Row(user))
      ensures creation.UserCreated? ==>
        && creation.user == Row(user) && users == old(users)[user.id := Row(user)] && user.id !in old(users)
        && Spells(user.email, creation.user.email) && NoCapitals(creation.user.email) && Trim(creation.user.email)
        && (forall id :: id in old(users) ==> !Spells(user.email, old(users)[id].email))
      ensures creation.DuplicateEmail? ==>
        && users == old(users)
        && (user.id in users || exists id :: id in users && Spells(user.email, users[id].email))
      ensures env.sound ==> !creation.CreationFailed?
    {
      hide Spells, NoCapitals, Trim, ToLower, TrimSpace, TableAfter, Row;
      RowFor(attempts, user);
      OneMore(attempts, user);
      var row := user.(email := ToLower(TrimSpace(user.email)));
      var lost := env.Fails();
      if lost {
        return CreationFailed;
      }
      attempts := attempts + [user];
      if row.id in users || HasEmail(users, row.email) {
        return DuplicateEmail;
      }
      users := users[row.id := row];
      var failed := env.Fails();
      return if failed then CreationFailed else UserCreated(row);
    }
  }
}
