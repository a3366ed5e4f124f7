/**
 * The user table and the register / login operations over it. The password
 * hash is a parameter: `hash(password, rounds)` stands for the salted hash
 * and `compare(password, stored)` for its check; the only fact used about
 * the pair is that a password compares equal to its own hash.
 */
module AuthService {
  import opened Wrappers

  /** The cost factor handed to the hash. */
  const SaltRounds: nat := 10

  datatype User = User(email: string, hashedPassword: string)

  /** What register and login return: the id and the email, never the stored hash. */
  datatype Account = Account(id: int, email: string)

  datatype AuthError = Conflict | NotFound | Unauthorized

  /** No two users share an email (the column is unique). */
  ghost predicate UniqueEmails(users: map<int, User>)
  {
    forall i, j :: i in users && j in users && users[i].email == users[j].email ==> i == j
  }

  /** The user holding an email, if any. */
  ghost function Holder(users: map<int, User>, email: string): (h: Option<int>)
    requires UniqueEmails(users)
    ensures h.None? <==> forall id :: id in users ==> users[id].email != email
    ensures h.Some? ==> h.value in users && users[h.value].email == email
    ensures forall id :: id in users && users[id].email == email ==> h == Some(id)
  {
    if exists id :: id in users && users[id].email == email then
      var id :| id in users && users[id].email == email;
      Some(id)
    else None
  }

  /** What logging in with an email and a password answers. */
  ghost function LoginResult(users: map<int, User>, email: string, password: string,
                             compare: (string, string) -> bool): (r: Result<Account, AuthError>)
    requires UniqueEmails(users)
    ensures r == Failure(NotFound) <==> forall id :: id in users ==> users[id].email != email
    ensures r.Success? ==> r.value.id in users && users[r.value.id].email == email == r.value.email
                           && compare(password, users[r.value.id].hashedPassword)
    ensures r == Failure(Unauthorized) <==>
      exists id :: id in users && users[id].email == email && !compare(password, users[id].hashedPassword)
  {
    match Holder(users, email)
    case None => Failure(NotFound)
    case Some(id) =>
      if compare(password, users[id].hashedPassword) then Success(Account(id, users[id].email))
      else Failure(Unauthorized)
  }

  class UserTable {
    var users: map<int, User>
    /** The id the next user gets (the autoincrement sequence). */
    var nextId: int

    ghost predicate Valid()
      reads this
    {
      && 1 <= nextId
      && (forall id :: id in users ==> 1 <= id < nextId)
      && UniqueEmails(users)
    }

    constructor ()
      ensures Valid() && users == map[] && nextId == 1
    {
      users := map[];
      nextId := 1;
    }
  }

  /** findExistingUser: the user whose email is the given one, looked up by the unique column. */
  method FindExistingUser(table: UserTable, email: string) returns (found: Option<(int, User)>)
    requires table.Valid()
    ensures found.None? <==> Holder(table.users, email).None?
    ensures found.Some? ==> Holder(table.users, email) == Some(found.value.0)
                            && found.value.1 == table.users[found.value.0]
  {
    var id := 1;
    while id < table.nextId
      invariant 1 <= id <= table.nextId
      invariant forall k :: k in table.users && k < id ==> table.users[k].email != email
    {
      if id in table.users && table.users[id].email == email {
        return Some((id, table.users[id]));
      }
      id := id + 1;
    }
    found := None;
  }

  /**
   * register: refuses an email that is already taken, leaving the table as
   * it was; otherwise stores one new user holding the email and the hash of
   * the password.
   */
  method Register(table: UserTable, email: string, password: string, hash: (string, nat) -> string)
    returns (r: Result<Account, AuthError>)
    requires table.Valid()
    modifies table
    ensures table.Valid()
    ensures Holder(old(table.users), email).Some? ==>
      r == Failure(Conflict) && table.users == old(table.users) && table.nextId == old(table.nextId)
    ensures Holder(old(table.users), email).None? ==>
      && r == Success(Account(old(table.nextId), email))
      && table.users == old(table.users)[old(table.nextId) := User(email, hash(password, SaltRounds))]
      && table.nextId == old(table.nextId) + 1
  {
    var existing := FindExistingUser(table, email);
    if existing.Some? {
      return Failure(Conflict);
    }
    var hashedPassword := hash(password, SaltRounds);
    var id := table.nextId;
    table.users := table.users[id := User(email, hashedPassword)];
    table.nextId := id + 1;
    r := Success(Account(id, email));
  }

  /**
   * login: an unknown email is NotFound, a password that does not compare
   * equal to the stored hash is Unauthorized, and otherwise the user's
   * account. The table is only read.
   */
  method Login(table: UserTable, email: string, password: string, compare: (string, string) -> bool)
    returns (r: Result<Account, AuthError>)
    requires table.Valid()
    ensures r == LoginResult(table.users, email, password, compare)
  {
    var existing := FindExistingUser(table, email);
    if existing.None? {
      return Failure(NotFound);
    }
    var (id, user) := existing.value;
    if !compare(password, user.hashedPassword) {
      return Failure(Unauthorized);
    }
    r := Success(Account(id, user.email));
  }

  /** Registering a fresh email and then logging in with the same password yields the registered account. */
  lemma RegisterThenLogin(users: map<int, User>, nextId: int, email: string, password: string,
                          hash: (string, nat) -> string, compare: (string, string) -> bool)
    requires UniqueEmails(users) && forall id :: id in users ==> id < nextId
    requires Holder(users, email).None?
    requires forall p, s :: compare(p, hash(p, s))
    ensures UniqueEmails(users[nextId := User(email, hash(password, SaltRounds))])
    ensures LoginResult(users[nextId := User(email, hash(password, SaltRounds))], email, password, compare)
            == Success(Account(nextId, email))
  {
    var after := users[nextId := User(email, hash(password, SaltRounds))];
    assert Holder(after, email) == Some(nextId);
  }

  /** A second registration of the same email is refused. */
  lemma RegisterTwiceConflicts(users: map<int, User>, nextId: int, email: string, hashedPassword: string)
    requires UniqueEmails(users) && forall id :: id in users ==> id < nextId
    requires Holder(users, email).None?
    ensures UniqueEmails(users[nextId := User(email, hashedPassword)])
    ensures Holder(users[nextId := User(email, hashedPassword)], email) == Some(nextId)
  {
    var after := users[nextId := User(email, hashedPassword)];
    assert nextId in after && after[nextId].email == email;
  }
}
