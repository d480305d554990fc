/** The users endpoints: register a user with a unique e-mail, fetch one. */
module Users {
  import opened Common
  import opened Store
  import opened Schemas

  /** Whether some stored user already has this e-mail. */
  predicate EmailTaken(users: seq<User>, email: string) {
    exists i :: 0 <= i < |users| && users[i].email == email
  }

  /** Adding a user whose e-mail is not taken keeps e-mails unique. */
  lemma {:induction false} AddKeepsEmailsUnique(users: seq<User>, u: User)
    requires UniqueEmails(users) && !EmailTaken(users, u.email)
    ensures UniqueEmails(users + [u])
  {
    var us := users + [u];
    assert forall i :: 0 <= i < |users| ==> us[i] == users[i] && users[i].email != u.email;
  }

  /** POST /users/: rejects a registered e-mail with 400 and changes nothing;
      otherwise inserts exactly one user with the given name and e-mail. */
  method CreateUser(db: Database, input: UserCreate) returns (r: Result<User, HttpError>)
    requires db.Valid()
    modifies db
    ensures db.Valid()
    ensures db.sessions == old(db.sessions) && db.interruptions == old(db.interruptions)
    ensures EmailTaken(old(db.users), input.email) ==>
      r == Err(HttpError(BadRequest, "Email already registered")) && db.users == old(db.users)
    ensures !EmailTaken(old(db.users), input.email) ==>
      && r == Ok(User(|old(db.users)| + 1, input.name, input.email))
      && db.users == old(db.users) + [r.value]
  {
    if EmailTaken(db.users, input.email) {
      return Err(HttpError(BadRequest, "Email already registered"));
    }
    var user := User(|db.users| + 1, input.name, input.email);
    AddKeepsEmailsUnique(db.users, user);
    db.users := db.users + [user];
    r := Ok(user);
  }

  /** GET /users/{id}: the stored user, or 404. */
  function GetUser(db: Database, userId: int): (r: Result<User, HttpError>)
    reads db
    requires db.Valid()
    ensures r.Ok? <==> 1 <= userId <= |db.users|
    ensures r.Ok? ==> r.value.id == userId && r.value in db.users
    ensures r.Err? ==> r.error == HttpError(NotFound, "User not found")
  {
    match Row(db.users, userId)
    case Some(u) => Ok(u)
    case None => Err(HttpError(NotFound, "User not found"))
  }
}
