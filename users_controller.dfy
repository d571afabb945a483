/** The user routes of controllers/users.js: registration (POST), which checks
    the password, hashes it and saves the user through the schema's
    validation, and the listing (GET). */
module UsersController {
  import opened Common
  import opened UserModel
  import opened Store

  /** The fields of a registration body (each may be missing). */
  datatype UserBody = UserBody(
    username: Option<string>,
    name: Option<string>,
    password: Option<string>)

  const PasswordMinLength: nat := 3

  /** A password that is missing, empty or shorter than three characters. */
  predicate PasswordRejected(password: Option<string>)
  {
    password.None? || password.value == "" || |password.value| < PasswordMinLength
  }

  /** POST /api/users. The password is checked first: a bad one is refused
      with 400 "invalid username or password" before any username rule is
      looked at. Then the user, holding only the hash of the password, is
      saved; a username that is too short or already taken fails validation
      with 400. Either failure leaves the store as it was. On success exactly
      one user is added and the answer is that user's JSON. */
  method Register(db: Database, body: UserBody, hash: string -> string)
    returns (r: Response<map<string, Json>>)
    requires db.Valid()
    modifies db
    ensures db.Valid()
    ensures PasswordRejected(body.password) ==> r == BadRequest(InvalidUsernameOrPassword)
    ensures !PasswordRejected(body.password) && !UsernameValid(old(db.users), body.username)
      ==> r == BadRequest(UserValidationFailed)
    ensures r.Ok? <==> !PasswordRejected(body.password) && UsernameValid(old(db.users), body.username)
    ensures !r.Ok? ==> db.users == old(db.users)
    ensures r.Ok? ==>
      exists id :: id !in old(db.users)
        && db.users == old(db.users)[id := User(body.username, body.name, hash(body.password.value), [], 0)]
        && r.body == UserJson(id, db.users[id])
    ensures r.Ok? ==> |db.users| == |old(db.users)| + 1 && UsernameTaken(db.users, body.username)
    ensures r.Ok? ==> "passwordHash" !in r.body
    ensures db.blogs == old(db.blogs) && db.comments == old(db.comments)
  {
    if body.password.None? || body.password.value == "" || |body.password.value| < PasswordMinLength {
      return BadRequest(InvalidUsernameOrPassword);
    }
    var passwordHash := hash(body.password.value);
    var user := User(body.username, body.name, passwordHash, [], 0);
    if !UsernameValid(db.users, user.username) {
      return BadRequest(UserValidationFailed);
    }
    ghost var usersBefore := db.users;
    var id := db.InsertUser(user);
    InsertOneSize(usersBefore, id, user);
    InsertKeepsSchema(usersBefore, id, user);
    return Ok(UserJson(id, user));
  }

  /** GET /api/users: every stored user, as JSON; none of them shows a
      password hash. */
  function ListUsers(db: Database): (r: map<Id, map<string, Json>>)
    reads db
    ensures r.Keys == db.users.Keys
    ensures forall id :: id in r ==> r[id] == UserJson(id, db.users[id]) && "passwordHash" !in r[id]
  {
    map id | id in db.users :: UserJson(id, db.users[id])
  }
}
