/** The user document of models/user.js: its fields, the schema's username
    rules (unique, at least three characters) and the `toJSON` transform that
    renames `_id` to `id` and drops `_id`, `__v` and `passwordHash`. */
module UserModel {
  import opened Common

  /** A stored user. There is no field for the plain password: only its hash
      is kept. `version` is the document's `__v`. */
  datatype User = User(
    username: Option<string>,
    name: Option<string>,
    passwordHash: string,
    blogs: seq<Id>,
    version: nat)

  const UsernameMinLength: nat := 3

  /** The `minlength: 3` rule; like every schema validator except `required`,
      it is not applied to an absent value. */
  predicate MeetsMinLength(username: Option<string>)
  {
    username.None? || |username.value| >= UsernameMinLength
  }

  /** The `unique: true` rule: another stored user already has this username.
      An absent username counts as a value too (a unique index treats a
      missing field as null), so a second user without one is refused. */
  predicate UsernameTaken(users: map<Id, User>, username: Option<string>)
  {
    exists id :: id in users && users[id].username == username
  }

  /** Whether saving a new user with this username passes validation. */
  predicate UsernameValid(users: map<Id, User>, username: Option<string>)
  {
    MeetsMinLength(username) && !UsernameTaken(users, username)
  }

  /** Every stored user satisfies the schema: long enough, and no two share
      a username. */
  ghost predicate SchemaHolds(users: map<Id, User>)
  {
    && (forall id :: id in users ==> MeetsMinLength(users[id].username))
    && (forall i, j :: i in users && j in users && i != j ==> users[i].username != users[j].username)
  }

  /** A username of fewer than three characters, or one a stored user
      already has, fails validation. */
  lemma UsernameRules(users: map<Id, User>, username: Option<string>)
    ensures username.Some? && |username.value| < UsernameMinLength ==> !UsernameValid(users, username)
    ensures UsernameTaken(users, username) ==> !UsernameValid(users, username)
  {
  }

  /** Saving a user that passes validation under a fresh id keeps the schema. */
  lemma {:induction false} InsertKeepsSchema(users: map<Id, User>, id: Id, u: User)
    requires SchemaHolds(users)
    requires id !in users
    requires UsernameValid(users, u.username)
    ensures SchemaHolds(users[id := u])
    ensures UsernameTaken(users[id := u], u.username)
  {
    var users' := users[id := u];
    forall i, j | i in users' && j in users' && i != j
      ensures users'[i].username != users'[j].username
    {
      if i == id {
        assert j in users;
      } else if j == id {
        assert i in users;
      }
    }
    assert users'[id].username == u.username;
  }

  /** Re-saving a stored user whose username is unchanged keeps the schema. */
  lemma {:induction false} ReplaceKeepsSchema(users: map<Id, User>, id: Id, u: User)
    requires SchemaHolds(users)
    requires id in users && u.username == users[id].username
    ensures SchemaHolds(users[id := u])
  {
  }

  /** JSON values, enough for a user document. */
  datatype Json =
    | JNum(n: int)
    | JStr(s: string)
    | JObjectId(oid: Id)
    | JArr(items: seq<Json>)

  function IdArray(ids: seq<Id>): (j: Json)
    ensures j.JArr? && |j.items| == |ids|
    ensures forall i :: 0 <= i < |ids| ==> j.items[i] == JObjectId(ids[i])
  {
    JArr(seq(|ids|, i requires 0 <= i < |ids| => JObjectId(ids[i])))
  }

  /** A field that is present only when it has a value. */
  function OptionalField(key: string, value: Option<string>): map<string, Json>
  {
    if value.Some? then map[key := JStr(value.value)] else map[]
  }

  /** The plain object a user document turns into before `toJSON` transforms
      it: the raw `_id`, `__v` and every schema field that is set. */
  function UserObject(id: Id, u: User): (obj: map<string, Json>)
    ensures "_id" in obj && obj["_id"] == JObjectId(id)
  {
    map["_id" := JObjectId(id), "__v" := JNum(u.version),
        "passwordHash" := JStr(u.passwordHash), "blogs" := IdArray(u.blogs)]
      + OptionalField("username", u.username)
      + OptionalField("name", u.name)
  }

  /** The keys `toJSON` takes away. */
  const HiddenKeys: set<string> := {"_id", "__v", "passwordHash"}

  /** What the transform makes of a plain object: `id` becomes the string
      form of `_id`, the hidden keys are gone and every other key keeps its
      value. */
  function Transformed(obj: map<string, Json>): (r: map<string, Json>)
    requires "_id" in obj && obj["_id"].JObjectId?
    ensures "id" in r && r["id"] == JStr(IdToString(obj["_id"].oid))
    ensures "_id" !in r && "__v" !in r && "passwordHash" !in r
    ensures forall k :: k in obj && k != "id" && k !in HiddenKeys ==> k in r && r[k] == obj[k]
    ensures forall k :: k in r ==> k == "id" || k in obj
  {
    obj["id" := JStr(IdToString(obj["_id"].oid))] - HiddenKeys
  }

  /** The object handed to the `toJSON` transform, changed in place. */
  class JsonObject {
    var fields: map<string, Json>

    constructor (fields: map<string, Json>)
      ensures this.fields == fields
    {
      this.fields := fields;
    }

    /** The schema's `toJSON` transform: assigns `id`, then deletes `_id`,
        `__v` and `passwordHash`, one after the other. */
    method Transform()
      requires "_id" in fields && fields["_id"].JObjectId?
      modifies this
      ensures fields == Transformed(old(fields))
    {
      fields := fields["id" := JStr(IdToString(fields["_id"].oid))];
      fields := fields - {"_id"};
      fields := fields - {"__v"};
      fields := fields - {"passwordHash"};
    }
  }

  /** The JSON a stored user is sent as. */
  function UserJson(id: Id, u: User): (r: map<string, Json>)
  {
    Transformed(UserObject(id, u))
  }

  /** A user's JSON carries `id` as the string form of its identifier, its
      `blogs`, `username` and `name` exactly as stored, and no other key: in
      particular never the password hash. */
  lemma UserJsonShape(id: Id, u: User)
    ensures var r := UserJson(id, u);
      && r.Keys == {"id", "blogs"} + OptionalField("username", u.username).Keys
                                   + OptionalField("name", u.name).Keys
      && r["id"] == JStr(IdToString(id))
      && r["blogs"] == IdArray(u.blogs)
      && (u.username.Some? ==> r["username"] == JStr(u.username.value))
      && (u.name.Some? ==> r["name"] == JStr(u.name.value))
      && "passwordHash" !in r
  {
  }
}
