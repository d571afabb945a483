/** Values shared by every part of the model: optional values, document
    identifiers and the outcome of a route handler. */
module Common {

  datatype Option<+T> = None | Some(value: T)

  /** A document identifier (a database ObjectId). Identifiers are drawn from
      one counter for all collections, so they are unique across collections,
      as ObjectIds are. */
  type Id = nat

  function DigitChar(d: nat): (c: char)
    requires d < 10
    ensures '0' <= c <= '9'
    ensures c as int - '0' as int == d
  {
    ('0' as int + d) as char
  }

  /** The string form of an identifier (`_id.toString()`), as a decimal numeral. */
  function IdToString(id: Id): (s: string)
    ensures |s| >= 1
    ensures forall i :: 0 <= i < |s| ==> '0' <= s[i] <= '9'
    decreases id
  {
    if id < 10 then [DigitChar(id)] else IdToString(id / 10) + [DigitChar(id % 10)]
  }

  /** Different identifiers have different string forms, so comparing the
      string forms of two ids compares the ids. */
  lemma {:induction false} IdToStringInjective(a: Id, b: Id)
    requires IdToString(a) == IdToString(b)
    ensures a == b
    decreases a
  {
    var s := IdToString(a);
    if a >= 10 && b >= 10 {
      var n := |s|;
      assert IdToString(a / 10) == s[..n - 1] == IdToString(b / 10);
      IdToStringInjective(a / 10, b / 10);
      assert DigitChar(a % 10) == s[n - 1] == DigitChar(b % 10);
    } else if a < 10 && b < 10 {
      assert DigitChar(a) == s[0] == DigitChar(b);
    }
    // One id below 10 and the other not: a single digit against at least two.
  }

  /** The error bodies the handlers send, one per message of the source. */
  datatype ApiError =
    | TokenMissingOrInvalid      // POST /api/blogs
    | MissingOrInvalidToken      // DELETE /api/blogs/:id
    | UnauthorizedAccess         // DELETE by someone other than the owner
    | MissingTitleOrUrl
    | InvalidUsernameOrPassword
    | UserValidationFailed       // the schema's validation error object
    | MissingComment

  function Message(e: ApiError): string
  {
    match e
    case TokenMissingOrInvalid => "token missing or invalid"
    case MissingOrInvalidToken => "missing or invalid token"
    case UnauthorizedAccess => "unauthorized access"
    case MissingTitleOrUrl => "missing title or url"
    case InvalidUsernameOrPassword => "invalid username or password"
    case UserValidationFailed => "User validation failed"
    case MissingComment => "missing comment"
  }

  /** Exceptions a handler lets escape to the error middleware. */
  datatype Exception =
    | JsonWebTokenError  // thrown by token verification, including for a null token
    | TypeError          // a property read on a lookup that found nothing

  /** A saved document together with the identifier it was stored under. */
  datatype Saved<+T> = Saved(id: Id, doc: T)

  /** What a route handler answers. */
  datatype Response<+T> =
    | Ok(body: T)                  // 200 with a JSON body
    | NoContent                    // 204
    | BadRequest(error: ApiError)  // 400
    | Unauthorized(error: ApiError) // 401
    | Thrown(exception: Exception) // handed to the error middleware
}
