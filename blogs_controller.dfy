/** The blog routes of controllers/blogs.js: reading the bearer token from the
    `Authorization` header, and the create (POST), like-update (PUT) and
    owner-only delete (DELETE) handlers over the store. */
module BlogsController {
  import opened Common
  import opened UserModel
  import opened Store

  /** What token verification gives back: it throws for a token that is not
      valid (and for a null token), and otherwise returns the token's payload,
      whose `id` may be absent. */
  datatype JwtOutcome = Invalid | Payload(id: Option<Id>)

  /** `toLowerCase()` of one character. Only the letters A to Z can lower-case
      to a character of "bearer ", so lowering them alone decides the test. */
  function LowerChar(c: char): (l: char)
  {
    if 'A' <= c <= 'Z' then (c as int - 'A' as int + 'a' as int) as char else c
  }

  function ToLowerCase(s: string): (r: string)
    ensures |r| == |s|
    ensures forall i :: 0 <= i < |s| ==> r[i] == LowerChar(s[i])
    decreases |s|
  {
    if s == [] then [] else [LowerChar(s[0])] + ToLowerCase(s[1..])
  }

  predicate StartsWith(s: string, prefix: string)
  {
    |prefix| <= |s| && s[..|prefix|] == prefix
  }

  const BearerPrefix: string := "bearer "

  /** The header's first seven characters spell "bearer " in any mix of cases. */
  predicate HasBearerScheme(header: string)
  {
    |header| >= 7 && forall i :: 0 <= i < 7 ==> LowerChar(header[i]) == BearerPrefix[i]
  }

  /** `getTokenFrom`: a header (absent, or the empty string) that does not
      begin with "bearer " in lower case yields no token; otherwise the token
      is the header with its first seven characters cut off. */
  function GetTokenFrom(authorization: Option<string>): (token: Option<string>)
    ensures token.Some? <==> authorization.Some? && HasBearerScheme(authorization.value)
    ensures token.Some? ==> token.value == authorization.value[7..]
  {
    if authorization.Some? && authorization.value != ""
       && StartsWith(ToLowerCase(authorization.value), BearerPrefix)
    then Some(authorization.value[7..])
    else None
  }

  /** Any seven-character scheme that lower-cases to "bearer " is accepted,
      and the token comes back exactly. */
  lemma BearerRoundTrip(scheme: string, token: string)
    requires ToLowerCase(scheme) == BearerPrefix
    ensures GetTokenFrom(Some(scheme + token)) == Some(token)
  {
  }

  /** "Bearer ", "bearer " and "BEARER " all introduce a token. */
  lemma BearerAnyCase(token: string)
    ensures GetTokenFrom(Some("Bearer " + token)) == Some(token)
    ensures GetTokenFrom(Some("bearer " + token)) == Some(token)
    ensures GetTokenFrom(Some("BEARER " + token)) == Some(token)
  {
    BearerRoundTrip("Bearer ", token);
    BearerRoundTrip("bearer ", token);
    BearerRoundTrip("BEARER ", token);
  }

  /** Both token-checking handlers first read the token from the header and
      verify it (controllers/blogs.js:29-30 and 79-80). A missing token is
      passed on as null, on which verification throws. */
  datatype Verification = Threw | Verified(token: string, payload: Option<Id>)

  function VerifyRequest(authorization: Option<string>, verify: string -> JwtOutcome): (v: Verification)
  {
    var token := GetTokenFrom(authorization);
    if token.None? then Threw
    else match verify(token.value)
      case Invalid => Threw
      case Payload(id) => Verified(token.value, id)
  }

  /** The user a POST acts for: verification passed, the token is not empty
      and its payload names a user id (controllers/blogs.js:32). */
  function PostCaller(authorization: Option<string>, verify: string -> JwtOutcome): (caller: Option<Id>)
    ensures caller.Some? <==>
      && GetTokenFrom(authorization).Some?
      && GetTokenFrom(authorization).value != ""
      && verify(GetTokenFrom(authorization).value).Payload?
      && verify(GetTokenFrom(authorization).value).id.Some?
    ensures caller.Some? ==> verify(GetTokenFrom(authorization).value) == Payload(caller)
  {
    var v := VerifyRequest(authorization, verify);
    if v.Verified? && v.token != "" && v.payload.Some? then v.payload else None
  }

  /** Token verification refuses an empty token just as it refuses a missing
      one. Given a `verify` that does so, a token that passes verification is
      never empty, so the empty-token refusals of POST and DELETE never apply
      and a POST is refused with 401 only for a payload without `id`. */
  lemma EmptyTokenNeverVerified(authorization: Option<string>, verify: string -> JwtOutcome)
    requires verify("") == Invalid
    ensures VerifyRequest(authorization, verify).Verified? ==> VerifyRequest(authorization, verify).token != ""
    ensures VerifyRequest(authorization, verify).Verified? && PostCaller(authorization, verify).None?
      ==> VerifyRequest(authorization, verify).payload.None?
  {
  }

  /** The fields of a POST body (each may be missing). */
  datatype BlogBody = BlogBody(
    title: Option<string>,
    author: Option<string>,
    url: Option<string>,
    likes: Option<int>)

  /** Both `title` and `url` are present and not empty. */
  predicate HasTitleAndUrl(body: BlogBody)
  {
    body.title.Some? && body.title.value != "" && body.url.Some? && body.url.value != ""
  }

  /** Likes that are missing or zero are stored as 0, so missing likes become
      0 and given likes are kept. */
  function StoredLikes(likes: Option<int>): (n: int)
    ensures likes.None? ==> n == 0
    ensures likes.Some? ==> n == likes.value
  {
    if likes.None? || likes.value == 0 then 0 else likes.value
  }

  /** The blog a valid POST body from user `owner` is saved as. */
  function NewBlog(body: BlogBody, owner: Id): Blog
    requires HasTitleAndUrl(body)
  {
    Blog(body.title.value, body.author, body.url.value, StoredLikes(body.likes), owner, [])
  }

  /** POST /api/blogs. Verification throws on a missing or bad token; a
      payload without `id` is refused with 401, and so is an empty token that
      passed verification (which `EmptyTokenNeverVerified` shows cannot
      happen when `verify` refuses the empty token); a user id
      that names no user makes the handler throw; a body without title or url
      is refused with 400. Otherwise exactly one blog, owned by the caller,
      is added and its id is appended to the caller's `blogs`. On every
      other outcome the store is left as it was. */
  method CreateBlog(db: Database, authorization: Option<string>,
                    verify: string -> JwtOutcome, body: BlogBody)
    returns (r: Response<Saved<Blog>>)
    requires db.Valid()
    modifies db
    ensures db.Valid()
    ensures VerifyRequest(authorization, verify).Threw? ==> r == Thrown(JsonWebTokenError)
    ensures VerifyRequest(authorization, verify).Verified? && PostCaller(authorization, verify).None?
      ==> r == Unauthorized(TokenMissingOrInvalid)
    ensures PostCaller(authorization, verify).Some? && PostCaller(authorization, verify).value !in old(db.users)
      ==> r == Thrown(TypeError)
    ensures (PostCaller(authorization, verify).Some? && PostCaller(authorization, verify).value in old(db.users)
             && !HasTitleAndUrl(body)) ==> r == BadRequest(MissingTitleOrUrl)
    ensures r.Ok? <==> (PostCaller(authorization, verify).Some?
                        && PostCaller(authorization, verify).value in old(db.users) && HasTitleAndUrl(body))
    ensures !r.Ok? ==> db.blogs == old(db.blogs) && db.users == old(db.users) && db.comments == old(db.comments)
    ensures r.Ok? ==>
      var owner := PostCaller(authorization, verify).value;
      var id := r.body.id;
      && id !in old(db.blogs)
      && r.body.doc == NewBlog(body, owner)
      && db.blogs == old(db.blogs)[id := NewBlog(body, owner)]
      && |db.blogs| == |old(db.blogs)| + 1
      && db.users == old(db.users)[owner := old(db.users)[owner].(blogs := old(db.users)[owner].blogs + [id])]
      && db.comments == old(db.comments)
  {
    var token := GetTokenFrom(authorization);
    if token.None? {
      return Thrown(JsonWebTokenError);
    }
    var decoded := verify(token.value);
    if decoded.Invalid? {
      return Thrown(JsonWebTokenError);
    }
    if token.value == "" || decoded.id.None? {
      return Unauthorized(TokenMissingOrInvalid);
    }
    var owner := decoded.id.value;
    if owner !in db.users {
      return Thrown(TypeError);
    }
    var user := db.users[owner];
    if !HasTitleAndUrl(body) {
      return BadRequest(MissingTitleOrUrl);
    }
    var blog := Blog(body.title.value, body.author, body.url.value, 0, owner, []);
    if body.likes.Some? && body.likes.value != 0 {
      blog := blog.(likes := body.likes.value);
    }
    ghost var blogsBefore := db.blogs;
    var id := db.InsertBlog(blog);
    InsertOneSize(blogsBefore, id, blog);
    user := user.(blogs := user.blogs + [id]);
    db.ReplaceUser(owner, user);
    return Ok(Saved(id, blog));
  }

  /** PUT /api/blogs/:id. Only the `likes` of that blog change; an id that
      names no blog makes the handler throw and changes nothing. */
  method UpdateLikes(db: Database, blogId: Id, likes: int) returns (r: Response<Saved<Blog>>)
    requires db.Valid()
    modifies db
    ensures db.Valid()
    ensures r.Ok? <==> blogId in old(db.blogs)
    ensures !r.Ok? ==> r == Thrown(TypeError) && db.blogs == old(db.blogs)
    ensures r.Ok? ==>
      && r.body == Saved(blogId, old(db.blogs)[blogId].(likes := likes))
      && db.blogs == old(db.blogs)[blogId := old(db.blogs)[blogId].(likes := likes)]
    ensures db.users == old(db.users) && db.comments == old(db.comments)
  {
    if blogId !in db.blogs {
      return Thrown(TypeError);
    }
    var updated := db.blogs[blogId].(likes := likes);
    db.ReplaceBlog(blogId, updated);
    return Ok(Saved(blogId, updated));
  }

  /** DELETE /api/blogs/:id. Verification throws on a missing or bad token;
      an empty token that passed verification is refused with 401 (see
      `EmptyTokenNeverVerified`); an id that names no blog, or a
      payload without `id`, makes the handler throw; a caller who does not
      own the blog is refused with 401. Otherwise that one blog is removed
      and the answer is 204. Users and comments are never touched: the
      owner's `blogs` and the blog's comments keep the removed id. */
  method DeleteBlog(db: Database, authorization: Option<string>,
                    verify: string -> JwtOutcome, blogId: Id)
    returns (r: Response<()>)
    requires db.Valid()
    modifies db
    ensures db.Valid()
    ensures VerifyRequest(authorization, verify).Threw? ==> r == Thrown(JsonWebTokenError)
    ensures VerifyRequest(authorization, verify).Verified? && VerifyRequest(authorization, verify).token == ""
      ==> r == Unauthorized(MissingOrInvalidToken)
    ensures VerifyRequest(authorization, verify).Verified? && VerifyRequest(authorization, verify).token != ""
      && (blogId !in old(db.blogs) || VerifyRequest(authorization, verify).payload.None?)
      ==> r == Thrown(TypeError)
    ensures VerifyRequest(authorization, verify).Verified? && VerifyRequest(authorization, verify).token != ""
      && blogId in old(db.blogs) && VerifyRequest(authorization, verify).payload.Some?
      && old(db.blogs)[blogId].user != VerifyRequest(authorization, verify).payload.value
      ==> r == Unauthorized(UnauthorizedAccess)
    ensures r == NoContent <==> (VerifyRequest(authorization, verify).Verified?
                                 && VerifyRequest(authorization, verify).token != "" && blogId in old(db.blogs)
                                 && VerifyRequest(authorization, verify).payload == Some(old(db.blogs)[blogId].user))
    ensures r != NoContent ==> db.blogs == old(db.blogs)
    ensures r == NoContent ==> db.blogs == old(db.blogs) - {blogId} && |db.blogs| == |old(db.blogs)| - 1
    ensures db.users == old(db.users) && db.comments == old(db.comments)
  {
    var token := GetTokenFrom(authorization);
    if token.None? {
      return Thrown(JsonWebTokenError);
    }
    var decoded := verify(token.value);
    if decoded.Invalid? {
      return Thrown(JsonWebTokenError);
    }
    if token.value == "" {
      return Unauthorized(MissingOrInvalidToken);
    }
    if blogId !in db.blogs || decoded.id.None? {
      return Thrown(TypeError);
    }
    // The owner check compares the string forms of the two ids; they are
    // equal exactly when the ids are.
    var owner := db.blogs[blogId].user;
    if IdToString(owner) != IdToString(decoded.id.value) {
      return Unauthorized(UnauthorizedAccess);
    }
    IdToStringInjective(owner, decoded.id.value);
    RemoveOneSize(db.blogs, blogId);
    db.RemoveBlog(blogId);
    return NoContent;
  }
}
