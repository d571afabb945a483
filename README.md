# Bloglist backend — a Dafny model

This project models the logic of a small REST backend for a blogging service.
Users register, create blog posts, like them, comment on them, and delete their own posts.
The model covers four parts:

- **List aggregates** (`ListHelper`): `dummy`, `totalLikes` (a left fold of the likes from 0) and `favoriteBlog` (one pass that keeps the first blog with the most likes, or the number 0 for an empty list).
- **Bearer tokens** (`BlogsController.GetTokenFrom`): the token is the `Authorization` header minus its first seven characters, when the lower-cased header starts with `"bearer "`.
- **Route handlers over an abstract store** (`Store`, `BlogsController`, `UsersController`, `CommentsController`). The document database is a class `Store.Database` holding three maps: blogs, users and comments, each keyed by id. New ids come from one counter, so they are fresh in every collection. Each handler is a method that changes the store step by step and returns a `Common.Response`: `Ok`, `NoContent`, `BadRequest`, `Unauthorized`, or `Thrown` for an exception left to the error middleware. Each handler's postcondition gives the outcome for every input and the exact new store. Every refusal leaves the store as it was. Every success adds or changes exactly one document, plus the back-link from the owner.
- **The user schema** (`UserModel`): the username rules (at least three characters, unique) and the `toJSON` transform. The transform sets `id` to the string form of `_id` and deletes `_id`, `__v` and `passwordHash`.

The store invariant `Database.Valid()` says two things: every id is below the counter, and every stored user satisfies the schema. Registration keeps this invariant. So re-saving a user whose `blogs` list was extended always passes validation.

Token verification (`jsonwebtoken`) and password hashing (`bcrypt`) are parameters of the handlers: `verify: string -> JwtOutcome` and `hash: string -> string`.

- A missing token reaches verification as null, and verification throws on it. Both the POST and DELETE handlers therefore answer `Thrown(JsonWebTokenError)` for a missing or malformed header. Token verification also refuses an empty token, so the `!token` tests at controllers/blogs.js:32 and :82 never fire: a header of exactly `bearer ` throws too (`BlogsController.EmptyTokenNeverVerified`). Which status the error middleware gives that exception is not part of this model. A client might expect 401 for a missing token; the code itself never sends it.
- A lookup that finds nothing (the POST's user, the DELETE's or comment's blog, the PUT's updated blog) is followed by a property read on null. It is modelled as `Thrown(TypeError)` with the store unchanged.
- Deleting a blog touches neither users nor comments. The owner's `blogs` list and the blog's comments keep the removed id.
- A missing username is a value like any other for uniqueness: a unique index treats a missing field as null, so a second user without a username is refused. The minimum length applies only to a username that is present.

## Model

| member | source | states |
|---|---|---|
| ListHelper.Dummy | utils/list_helper.js:1 | `dummy` is 1 for every list of blogs |
| ListHelper.TotalLikes | utils/list_helper.js:3-10 | `totalLikes` equals the sum of every blog's likes (`SumOfLikes`, defined independently from the other end), so it is 0 for the empty list |
| ListHelper.ReduceLikesIsSum | utils/list_helper.js:4 | the left fold `reduce((sum, blog) => sum + blog.likes, s)` equals `s` plus the sum of the likes |
| ListHelper.TotalLikesAppend | utils/list_helper.js:3-10 | the total of two lists put together is the sum of their two totals |
| ListHelper.TotalLikesNonNegative | utils/list_helper.js:3-10 | with no negative like counts, the total is not negative |
| ListHelper.TotalLikesBoundsEach | utils/list_helper.js:3-10 | with no negative like counts, every blog's likes are at most the total |
| ListHelper.FavoriteBlog | utils/list_helper.js:12-24 | the empty list gives the sentinel 0 and only it does; otherwise the result is a blog of the list whose likes are at least every blog's, and every earlier blog has strictly fewer (ties go to the earliest); the loop invariant is that the kept blog is the first maximum of the prefix scanned |
| ListHelper.FirstMaximumUnique | utils/list_helper.js:16-21 | the first maximum is unique, so the favourite is fully determined |
| ListHelper.InitialBlogsAggregates | tests/blog_helper.js:5-24 | on the three seeded blogs the total is 6 and the favourite is the third |
| Common.IdToString | models/user.js:26 | the string form of an id is a non-empty string of digits |
| Common.IdToStringInjective | controllers/blogs.js:88 | different ids have different string forms, so the owner check, which compares string forms, compares the ids themselves |
| BlogsController.ToLowerCase | controllers/blogs.js:13 | lower-casing keeps the length and lowers each character on its own |
| BlogsController.GetTokenFrom | controllers/blogs.js:10-17 | a token is returned exactly when the header is present and its first seven characters spell "bearer " in any case; the token is the header without those seven characters; otherwise null |
| BlogsController.BearerRoundTrip | controllers/blogs.js:13-14 | for any seven-character scheme that lower-cases to "bearer ", the scheme followed by a token gives back exactly that token |
| BlogsController.BearerAnyCase | controllers/blogs.js:13-14 | "Bearer ", "bearer " and "BEARER " all introduce a token |
| BlogsController.PostCaller | controllers/blogs.js:29-34 | the POST acts for a user exactly when a token was found, it is not empty, verification returned a payload and that payload carries an id; the user is that id |
| BlogsController.EmptyTokenNeverVerified | controllers/blogs.js:29-34 | when verification refuses the empty token, as the token library does, a verified token is never empty, so the POST's 401 comes only from a payload without id and the DELETE's 401 for an empty token never happens |
| BlogsController.StoredLikes | controllers/blogs.js:53-55 | missing likes are stored as 0; given likes are kept |
| BlogsController.CreateBlog | controllers/blogs.js:27-62 | a missing or bad token throws (verification of null throws); a payload without id gives 401, and so does an empty token if verification accepted it; an unknown user throws; a missing title or url gives 400; in each of these cases nothing changes; otherwise exactly one blog, owned by the caller with likes defaulted, is added under a fresh id, the blog count grows by one, and that id is appended to the end of the owner's `blogs` |
| BlogsController.UpdateLikes | controllers/blogs.js:64-76 | only the `likes` of the target blog change and the updated blog is returned; an unknown id throws and changes nothing; users and comments never change |
| BlogsController.DeleteBlog | controllers/blogs.js:78-94 | a missing or bad token throws; an empty token that verification accepted gives 401; an unknown blog or a payload without id throws; a caller who is not the blog's owner gives 401; in each of these cases nothing changes; the owner check compares the string forms of the two ids; the owner gets 204, exactly that blog is removed and the count drops by one |
| UsersController.Register | controllers/users.js:18-40 | a missing, empty or shorter-than-3 password gives 400 "invalid username or password" before any username rule; a short or taken username gives 400; neither changes the store; otherwise exactly one user is added under a fresh id holding `hash(password)`, the count grows by one, the username is present, the store still satisfies the schema, and the answer is that user's JSON without `passwordHash` |
| UsersController.ListUsers | controllers/users.js:5-16 | every stored user is listed as its JSON, and no listed user carries `passwordHash` |
| CommentsController.CreateComment | controllers/comments.js:14-36 | an unknown blog throws; missing or empty content gives 400; neither changes the store; otherwise exactly one comment, pointing at the route's blog, is added and returned, and its id is appended to the end of that blog's `comments`, with every other blog unchanged |
| CommentsController.ListComments | controllers/comments.js:9-12 | every stored comment is listed, whatever blog it belongs to and whatever id the route names |
| UserModel.UsernameRules | models/user.js:7-11 | a username shorter than three characters, or one a stored user already has, fails validation |
| UserModel.InsertKeepsSchema | models/user.js:6-22 | adding a user that passes validation under a fresh id keeps every username long enough and unique, and the new username is then taken |
| UserModel.ReplaceKeepsSchema | models/user.js:6-22 | re-saving a stored user with its username unchanged keeps the schema |
| UserModel.Transformed | models/user.js:25-30 | the transformed object has `id` set to the string form of `_id`, has no `_id`, `__v` or `passwordHash`, keeps every other key's value and adds no other key |
| UserModel.JsonObject.Transform | models/user.js:24-31 | the in-place transform (assign `id`, then delete the three keys) leaves exactly `Transformed` of the old object |
| UserModel.UserJsonShape | models/user.js:24-31 | a user's JSON has exactly the keys `id`, `blogs` and those of `username` and `name` that are set, with `username`, `name` and `blogs` unchanged and never the password hash |

## Left out

- app.js (routing, CORS, static files, the database connection) is not part of this model. Neither are the error and unknown-endpoint middleware, so the HTTP status of a `Thrown` outcome is not modelled.
- GET /api/blogs (controllers/blogs.js:19-25) is a plain listing with populated references and is not modelled.
- The login controller, the testing router and the blog and comment schemas are not part of this model. A blog or comment save is assumed always to succeed.
- `populate` projections are not modelled: listings carry ids where the source substitutes referenced documents.
- BlogsController.CreateBlog, BlogsController.DeleteBlog: `verify` may be any function, including one that accepts the empty token. The real token library refuses it, so the empty-token 401 clauses of these two contracts describe a case that cannot occur with it. `EmptyTokenNeverVerified` states this under that assumption.
- jsonwebtoken and bcrypt are foreign libraries, so they are function parameters. Their cryptography, the secret and token expiry are not modelled.
- Ids are natural numbers. Casting a route parameter or a payload id that is not a well-formed ObjectId (a CastError) is not modelled. The string form of an id is its decimal numeral, not 24 hex digits.
- Likes are unbounded integers. JavaScript numbers are floating point, and other JSON values (strings, NaN) are not modelled.
- BlogsController.UpdateLikes: takes the new likes as an integer. A PUT body without `likes` is not modelled, because what the update does with an undefined value is decided inside the database driver.
- String lengths count characters. JavaScript counts UTF-16 code units, which differ for characters outside the Basic Multilingual Plane.
- BlogsController.ToLowerCase: lowers only A to Z. This is exact for the `"bearer "` test: no other character lower-cases to one of its letters.
- The `__v` version counter is stored but its increments on array changes are not tracked.
- Each handler runs atomically. Concurrent requests and a failure between the two saves of the POST handlers are not modelled.
- For a failed user validation the source sends the validation error object; the model sends a tag with a fixed message.
- Listings are maps, so the order in which the database returns documents is not modelled.
- UsersController.Register: bcrypt draws a random salt for each hash. The `hash` parameter stands for hashing with the salt drawn for this one request, so the model does not say that two registrations with the same password store the same hash.
