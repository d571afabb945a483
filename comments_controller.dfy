/** The comment routes of controllers/comments.js: adding a comment to a blog
    (POST) with the back-link from the blog, and the listing (GET). */
module CommentsController {
  import opened Common
  import opened Store

  /** The fields of a comment body (the content may be missing). */
  datatype CommentBody = CommentBody(content: Option<string>)

  /** POST /api/blogs/:id/comments. An id that names no blog makes the
      handler throw; missing or empty content is refused with 400. Either way
      the store is left as it was. Otherwise exactly one comment, pointing at
      the route's blog, is added, its id is appended to that blog's
      `comments`, and the answer is the saved comment. */
  method CreateComment(db: Database, blogId: Id, body: CommentBody)
    returns (r: Response<Saved<Comment>>)
    requires db.Valid()
    modifies db
    ensures db.Valid()
    ensures blogId !in old(db.blogs) ==> r == Thrown(TypeError)
    ensures blogId in old(db.blogs) && (body.content.None? || body.content.value == "")
      ==> r == BadRequest(MissingComment)
    ensures r.Ok? <==> blogId in old(db.blogs) && body.content.Some? && body.content.value != ""
    ensures !r.Ok? ==> db.blogs == old(db.blogs) && db.comments == old(db.comments)
    ensures r.Ok? ==>
      var id := r.body.id;
      && id !in old(db.comments)
      && r.body.doc == Comment(body.content.value, blogId)
      && db.comments == old(db.comments)[id := Comment(body.content.value, blogId)]
      && |db.comments| == |old(db.comments)| + 1
      && db.blogs == old(db.blogs)[blogId := old(db.blogs)[blogId].(comments := old(db.blogs)[blogId].comments + [id])]
    ensures db.users == old(db.users)
  {
    if blogId !in db.blogs {
      return Thrown(TypeError);
    }
    var blog := db.blogs[blogId];
    var comment := Comment(if body.content.Some? then body.content.value else "", blogId);
    if comment.content == "" {
      return BadRequest(MissingComment);
    }
    ghost var commentsBefore := db.comments;
    var id := db.InsertComment(comment);
    InsertOneSize(commentsBefore, id, comment);
    blog := blog.(comments := blog.comments + [id]);
    db.ReplaceBlog(blogId, blog);
    return Ok(Saved(id, comment));
  }

  /** GET /api/blogs/:id/comments: every stored comment, including those of
      other blogs; the route's id plays no part. */
  function ListComments(db: Database, routeId: Id): (r: map<Id, Comment>)
    reads db
    ensures forall id :: id in db.comments ==> id in r && r[id] == db.comments[id]
    ensures forall id :: id in r ==> id in db.comments
  {
    db.comments
  }
}
