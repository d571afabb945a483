/** The document database as the handlers see it: three collections (blogs,
    users, comments) held as maps from identifier to document, and the
    operations the handlers call on them (save a new document, save a changed
    one, update by id, remove by id). */
module Store {
  import opened Common
  import opened UserModel

  /** A stored blog. */
  datatype Blog = Blog(
    title: string,
    author: Option<string>,
    url: string,
    likes: int,
    user: Id,
    comments: seq<Id>)

  /** A stored comment and the blog it belongs to. */
  datatype Comment = Comment(content: string, blog: Id)

  class Database {
    var blogs: map<Id, Blog>
    var users: map<Id, User>
    var comments: map<Id, Comment>
    /** The next identifier handed out: larger than every one in use. */
    var nextId: Id

    ghost predicate Valid()
      reads this
    {
      && (forall id :: id in blogs ==> id < nextId)
      && (forall id :: id in users ==> id < nextId)
      && (forall id :: id in comments ==> id < nextId)
      && SchemaHolds(users)
    }

    constructor ()
      ensures Valid()
      ensures blogs == map[] && users == map[] && comments == map[]
    {
      blogs, users, comments := map[], map[], map[];
      nextId := 0;
    }

    /** An identifier no document of any collection has. */
    method NewId() returns (id: Id)
      requires Valid()
      modifies this`nextId
      ensures Valid()
      ensures id !in blogs && id !in users && id !in comments && id < nextId
    {
      id := nextId;
      nextId := nextId + 1;
    }

    /** `save()` of a new blog. */
    method InsertBlog(b: Blog) returns (id: Id)
      requires Valid()
      modifies this
      ensures Valid()
      ensures id !in old(blogs) && id !in old(users) && id !in old(comments)
      ensures blogs == old(blogs)[id := b]
      ensures users == old(users) && comments == old(comments)
    {
      id := NewId();
      blogs := blogs[id := b];
    }

    /** `save()` of a new user; the schema's validation has passed. */
    method InsertUser(u: User) returns (id: Id)
      requires Valid()
      requires UsernameValid(users, u.username)
      modifies this
      ensures Valid()
      ensures id !in old(blogs) && id !in old(users) && id !in old(comments)
      ensures users == old(users)[id := u]
      ensures blogs == old(blogs) && comments == old(comments)
    {
      id := NewId();
      InsertKeepsSchema(users, id, u);
      users := users[id := u];
    }

    /** `save()` of a new comment. */
    method InsertComment(c: Comment) returns (id: Id)
      requires Valid()
      modifies this
      ensures Valid()
      ensures id !in old(blogs) && id !in old(users) && id !in old(comments)
      ensures comments == old(comments)[id := c]
      ensures blogs == old(blogs) && users == old(users)
    {
      id := NewId();
      comments := comments[id := c];
    }

    /** `save()` of a stored blog after a change, or `findByIdAndUpdate`. */
    method ReplaceBlog(id: Id, b: Blog)
      requires Valid() && id in blogs
      modifies this`blogs
      ensures Valid()
      ensures blogs == old(blogs)[id := b]
    {
      blogs := blogs[id := b];
    }

    /** `save()` of a stored user after a change. Validation runs again; it
        passes because the username is the stored one. */
    method ReplaceUser(id: Id, u: User)
      requires Valid() && id in users
      requires u.username == users[id].username
      modifies this`users
      ensures Valid()
      ensures users == old(users)[id := u]
    {
      ReplaceKeepsSchema(users, id, u);
      users := users[id := u];
    }

    /** `findByIdAndRemove`. */
    method RemoveBlog(id: Id)
      requires Valid()
      modifies this`blogs
      ensures Valid()
      ensures blogs == old(blogs) - {id}
    {
      blogs := blogs - {id};
    }
  }

  /** Removing a present key takes exactly one entry away. */
  lemma RemoveOneSize<V>(m: map<Id, V>, id: Id)
    requires id in m
    ensures |m - {id}| == |m| - 1
  {
  }

  /** Adding an absent key adds exactly one entry. */
  lemma InsertOneSize<V>(m: map<Id, V>, id: Id, v: V)
    requires id !in m
    ensures |m[id := v]| == |m| + 1
  {
  }
}
