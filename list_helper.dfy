/** The aggregates of utils/list_helper.js over a list of blogs: the constant
    `dummy`, the total of the likes, and the favourite (most liked) blog. */
module ListHelper {
  import opened Common
  import opened Store

  /** Always 1, whatever the list. */
  function Dummy(blogs: seq<Blog>): (r: int)
    ensures r == 1
  {
    1
  }

  /** Adds the likes of the blogs one by one, the first blog first, to a
      running sum that starts at `sum`; `totalLikes` starts it at 0. */
  function ReduceLikes(sum: int, blogs: seq<Blog>): int
    decreases |blogs|
  {
    if blogs == [] then sum else ReduceLikes(sum + blogs[0].likes, blogs[1..])
  }

  /** The sum of the likes, as a reference definition independent of the
      order in which the source adds them up (the last blog peeled off first). */
  function SumOfLikes(blogs: seq<Blog>): int
    decreases |blogs|
  {
    if blogs == [] then 0 else SumOfLikes(blogs[..|blogs| - 1]) + blogs[|blogs| - 1].likes
  }

  lemma {:induction false} SumOfLikesPrepend(b: Blog, blogs: seq<Blog>)
    ensures SumOfLikes([b] + blogs) == b.likes + SumOfLikes(blogs)
    decreases |blogs|
  {
    if blogs != [] {
      var init := blogs[..|blogs| - 1];
      assert ([b] + blogs)[..|blogs|] == [b] + init;
      SumOfLikesPrepend(b, init);
    }
  }

  /** The fold started at `sum` adds the sum of all the likes to `sum`. */
  lemma {:induction false} ReduceLikesIsSum(sum: int, blogs: seq<Blog>)
    ensures ReduceLikes(sum, blogs) == sum + SumOfLikes(blogs)
    decreases |blogs|
  {
    if blogs != [] {
      ReduceLikesIsSum(sum + blogs[0].likes, blogs[1..]);
      assert blogs == [blogs[0]] + blogs[1..];
      SumOfLikesPrepend(blogs[0], blogs[1..]);
    }
  }

  /** `totalLikes`: 0 for the empty list, otherwise the fold from 0. Either
      way it is the sum of every blog's likes. */
  function TotalLikes(blogs: seq<Blog>): (r: int)
    ensures r == SumOfLikes(blogs)
  {
    ReduceLikesIsSum(0, blogs);
    if |blogs| == 0 then 0 else ReduceLikes(0, blogs)
  }

  /** The total of two lists put together is the sum of their totals. */
  lemma {:induction false} TotalLikesAppend(a: seq<Blog>, b: seq<Blog>)
    ensures TotalLikes(a + b) == TotalLikes(a) + TotalLikes(b)
    decreases |b|
  {
    if b != [] {
      var init := b[..|b| - 1];
      assert (a + b)[..|a + b| - 1] == a + init;
      TotalLikesAppend(a, init);
    } else {
      assert a + b == a;
    }
  }

  /** With no negative like counts, the total is at least every single
      blog's likes. */
  lemma {:induction false} TotalLikesBoundsEach(blogs: seq<Blog>, k: nat)
    requires forall j :: 0 <= j < |blogs| ==> blogs[j].likes >= 0
    requires k < |blogs|
    ensures blogs[k].likes <= TotalLikes(blogs)
    decreases |blogs|
  {
    var init := blogs[..|blogs| - 1];
    if k < |blogs| - 1 {
      TotalLikesBoundsEach(init, k);
    }
    assert TotalLikes(init) >= 0 by { TotalLikesNonNegative(init); }
  }

  lemma {:induction false} TotalLikesNonNegative(blogs: seq<Blog>)
    requires forall j :: 0 <= j < |blogs| ==> blogs[j].likes >= 0
    ensures TotalLikes(blogs) >= 0
    decreases |blogs|
  {
    if blogs != [] {
      TotalLikesNonNegative(blogs[..|blogs| - 1]);
    }
  }

  /** What `favoriteBlog` returns: the number 0 for an empty list, a blog
      otherwise. */
  datatype Favorite = Zero | Favorite(blog: Blog)

  /** Among the first `n` blogs, the one at `k` has the most likes and every
      blog before it has strictly fewer: it is the first maximum. */
  ghost predicate IsFirstMaximum(blogs: seq<Blog>, n: nat, k: nat)
  {
    && k < n <= |blogs|
    && (forall j :: 0 <= j < n ==> blogs[j].likes <= blogs[k].likes)
    && (forall j :: 0 <= j < k ==> blogs[j].likes < blogs[k].likes)
  }

  /** There is only one first maximum, so ties are settled in one way. */
  lemma FirstMaximumUnique(blogs: seq<Blog>, n: nat, k1: nat, k2: nat)
    requires IsFirstMaximum(blogs, n, k1) && IsFirstMaximum(blogs, n, k2)
    ensures k1 == k2
  {
    var l1, l2 := blogs[k1].likes, blogs[k2].likes;
    assert k2 < n ==> l2 <= l1;
    assert k1 < n ==> l1 <= l2;
  }

  /** `favoriteBlog`: the sentinel 0 for an empty list; otherwise the first
      blog with the most likes, found by one pass that replaces the current
      favourite only on strictly more likes. */
  method FavoriteBlog(blogs: seq<Blog>) returns (r: Favorite)
    ensures blogs == [] <==> r == Zero
    ensures r.Favorite? ==>
      exists k :: 0 <= k < |blogs| && blogs[k] == r.blog && IsFirstMaximum(blogs, |blogs|, k)
  {
    if |blogs| == 0 {
      return Zero;
    }
    var maxBlog := blogs[0];
    ghost var at := 0;
    for i := 1 to |blogs|
      invariant at < i && maxBlog == blogs[at]
      invariant IsFirstMaximum(blogs, i, at)
    {
      if blogs[i].likes > maxBlog.likes {
        maxBlog := blogs[i];
        at := i;
      }
    }
    return Favorite(maxBlog);
  }

  /** The three blogs the tests start from, all owned by the user `owner`. */
  function InitialBlogs(owner: Id): seq<Blog>
  {
    [ Blog("blog 1", Some("author 1"), "url 1", 1, owner, []),
      Blog("blog 2", Some("author 2"), "url 2", 2, owner, []),
      Blog("blog 3", Some("author 3"), "url 3", 3, owner, []) ]
  }

  /** On the initial blogs the total is 6 and the favourite is the third. */
  lemma InitialBlogsAggregates(owner: Id)
    ensures TotalLikes(InitialBlogs(owner)) == 6
    ensures IsFirstMaximum(InitialBlogs(owner), 3, 2)
  {
    var blogs := InitialBlogs(owner);
    assert blogs[..1][..0] == [];
    assert SumOfLikes(blogs[..1]) == 1;
    assert blogs[..2][..1] == blogs[..1];
    assert SumOfLikes(blogs[..2]) == 3;
    assert blogs[..3] == blogs;
  }
}
