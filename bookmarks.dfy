/** The bookmark route (src/app/api/bookmarks/route.ts): POST bookmarks or unbookmarks a post for the
    signed-in user, GET tells whether one post is bookmarked or lists the user's bookmarked posts as
    post cards. The bookmark table is a set of (post, user) pairs, which is its unique key. */
module Bookmarks {
  import opened Common
  import opened CardView

  /** A bookmark row: (post id, user id). */
  type Pair = (string, string)

  class BookmarkStore {
    var posts: map<string, PostRow>
    var bookmarks: set<Pair>

    /** Every bookmark refers to a stored post. */
    ghost predicate Valid()
      reads this
    {
      forall b :: b in bookmarks ==> b.0 in posts
    }

    constructor (posts: map<string, PostRow>)
      ensures Valid()
      ensures this.posts == posts && bookmarks == {}
    {
      this.posts := posts;
      bookmarks := {};
    }
  }

  /** The bookmark table after a successful "bookmark" and after a successful "unbookmark". */
  function Bookmarked(bookmarks: set<Pair>, p: Pair): (r: set<Pair>)
    ensures p in r && forall q :: q != p ==> (q in r <==> q in bookmarks)
  {
    bookmarks + {p}
  }

  function Unbookmarked(bookmarks: set<Pair>, p: Pair): (r: set<Pair>)
    ensures p !in r && forall q :: q != p ==> (q in r <==> q in bookmarks)
  {
    bookmarks - {p}
  }

  /** Bookmarking a post that was not bookmarked and then unbookmarking it restores the table, and
      the other way round. */
  lemma BookmarkThenUnbookmark(bookmarks: set<Pair>, p: Pair)
    ensures p !in bookmarks ==> Unbookmarked(Bookmarked(bookmarks, p), p) == bookmarks
    ensures p in bookmarks ==> Bookmarked(Unbookmarked(bookmarks, p), p) == bookmarks
  {
    if p !in bookmarks {
      assert Unbookmarked(Bookmarked(bookmarks, p), p) == bookmarks;
    } else {
      assert Bookmarked(Unbookmarked(bookmarks, p), p) == bookmarks;
    }
  }

  /** POST: 401 without a session, 400 for a missing post id or action, 404 for an unknown post.
      "bookmark" gives 400 when the pair exists and otherwise adds exactly that pair; "unbookmark"
      gives 400 when it is absent and otherwise removes exactly that pair; any other action gives
      400. Every failure leaves the table as it was. */
  method BookmarkPost(store: BookmarkStore, session: Option<Session>, postId: Option<string>, action: Option<string>)
    returns (reply: Reply<string>)
    requires store.Valid()
    modifies store
    ensures store.Valid()
    ensures store.posts == old(store.posts)
    ensures reply.Fail? ==> store.bookmarks == old(store.bookmarks)
    ensures SessionUser(session).None? ==> reply == Fail(401, "Unauthorized")
    ensures SessionUser(session).Some? && !(Given(postId) && Given(action)) ==>
              reply == Fail(400, "Post ID and action are required")
    ensures (SessionUser(session).Some? && Given(postId) && Given(action) && postId.value !in store.posts) ==>
              reply == Fail(404, "Post not found")
    ensures (SessionUser(session).Some? && Given(postId) && Given(action) && postId.value in store.posts) ==>
              var p := (postId.value, SessionUser(session).value);
              if action.value == "bookmark" then
                if p in old(store.bookmarks) then reply == Fail(400, "Post already bookmarked")
                else reply == Ok("bookmarked") && store.bookmarks == Bookmarked(old(store.bookmarks), p)
              else if action.value == "unbookmark" then
                if p !in old(store.bookmarks) then reply == Fail(400, "Post not bookmarked")
                else reply == Ok("unbookmarked") && store.bookmarks == Unbookmarked(old(store.bookmarks), p)
              else reply == Fail(400, "Invalid action. Use 'bookmark' or 'unbookmark'")
  {
    var me := SessionUser(session);
    if me.None? {
      return Fail(401, "Unauthorized");
    }
    if !(Given(postId) && Given(action)) {
      return Fail(400, "Post ID and action are required");
    }
    if postId.value !in store.posts {
      return Fail(404, "Post not found");
    }
    var p := (postId.value, me.value);
    if action.value == "bookmark" {
      if p in store.bookmarks {
        return Fail(400, "Post already bookmarked");
      }
      store.bookmarks := Bookmarked(store.bookmarks, p);
      reply := Ok("bookmarked");
    } else if action.value == "unbookmark" {
      if p !in store.bookmarks {
        return Fail(400, "Post not bookmarked");
      }
      store.bookmarks := Unbookmarked(store.bookmarks, p);
      reply := Ok("unbookmarked");
    } else {
      reply := Fail(400, "Invalid action. Use 'bookmark' or 'unbookmark'");
    }
  }

  /** GET with a post id: whether the signed-in user bookmarked it. */
  method IsBookmarked(store: BookmarkStore, session: Option<Session>, postId: string) returns (reply: Reply<bool>)
    requires postId != ""
    ensures SessionUser(session).None? ==> reply == Fail(401, "Unauthorized")
    ensures SessionUser(session).Some? ==> reply.Ok? && (reply.body <==> (postId, SessionUser(session).value) in store.bookmarks)
  {
    var me := SessionUser(session);
    if me.None? {
      return Fail(401, "Unauthorized");
    }
    reply := Ok((postId, me.value) in store.bookmarks);
  }

  /** The post ids the list query returns for a user: exactly the user's bookmarks, each once, in
      the order the database sorts them (newest bookmark first). */
  ghost predicate IsBookmarkList(ordered: seq<string>, bookmarks: set<Pair>, userId: string)
  {
    NoDuplicates(ordered) && forall id :: id in ordered <==> (id, userId) in bookmarks
  }

  /** GET without a post id: the user's bookmarked posts, each as its post card, in query order. */
  method BookmarkedPosts(store: BookmarkStore, session: Option<Session>, ordered: seq<string>)
    returns (reply: Reply<seq<CardData>>)
    requires store.Valid()
    requires SessionUser(session).Some? ==> IsBookmarkList(ordered, store.bookmarks, SessionUser(session).value)
    ensures SessionUser(session).None? ==> reply == Fail(401, "Unauthorized")
    ensures SessionUser(session).Some? ==>
              reply.Ok? && |reply.body| == |ordered|
              && forall i :: 0 <= i < |ordered| ==> ordered[i] in store.posts && reply.body[i] == CardOf(store.posts[ordered[i]])
  {
    var me := SessionUser(session);
    if me.None? {
      return Fail(401, "Unauthorized");
    }
    assert forall i :: 0 <= i < |ordered| ==> (ordered[i], me.value) in store.bookmarks;
    var posts := store.posts;
    var rows := seq(|ordered|, i requires 0 <= i < |ordered| => posts[ordered[i]]);
    var cards := ToCards(rows);
    reply := Ok(cards);
  }
}
