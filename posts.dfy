/** The post list and post creation route (src/app/api/posts/route.ts). The database is the
    `PostStore` (posts by id, tags by their unique name, post-tag links); the list query reads
    the post table as a sequence of rows, newest first, each with its author and tag names. */
module Posts {
  import opened Common
  import opened Cache
  import opened Paging
  import opened Text

  datatype Pagination = Pagination(page: int, limit: int, total: nat, pages: Option<int>)
  datatype PostList<P> = PostList(posts: seq<P>, pagination: Pagination)

  /** One list page stays cached for 5 minutes. */
  const LIST_TTL: Ttl := 1000 * 60 * 5

  /** The GET cache key: `posts:{page}:{limit}`, then `:tag:{tag}` for a given tag, then
      `:author:{author}` for a given author. */
  function ListKey(page: int, limit: int, tag: Option<string>, author: Option<string>): string
  {
    PostsKey(page, limit)
    + (if Given(tag) then ":tag:" + tag.value else "")
    + (if Given(author) then ":author:" + author.value else "")
  }

  /** The key extends `posts:{page}:{limit}` and equals it exactly when neither filter is given. */
  lemma ListKeyUnfiltered(page: int, limit: int, tag: Option<string>, author: Option<string>)
    ensures PostsKey(page, limit) <= ListKey(page, limit, tag, author)
    ensures ListKey(page, limit, tag, author) == PostsKey(page, limit) <==> !Given(tag) && !Given(author)
  {
    var k := ListKey(page, limit, tag, author);
    if Given(tag) || Given(author) {
      assert |k| > |PostsKey(page, limit)|;
    }
  }

  /** A post invalidation drops an unfiltered list page exactly when it is one of pages 1..5 of 10 posts. */
  lemma ListKeyInvalidated(postId: string, page: int, limit: int)
    ensures ListKey(page, limit, None, None) in InvalidatedPostKeys(postId) <==> 1 <= page <= 5 && limit == 10
  {
    ListKeyUnfiltered(page, limit, None, None);
    InvalidatedListKeys(postId, page, limit);
  }

  /** The key does not separate its parts: a tag containing ":author:" collides with a tag-and-author query. */
  lemma ListKeyAmbiguous()
    ensures ListKey(1, 10, Some("x:author:y"), None) == ListKey(1, 10, Some("x"), Some("y"))
  {
    assert ":tag:" + "x:author:y" == ":tag:" + "x" + ":author:" + "y";
  }

  /** A post row as the list query sees it, with the names of its tags. */
  datatype ListedPost = ListedPost(id: string, authorId: string, published: bool, tagNames: seq<string>)

  /** The list query's `where`: published, linked to a tag of that name when a tag is given, by
      that author when an author is given. */
  predicate Listed(tag: Option<string>, author: Option<string>, p: ListedPost)
  {
    p.published && (Given(tag) ==> tag.value in p.tagNames) && (Given(author) ==> p.authorId == author.value)
  }

  /** The rows the `where` clause selects, in table order. */
  function ListSelection(table: seq<ListedPost>, tag: Option<string>, author: Option<string>): (s: seq<ListedPost>)
    ensures forall p :: p in s <==> p in table && Listed(tag, author, p)
  {
    Filter(table, (p: ListedPost) => Listed(tag, author, p))
  }

  /** GET: page defaults to 1 and limit to 10. A cached page of the key is answered as it is.
      Otherwise the reply is the window `[skip, skip + limit)` of what the `where` clause selects
      from `table` (newest first), with the selection's size as the total and
      `pages = ceil(total / limit)`, cached for 5 minutes; every other cached entry stays, apart
      from at most one eviction. */
  method ListPosts(cache: CacheManager<PostList<ListedPost>>, pageParam: Option<int>, limitParam: Option<int>,
                   tag: Option<string>, author: Option<string>, table: seq<ListedPost>, now: int)
    returns (r: PostList<ListedPost>)
    requires cache.Valid()
    modifies cache
    ensures cache.Valid()
    ensures var key := ListKey(IntParam(pageParam, 1), IntParam(limitParam, 10), tag, author);
            old(cache.Visible(key, now)).Some? ==> r == old(cache.Visible(key, now)).value
    ensures var page, limit := IntParam(pageParam, 1), IntParam(limitParam, 10);
            var key := ListKey(page, limit, tag, author);
            old(cache.Visible(key, now)).None? ==>
              var selected := ListSelection(table, tag, author);
              r == PostList(PageOf(selected, page, limit), Pagination(page, limit, |selected|, Pages(|selected|, limit)))
              && StoredWithOneEviction(old(cache.entries), cache.entries, key, Entry(r, now, LIST_TTL), cache.max)
    ensures var limit := IntParam(limitParam, 10);
            old(cache.Visible(ListKey(IntParam(pageParam, 1), limit, tag, author), now)).None? ==>
              (limit >= 0 ==> |r.posts| <= limit)
              && forall p :: p in r.posts ==> p in table && Listed(tag, author, p)
  {
    var page := IntParam(pageParam, 1);
    var limit := IntParam(limitParam, 10);
    var cacheKey := ListKey(page, limit, tag, author);
    var cachedResult := cache.Get(cacheKey, now);
    if cachedResult.Some? {
      return cachedResult.value;
    }
    var selected := ListSelection(table, tag, author);
    r := PostList(PageOf(selected, page, limit), Pagination(page, limit, |selected|, Pages(|selected|, limit)));
    cache.Set(cacheKey, r, Some(LIST_TTL), now);
    StoredAfterPurge(old(cache.entries), cache.entries, cacheKey, Entry(r, now, LIST_TTL), cache.max);
  }

  /** On a miss, the post the selection holds at index i is served on page i / limit + 1 of that
      limit; pages past the last are empty. */
  lemma ListedOnItsPage(table: seq<ListedPost>, tag: Option<string>, author: Option<string>, i: nat, limit: int,
                        page: int)
    requires limit > 0 && i < |ListSelection(table, tag, author)|
    ensures var selected := ListSelection(table, tag, author);
            var p := PageOf(selected, i / limit + 1, limit); i % limit < |p| && p[i % limit] == selected[i]
    ensures var selected := ListSelection(table, tag, author);
            page > Pages(|selected|, limit).value ==> PageOf(selected, page, limit) == []
  {
    var selected := ListSelection(table, tag, author);
    RowOnItsPage(selected, i, limit);
    if page > Pages(|selected|, limit).value {
      PageBeyondLast(selected, page, limit);
    }
  }

  // ---------------------------------------------------------------- POST

  datatype Post = Post(id: string, title: string, slug: string, content: string, excerpt: Option<string>,
                       published: bool, publishedAt: Option<int>, readingTime: nat, wordCount: nat,
                       authorId: string)

  datatype Tag = Tag(name: string, slug: string)

  /** The JSON body; `tags` is None when it is not an array, `published` absent counts as false. */
  datatype NewPost = NewPost(title: Option<string>, content: Option<string>, excerpt: Option<string>,
                             tags: Option<seq<string>>, published: bool)

  /** The row `prisma.post.create` stores. */
  function NewRow(id: string, title: string, content: string, excerpt: Option<string>, published: bool,
                  author: string, now: int): (p: Post)
    ensures p.publishedAt.Some? <==> published
    ensures p.publishedAt.Some? ==> p.publishedAt.value == now
    ensures p.wordCount == WordCount(content) && p.readingTime == ReadingTime(WordCount(content))
    ensures p.slug == Slug(title)
  {
    Post(id, title, Slug(title), content, excerpt, published, if published then Some(now) else None,
         ReadingTime(WordCount(content)), WordCount(content), author)
  }

  /** The tag names the loop visits: those of a non-empty array, none otherwise. */
  function TagNames(tags: Option<seq<string>>): (r: seq<string>)
    ensures tags.Some? ==> r == tags.value
    ensures tags.None? ==> r == []
  {
    if tags.Some? && |tags.value| > 0 then tags.value else []
  }

  /** The tag table after upserting `names` in order: an existing tag is left as it is, a missing one
      is created with the tag slug of its name. */
  function Upserted(tags: map<string, Tag>, names: seq<string>): (r: map<string, Tag>)
    ensures r.Keys == tags.Keys + (set n | n in names)
    ensures forall n :: n in tags ==> r[n] == tags[n]
    ensures forall n :: n in r && n !in tags ==> r[n] == Tag(n, TagSlug(n))
    decreases |names|
  {
    if names == [] then tags
    else
      var t := Upserted(tags, names[..|names| - 1]);
      var n := names[|names| - 1];
      assert forall m :: m in names <==> m in names[..|names| - 1] || m == n;
      UpsertOne(t, n)
  }

  /** `tag.upsert` of one name: an existing tag is kept, a missing one created. */
  function UpsertOne(tags: map<string, Tag>, n: string): map<string, Tag>
  {
    if n in tags then tags else tags[n := Tag(n, TagSlug(n))]
  }

  /** The post-tag links created for `names`, one per name in order. */
  function Links(postId: string, names: seq<string>): (r: seq<(string, string)>)
    ensures |r| == |names|
    ensures forall i :: 0 <= i < |names| ==> r[i] == (postId, names[i])
  {
    seq(|names|, i requires 0 <= i < |names| => (postId, names[i]))
  }

  lemma LinksAppend(postId: string, names: seq<string>, n: string)
    ensures Links(postId, names + [n]) == Links(postId, names) + [(postId, n)]
  {
    var a, b := Links(postId, names + [n]), Links(postId, names) + [(postId, n)];
    assert |a| == |b|;
    forall i | 0 <= i < |a| ensures a[i] == b[i] {
      assert (names + [n])[i] == if i < |names| then names[i] else n;
    }
  }

  /** Upserting one more name extends the upsert of the names before it. */
  lemma UpsertedStep(tags: map<string, Tag>, names: seq<string>, i: nat)
    requires i < |names|
    ensures Upserted(tags, names[..i + 1]) == UpsertOne(Upserted(tags, names[..i]), names[i])
  {
    assert names[..i + 1][..i] == names[..i];
  }

  lemma LinksStep(postId: string, names: seq<string>, i: nat)
    requires i < |names|
    ensures Links(postId, names[..i + 1]) == Links(postId, names[..i]) + [(postId, names[i])]
  {
    assert names[..i + 1] == names[..i] + [names[i]];
    LinksAppend(postId, names[..i], names[i]);
  }

  /** The POST handler's tag loop: each name is upserted into the tag table and linked to the
      post, in order. */
  method LinkTags(tags0: map<string, Tag>, links0: seq<(string, string)>, postId: string, names: seq<string>)
    returns (tags: map<string, Tag>, links: seq<(string, string)>)
    ensures tags == Upserted(tags0, names)
    ensures links == links0 + Links(postId, names)
  {
    tags, links := tags0, links0;
    for i := 0 to |names|
      invariant tags == Upserted(tags0, names[..i])
      invariant links == links0 + Links(postId, names[..i])
    {
      var tagName := names[i];
      UpsertedStep(tags0, names, i);
      LinksStep(postId, names, i);
      tags := UpsertOne(tags, tagName);
      links := links + [(postId, tagName)];
    }
    assert names[..|names|] == names;
  }

  class PostStore {
    var posts: map<string, Post>
    var tags: map<string, Tag>
    var postTags: seq<(string, string)>

    constructor ()
      ensures posts == map[] && tags == map[] && postTags == []
    {
      posts, tags, postTags := map[], map[], [];
    }
  }

  /** POST: an anonymous request gets 401 and a missing title or content 400, with nothing changed.
      Otherwise the post is stored under the new id, each tag name is upserted and linked in order,
      and the post cache is cleared, whatever it holds. `newId` is the id the database generates. */
  method CreatePost<V>(store: PostStore, cache: CacheManager<V>, session: Option<Session>,
                    req: NewPost, newId: string, now: int)
    returns (r: Reply<Post>)
    requires cache.Valid()
    requires newId !in store.posts
    modifies store, cache
    ensures cache.Valid()
    ensures SessionUser(session).None? ==> r == Fail(401, "Unauthorized")
    ensures SessionUser(session).Some? && !(Given(req.title) && Given(req.content)) ==>
              r == Fail(400, "Title and content are required")
    ensures r.Fail? ==> unchanged(store) && unchanged(cache)
    ensures SessionUser(session).Some? && Given(req.title) && Given(req.content) ==>
              r == Ok(NewRow(newId, req.title.value, req.content.value, req.excerpt, req.published,
                             SessionUser(session).value, now))
    ensures r.Ok? ==>
              store.posts == old(store.posts)[newId := r.body]
              && store.tags == Upserted(old(store.tags), TagNames(req.tags))
              && store.postTags == old(store.postTags) + Links(newId, TagNames(req.tags))
              && cache.entries == map[]
  {
    var user := SessionUser(session);
    if user.None? {
      return Fail(401, "Unauthorized");
    }
    if !(Given(req.title) && Given(req.content)) {
      return Fail(400, "Title and content are required");
    }
    var post := NewRow(newId, req.title.value, req.content.value, req.excerpt, req.published, user.value, now);
    store.posts := store.posts[newId := post];
    store.tags, store.postTags := LinkTags(store.tags, store.postTags, newId, TagNames(req.tags));
    cache.Clear();
    r := Ok(post);
  }

  /** The one post cache serves both handlers: once a post is created, every listing misses the
      cache, so the next GET of any page is read from the table. */
  method CreateThenList(store: PostStore, cache: CacheManager<PostList<ListedPost>>, session: Option<Session>,
                        req: NewPost, newId: string, created: int, pageParam: Option<int>,
                        limitParam: Option<int>, tag: Option<string>, author: Option<string>,
                        table: seq<ListedPost>, now: int)
    returns (reply: Reply<Post>, listing: PostList<ListedPost>)
    requires cache.Valid()
    requires newId !in store.posts
    modifies store, cache
    ensures cache.Valid()
    ensures reply.Ok? ==>
              var page, limit := IntParam(pageParam, 1), IntParam(limitParam, 10);
              var selected := ListSelection(table, tag, author);
              listing == PostList(PageOf(selected, page, limit), Pagination(page, limit, |selected|, Pages(|selected|, limit)))
              && cache.entries.Keys == {ListKey(page, limit, tag, author)}
  {
    reply := CreatePost(store, cache, session, req, newId, created);
    ghost var cleared := cache.entries;
    listing := ListPosts(cache, pageParam, limitParam, tag, author, table, now);
    if reply.Ok? {
      assert cleared == map[];
    }
  }
}
