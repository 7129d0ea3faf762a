/** The search route (src/app/api/search/route.ts): a signed-in user's query of at least two
    characters is answered from the search cache under `search:{q}:{type}` or dispatched to the
    posts, users or tags search, or to all three. The three tables are parameters, each in the
    order its query sorts by; each search selects the rows its `where` clause accepts and returns
    the `skip`/`take` window of them. */
module Search {
  import opened Common
  import opened Cache
  import opened Paging
  import CardView

  /** The rows of the three tables, with the relation counts the queries include; a post carries
      the names of its tags. */
  datatype PostRow = PostRow(id: string, title: string, excerpt: Option<string>, content: string, published: bool,
                             author: PostAuthor, tags: seq<string>, reactions: nat, comments: nat, publishedAt: Option<string>)
  datatype UserRow = UserRow(id: string, name: Option<string>, email: string, image: Option<string>,
                             bio: Option<string>, posts: nat, followers: nat)
  datatype TagRow = TagRow(id: string, name: string, color: Option<string>, posts: nat)

  /** The author fields a post row includes: id, name and image. */
  datatype PostAuthor = PostAuthor(id: string, name: Option<string>, image: Option<string>)

  /** One search result, tagged by its `type`. */
  datatype Hit =
    | PostHit(id: string, title: string, excerpt: string, author: PostAuthor, tags: seq<string>, reactions: nat, comments: nat,
              publishedAt: Option<string>)
    | UserHit(id: string, name: Option<string>, email: string, image: Option<string>, bio: Option<string>,
              posts: nat, followers: nat)
    | TagHit(id: string, tagName: string, color: Option<string>, postCount: nat)

  datatype Tables = Tables(posts: seq<PostRow>, users: seq<UserRow>, tags: seq<TagRow>)

  /** The order the queries sort by: posts by reaction count and tags by post count, most first;
      users are not sorted. */
  ghost predicate InQueryOrder(db: Tables)
  {
    (forall i, j :: 0 <= i < j < |db.posts| ==> db.posts[i].reactions >= db.posts[j].reactions)
    && (forall i, j :: 0 <= i < j < |db.tags| ==> db.tags[i].posts >= db.tags[j].posts)
  }

  /** The `where` clauses: a published post whose title, content, excerpt or one of whose tag
      names contains the text; a user whose name or email contains it; a tag whose name does. */
  predicate PostMatches(text: string, p: PostRow)
  {
    p.published
    && (Contains(p.title, text) || Contains(p.content, text) || (p.excerpt.Some? && Contains(p.excerpt.value, text))
        || exists k :: 0 <= k < |p.tags| && Contains(p.tags[k], text))
  }

  predicate UserMatches(text: string, u: UserRow)
  {
    (u.name.Some? && Contains(u.name.value, text)) || Contains(u.email, text)
  }

  predicate TagMatches(text: string, t: TagRow)
  {
    Contains(t.name, text)
  }

  /** The three `findMany` calls: the window of the matching rows, in table order. */
  function FindPosts(db: Tables, text: string, take: int, skip: int): (r: seq<PostRow>)
    ensures take >= 0 ==> |r| <= take
    ensures forall p :: p in r ==> p in db.posts && PostMatches(text, p)
  {
    Window(Filter(db.posts, (p: PostRow) => PostMatches(text, p)), skip, take)
  }

  function FindUsers(db: Tables, text: string, take: int, skip: int): (r: seq<UserRow>)
    ensures take >= 0 ==> |r| <= take
    ensures forall u :: u in r ==> u in db.users && UserMatches(text, u)
  {
    Window(Filter(db.users, (u: UserRow) => UserMatches(text, u)), skip, take)
  }

  function FindTags(db: Tables, text: string, take: int, skip: int): (r: seq<TagRow>)
    ensures take >= 0 ==> |r| <= take
    ensures forall t :: t in r ==> t in db.tags && TagMatches(text, t)
  {
    Window(Filter(db.tags, (t: TagRow) => TagMatches(text, t)), skip, take)
  }

  /** Tables in query order give posts with the most reactions first and tags with the most posts
      first, whatever the window. */
  lemma FoundInQueryOrder(db: Tables, text: string, take: int, skip: int)
    requires InQueryOrder(db)
    ensures var r := FindPosts(db, text, take, skip);
            forall i, j :: 0 <= i < j < |r| ==> r[i].reactions >= r[j].reactions
    ensures var r := FindTags(db, text, take, skip);
            forall i, j :: 0 <= i < j < |r| ==> r[i].posts >= r[j].posts
  {
    var ps := Filter(db.posts, (p: PostRow) => PostMatches(text, p));
    FilterKeepsOrder(db.posts, (p: PostRow) => PostMatches(text, p), (p: PostRow) => p.reactions);
    WindowKeepsOrder(ps, skip, take, (p: PostRow) => p.reactions);
    var ts := Filter(db.tags, (t: TagRow) => TagMatches(text, t));
    FilterKeepsOrder(db.tags, (t: TagRow) => TagMatches(text, t), (t: TagRow) => t.posts);
    WindowKeepsOrder(ts, skip, take, (t: TagRow) => t.posts);
  }

  const SEARCH_TTL: Ttl := 1000 * 60 * 2
  const DEFAULT_LIMIT: int := 20

  /** The text the three searches match: the `%{query}%` search term with every '%' removed. */
  function MatchText(query: string): (r: string)
    ensures '%' !in r
    ensures r == RemoveAll(query, '%')
  {
    var term := "%" + query + "%";
    RemoveAllAppend("%" + query, "%", '%');
    RemoveAllAppend("%", query, '%');
    assert RemoveAll("%", '%') == [];
    RemoveAll(term, '%')
  }

  /** A query without '%' is matched as it is. */
  lemma MatchTextOfPlainQuery(query: string)
    requires '%' !in query
    ensures MatchText(query) == query
  {
    RemoveAllAbsent(query, '%');
  }

  /** The result mappers. */
  function PostResult(p: PostRow): (h: Hit)
    ensures h.PostHit? && h.id == p.id && h.title == p.title && h.author == p.author && h.tags == p.tags
    ensures h.excerpt == CardView.Excerpt(p.excerpt, p.content)
    ensures h.reactions == p.reactions && h.comments == p.comments && h.publishedAt == p.publishedAt
  {
    PostHit(p.id, p.title, CardView.Excerpt(p.excerpt, p.content), p.author, p.tags, p.reactions, p.comments, p.publishedAt)
  }

  function UserResult(u: UserRow): (h: Hit)
    ensures h.UserHit? && h.id == u.id && h.name == u.name && h.email == u.email && h.image == u.image
    ensures h.bio == u.bio && h.posts == u.posts && h.followers == u.followers
  {
    UserHit(u.id, u.name, u.email, u.image, u.bio, u.posts, u.followers)
  }

  function TagResult(t: TagRow): (h: Hit)
    ensures h.TagHit? && h.id == t.id && h.tagName == t.name && h.color == t.color && h.postCount == t.posts
  {
    TagHit(t.id, t.name, t.color, t.posts)
  }

  function PostResults(rows: seq<PostRow>): (r: seq<Hit>)
    ensures |r| == |rows| && forall i :: 0 <= i < |r| ==> r[i] == PostResult(rows[i])
  {
    seq(|rows|, i requires 0 <= i < |rows| => PostResult(rows[i]))
  }

  function UserResults(rows: seq<UserRow>): (r: seq<Hit>)
    ensures |r| == |rows| && forall i :: 0 <= i < |r| ==> r[i] == UserResult(rows[i])
  {
    seq(|rows|, i requires 0 <= i < |rows| => UserResult(rows[i]))
  }

  function TagResults(rows: seq<TagRow>): (r: seq<Hit>)
    ensures |r| == |rows| && forall i :: 0 <= i < |r| ==> r[i] == TagResult(rows[i])
  {
    seq(|rows|, i requires 0 <= i < |rows| => TagResult(rows[i]))
  }

  /** Posts come before users, users before tags. */
  function Rank(h: Hit): nat
  {
    match h
    case PostHit(_, _, _, _, _, _, _, _) => 0
    case UserHit(_, _, _, _, _, _, _) => 1
    case TagHit(_, _, _, _) => 2
  }

  /** How many results of one kind a list holds. */
  function CountRank(r: seq<Hit>, rank: nat): nat
  {
    if r == [] then 0 else (if Rank(r[0]) == rank then 1 else 0) + CountRank(r[1..], rank)
  }

  lemma {:induction false} CountRankAppend(a: seq<Hit>, b: seq<Hit>, rank: nat)
    ensures CountRank(a + b, rank) == CountRank(a, rank) + CountRank(b, rank)
  {
    if a != [] {
      assert (a + b)[1..] == a[1..] + b;
      CountRankAppend(a[1..], b, rank);
    } else {
      assert a + b == b;
    }
  }

  lemma {:induction false} CountRankBound(r: seq<Hit>, rank: nat)
    ensures CountRank(r, rank) <= |r|
    ensures (forall i :: 0 <= i < |r| ==> Rank(r[i]) != rank) ==> CountRank(r, rank) == 0
  {
    if r != [] {
      CountRankBound(r[1..], rank);
    }
  }

  /** What `searchAll` returns as a value: the first `ceil(limit / 3)` posts, users and tags in that
      order, then `slice(0, limit)` of the whole. */
  function MergedResults(posts: seq<Hit>, users: seq<Hit>, tags: seq<Hit>, limit: int): seq<Hit>
  {
    var c := CeilDiv(limit, 3);
    JsSlice(JsSlice(posts, 0, c) + JsSlice(users, 0, c) + JsSlice(tags, 0, c), 0, limit)
  }

  /** The three capped lists, each of one kind. */
  ghost predicate Capped(p: seq<Hit>, u: seq<Hit>, t: seq<Hit>, c: int)
  {
    |p| <= c && |u| <= c && |t| <= c
    && (forall i :: 0 <= i < |p| ==> Rank(p[i]) == 0)
    && (forall i :: 0 <= i < |u| ==> Rank(u[i]) == 1)
    && (forall i :: 0 <= i < |t| ==> Rank(t[i]) == 2)
  }

  /** A prefix of the capped lists holds at most c results of each kind. */
  lemma PrefixCounts(p: seq<Hit>, u: seq<Hit>, t: seq<Hit>, c: int, r: seq<Hit>, rank: nat)
    requires Capped(p, u, t, c) && r <= p + u + t
    ensures CountRank(r, rank) <= c
  {
    var all := p + u + t;
    var rest := all[|r|..];
    assert all == r + rest;
    CountRankAppend(r, rest, rank);
    CountRankAppend(p + u, t, rank);
    CountRankAppend(p, u, rank);
    CountRankBound(p, rank);
    CountRankBound(u, rank);
    CountRankBound(t, rank);
  }

  /** The kind of the i-th result of the concatenated capped lists. */
  lemma RankAt(p: seq<Hit>, u: seq<Hit>, t: seq<Hit>, c: int, i: int)
    requires Capped(p, u, t, c) && 0 <= i < |p + u + t|
    ensures Rank((p + u + t)[i]) == if i < |p| then 0 else if i < |p| + |u| then 1 else 2
  {
    var all := p + u + t;
    if i < |p| { assert all[i] == p[i]; }
    else if i < |p| + |u| { assert all[i] == u[i - |p|]; }
    else { assert all[i] == t[i - |p| - |u|]; }
  }

  /** A prefix of the capped lists keeps posts before users before tags. */
  lemma PrefixOrdered(p: seq<Hit>, u: seq<Hit>, t: seq<Hit>, c: int, r: seq<Hit>)
    requires Capped(p, u, t, c) && r <= p + u + t
    ensures forall i, j :: 0 <= i < j < |r| ==> Rank(r[i]) <= Rank(r[j])
  {
    forall i, j | 0 <= i < j < |r| ensures Rank(r[i]) <= Rank(r[j]) {
      assert r[i] == (p + u + t)[i] && r[j] == (p + u + t)[j];
      RankAt(p, u, t, c, i);
      RankAt(p, u, t, c, j);
    }
  }

  /** For a non-negative limit the merge keeps a prefix of the three capped lists, so at most
      `limit` results, at most `ceil(limit / 3)` of each kind, and posts before users before tags. */
  lemma MergedResultsBounds(rows: seq<PostRow>, users: seq<UserRow>, tags: seq<TagRow>, limit: int)
    requires limit >= 0
    ensures var r := MergedResults(PostResults(rows), UserResults(users), TagResults(tags), limit);
            |r| <= limit
            && CountRank(r, 0) <= CeilDiv(limit, 3) && CountRank(r, 1) <= CeilDiv(limit, 3)
            && CountRank(r, 2) <= CeilDiv(limit, 3)
            && forall i, j :: 0 <= i < j < |r| ==> Rank(r[i]) <= Rank(r[j])
  {
    var c := CeilDiv(limit, 3);
    var p, u, t := JsSlice(PostResults(rows), 0, c), JsSlice(UserResults(users), 0, c), JsSlice(TagResults(tags), 0, c);
    assert Capped(p, u, t, c) by {
      assert forall x :: x in p ==> Rank(x) == 0;
      assert forall x :: x in u ==> Rank(x) == 1;
      assert forall x :: x in t ==> Rank(x) == 2;
    }
    var r := JsSlice(p + u + t, 0, limit);
    assert r <= p + u + t;
    PrefixCounts(p, u, t, c, r, 0);
    PrefixCounts(p, u, t, c, r, 1);
    PrefixCounts(p, u, t, c, r, 2);
    PrefixOrdered(p, u, t, c, r);
  }

  /** `searchAll(term, limit, offset)`: each table is searched for `ceil(limit / 3)` rows from the
      start (the offset is not used), their first `ceil(limit / 3)` results are pushed in the order
      posts, users, tags, and the first `limit` of them returned. */
  method SearchAll(db: Tables, text: string, limit: int, offset: int) returns (results: seq<Hit>)
    ensures results == MergedResults(PostResults(FindPosts(db, text, CeilDiv(limit, 3), 0)),
                                     UserResults(FindUsers(db, text, CeilDiv(limit, 3), 0)),
                                     TagResults(FindTags(db, text, CeilDiv(limit, 3), 0)), limit)
    ensures limit >= 0 ==> |results| <= limit
  {
    var c := CeilDiv(limit, 3);
    var acc: seq<Hit> := [];
    var posts := PostResults(FindPosts(db, text, c, 0));
    var p := JsSlice(posts, 0, c);
    acc := acc + p;
    var users := UserResults(FindUsers(db, text, c, 0));
    var u := JsSlice(users, 0, c);
    acc := acc + u;
    var tags := TagResults(FindTags(db, text, c, 0));
    var t := JsSlice(tags, 0, c);
    acc := acc + t;
    assert acc == p + u + t;
    results := JsSlice(acc, 0, limit);
  }

  /** `performSearch(query, type, limit, offset)`: "posts", "users" and "tags" search their own table
      for `limit` rows after `offset`; every other type searches all three. */
  method PerformSearch(db: Tables, query: string, kind: string, limit: int, offset: int) returns (results: seq<Hit>)
    ensures kind == "posts" ==> results == PostResults(FindPosts(db, MatchText(query), limit, offset))
    ensures kind == "users" ==> results == UserResults(FindUsers(db, MatchText(query), limit, offset))
    ensures kind == "tags" ==> results == TagResults(FindTags(db, MatchText(query), limit, offset))
    ensures kind != "posts" && kind != "users" && kind != "tags" ==>
              results == MergedResults(PostResults(FindPosts(db, MatchText(query), CeilDiv(limit, 3), 0)),
                                       UserResults(FindUsers(db, MatchText(query), CeilDiv(limit, 3), 0)),
                                       TagResults(FindTags(db, MatchText(query), CeilDiv(limit, 3), 0)), limit)
  {
    var text := MatchText(query);
    if kind == "posts" {
      results := PostResults(FindPosts(db, text, limit, offset));
    } else if kind == "users" {
      results := UserResults(FindUsers(db, text, limit, offset));
    } else if kind == "tags" {
      results := TagResults(FindTags(db, text, limit, offset));
    } else {
      results := SearchAll(db, text, limit, offset);
    }
  }

  datatype SearchReply = SearchReply(query: string, kind: string, results: seq<Hit>, limit: int, offset: int,
                                     hasMore: bool)

  /** JavaScript's `query.trim().length < 2` test, true for a usable query. */
  predicate Searchable(q: Option<string>)
  {
    Given(q) && |Trim(q.value)| >= 2
  }

  /** GET: 401 without a session, 400 for a missing query or one shorter than two characters once
      trimmed. Otherwise the type defaults to "all"; the result list comes from the cache under the
      key of the untrimmed query and the type, or from `performSearch` on the trimmed query, which
      is then cached for two minutes (a hit refreshes the entry's age, a miss may evict one other
      entry); `hasMore` says whether exactly `limit` results came back. */
  method SearchGet(cache: CacheManager<seq<Hit>>, db: Tables, session: Option<Session>, q: Option<string>,
                   kind: Option<string>, limitParam: Option<int>, offsetParam: Option<int>, now: int)
    returns (reply: Reply<SearchReply>)
    requires cache.Valid()
    modifies cache
    ensures cache.Valid()
    ensures SessionUser(session).None? ==> reply == Fail(401, "Unauthorized") && cache.entries == old(cache.entries)
    ensures SessionUser(session).Some? && !Searchable(q) ==>
              reply == Fail(400, "Search query must be at least 2 characters") && cache.entries == old(cache.entries)
    ensures SessionUser(session).Some? && Searchable(q) ==>
              var t := if Given(kind) then kind.value else "all";
              var key := SearchKey(q.value, t);
              reply.Ok? && reply.body.query == Trim(q.value) && reply.body.kind == t
              && reply.body.limit == IntParam(limitParam, DEFAULT_LIMIT) && reply.body.offset == IntParam(offsetParam, 0)
              && (reply.body.hasMore <==> |reply.body.results| == reply.body.limit)
              && (old(cache.Visible(key, now)).Some? ==>
                    reply.body.results == old(cache.Visible(key, now)).value
                    && cache.entries == old(cache.entries)[key := old(cache.entries)[key].(start := now)])
              && (old(cache.Visible(key, now)).None? ==>
                    StoredWithOneEviction(old(cache.entries), cache.entries, key,
                                          Entry(reply.body.results, now, SEARCH_TTL), cache.max))
    ensures SessionUser(session).Some? && Searchable(q) ==>
              var t := if Given(kind) then kind.value else "all";
              var text := MatchText(Trim(q.value));
              var limit, offset := IntParam(limitParam, DEFAULT_LIMIT), IntParam(offsetParam, 0);
              old(cache.Visible(SearchKey(q.value, t), now)).None? && reply.Ok? ==>
                (t == "posts" ==> reply.body.results == PostResults(FindPosts(db, text, limit, offset)))
                && (t == "users" ==> reply.body.results == UserResults(FindUsers(db, text, limit, offset)))
                && (t == "tags" ==> reply.body.results == TagResults(FindTags(db, text, limit, offset)))
                && (t != "posts" && t != "users" && t != "tags" ==>
                      reply.body.results == MergedResults(PostResults(FindPosts(db, text, CeilDiv(limit, 3), 0)),
                                                          UserResults(FindUsers(db, text, CeilDiv(limit, 3), 0)),
                                                          TagResults(FindTags(db, text, CeilDiv(limit, 3), 0)), limit))
  {
    if SessionUser(session).None? {
      return Fail(401, "Unauthorized");
    }
    var t := if Given(kind) then kind.value else "all";
    var limit := IntParam(limitParam, DEFAULT_LIMIT);
    var offset := IntParam(offsetParam, 0);
    if !Searchable(q) {
      return Fail(400, "Search query must be at least 2 characters");
    }
    var key := SearchKey(q.value, t);
    // What the fetcher would settle to; on a hit WithCache does not call it.
    var computed := PerformSearch(db, Trim(q.value), t, limit, offset);
    var r, calls := WithCache(cache, key, Fetched(computed), Some(SEARCH_TTL), now);
    var results := r.value;
    reply := Ok(SearchReply(Trim(q.value), t, results, limit, offset, |results| == limit));
  }
}
