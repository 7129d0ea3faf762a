/** The cross-posting route (src/app/api/crosspost/route.ts): the author of a post publishes it to
    a list of platforms, one at a time, getting one result per requested platform and one stored
    cross-post record per platform whose record could be written. The Ghost and WordPress API
    replies, the clock, and whether the database write of an iteration throws are parameters. */
module CrossPost {
  import opened Common

  datatype PostInfo = PostInfo(authorId: string, slug: string)

  /** What a `publishTo*` function settles to. */
  datatype Published = Published(success: bool, externalId: Option<string>, externalUrl: Option<string>,
                                 error: Option<string>)

  datatype Status = PUBLISHED | FAILED

  datatype CrossPostRecord = CrossPostRecord(postId: string, userId: string, platform: string,
                                             externalId: string, externalUrl: string, status: Status)

  /** One entry of the reply's `results`. */
  datatype CrossResult = CrossResult(platform: string, success: bool, externalUrl: Option<string>,
                                     error: Option<string>)

  const BLOGGER_BASE := "https://blogger-blog.blogspot.com/"
  const MEDIUM_BASE := "https://medium.com/@username/"
  const UNSUPPORTED := "Unsupported platform"
  const INTERNAL_ERROR := "Internal server error"

  /** The switch on the platform name; `network(i)` is what the Ghost or WordPress call of the i-th
      iteration settles to (its own failures are already folded into a failed result). */
  function Publish(platform: string, slug: string, network: Published, now: int): (r: Published)
    ensures r.success <==> platform in {"blogger", "medium"} || (platform in {"ghost", "wordpress"} && network.success)
    ensures platform !in {"ghost", "wordpress"} && !r.success ==> r.error == Some(UNSUPPORTED)
    ensures platform in {"blogger", "medium"} ==> r.externalUrl.Some? && r.externalId.Some?
  {
    if platform == "ghost" || platform == "wordpress" then network
    else if platform == "blogger" then
      Published(true, Some("blogger-" + IntToString(now)), Some(BLOGGER_BASE + slug + ".html"), None)
    else if platform == "medium" then
      Published(true, Some("medium-" + IntToString(now)), Some(MEDIUM_BASE + slug), None)
    else Published(false, None, None, Some(UNSUPPORTED))
  }

  /** Only Ghost and WordPress consult the API: for every other platform the outcome is the same
      whatever the API would have replied. */
  lemma PublishIgnoresNetworkElsewhere(platform: string, slug: string, a: Published, b: Published, now: int)
    requires platform !in {"ghost", "wordpress"}
    ensures Publish(platform, slug, a, now) == Publish(platform, slug, b, now)
  {
  }

  /** The Blogger and Medium URLs name the post: two posts published to the same one of these
      platforms get the same URL only when their slugs are equal. */
  lemma PublishedUrlNamesSlug(platform: string, s1: string, s2: string, n1: Published, n2: Published, t1: int, t2: int)
    requires platform == "blogger" || platform == "medium"
    requires Publish(platform, s1, n1, t1).externalUrl == Publish(platform, s2, n2, t2).externalUrl
    ensures s1 == s2
  {
    if platform == "blogger" {
      var u1, u2 := BLOGGER_BASE + s1 + ".html", BLOGGER_BASE + s2 + ".html";
      assert u1 == u2;
      assert s1 == u1[|BLOGGER_BASE|..|u1| - 5];
      assert s2 == u2[|BLOGGER_BASE|..|u2| - 5];
    } else {
      var u1, u2 := MEDIUM_BASE + s1, MEDIUM_BASE + s2;
      assert u1 == u2;
      assert s1 == u1[|MEDIUM_BASE|..];
      assert s2 == u2[|MEDIUM_BASE|..];
    }
  }

  /** `x || ""` for an optional string. */
  function OrEmpty(s: Option<string>): string
  {
    if s.Some? then s.value else ""
  }

  /** The record written for a platform: its name upper-cased, PUBLISHED exactly on success. */
  function RecordOf(postId: string, userId: string, platform: string, r: Published): (rec: CrossPostRecord)
    ensures rec.platform == Upper(platform)
    ensures rec.status == PUBLISHED <==> r.success
    ensures rec.externalId == OrEmpty(r.externalId) && rec.externalUrl == OrEmpty(r.externalUrl)
  {
    CrossPostRecord(postId, userId, Upper(platform), OrEmpty(r.externalId), OrEmpty(r.externalUrl),
                    if r.success then PUBLISHED else FAILED)
  }

  /** The entry pushed for a platform: its outcome, or a failed INTERNAL_ERROR entry when
      the iteration threw. */
  function ResultOf(platform: string, r: Published, threw: bool): (e: CrossResult)
    ensures e.platform == platform
    ensures threw ==> e == CrossResult(platform, false, None, Some(INTERNAL_ERROR))
    ensures !threw ==> e.success == r.success && e.error == r.error
    ensures !threw ==> (e.externalUrl.Some? <==> Given(r.externalUrl)) && (Given(r.externalUrl) ==> e.externalUrl == r.externalUrl)
  {
    if threw then CrossResult(platform, false, None, Some(INTERNAL_ERROR))
    else CrossResult(platform, r.success, if OrEmpty(r.externalUrl) == "" then None else r.externalUrl, r.error)
  }

  /** ResultOf keeps an empty external URL as null, as `result.externalUrl || null` does. */
  lemma ResultUrlNeverEmpty(platform: string, r: Published, threw: bool)
    ensures ResultOf(platform, r, threw).externalUrl != Some("")
  {
  }

  /** What each iteration's `publishTo*` call settles to, platform by platform; `clock(i)` is the
      `Date.now()` the i-th call reads. */
  function Outcomes(platforms: seq<string>, slug: string, network: int -> Published, clock: int -> int): (outs: seq<Published>)
    ensures |outs| == |platforms|
    ensures forall i :: 0 <= i < |platforms| ==> outs[i] == Publish(platforms[i], slug, network(i), clock(i))
  {
    seq(|platforms|, i requires 0 <= i < |platforms| => Publish(platforms[i], slug, network(i), clock(i)))
  }

  lemma OutcomeAt(platforms: seq<string>, slug: string, network: int -> Published, clock: int -> int, i: nat)
    requires i < |platforms|
    ensures Outcomes(platforms, slug, network, clock)[i] == Publish(platforms[i], slug, network(i), clock(i))
  {
  }

  /** The results the loop pushes for the first n platforms: one per platform, in order. */
  function Results(platforms: seq<string>, outs: seq<Published>, throws: int -> bool, n: nat): (rs: seq<CrossResult>)
    requires n <= |platforms| == |outs|
    ensures |rs| == n
    ensures forall i :: 0 <= i < n ==> rs[i] == ResultOf(platforms[i], outs[i], throws(i))
  {
    if n == 0 then []
    else Results(platforms, outs, throws, n - 1) + [ResultOf(platforms[n - 1], outs[n - 1], throws(n - 1))]
  }

  /** The records the loop writes for the first n platforms: one per iteration that did not throw. */
  function Records(postId: string, userId: string, platforms: seq<string>, outs: seq<Published>,
                   throws: int -> bool, n: nat): (rs: seq<CrossPostRecord>)
    requires n <= |platforms| == |outs|
    ensures |rs| <= n
  {
    if n == 0 then []
    else
      Records(postId, userId, platforms, outs, throws, n - 1)
      + (if throws(n - 1) then [] else [RecordOf(postId, userId, platforms[n - 1], outs[n - 1])])
  }

  /** Without a throwing iteration every platform gets its record, in request order. */
  lemma {:induction false} RecordsWithoutThrows(postId: string, userId: string, platforms: seq<string>,
                                                outs: seq<Published>, throws: int -> bool, n: nat)
    requires n <= |platforms| == |outs|
    requires forall i :: 0 <= i < n ==> !throws(i)
    ensures var rs := Records(postId, userId, platforms, outs, throws, n);
            |rs| == n && forall i :: 0 <= i < n ==> rs[i].platform == Upper(platforms[i])
  {
    if n > 0 {
      RecordsWithoutThrows(postId, userId, platforms, outs, throws, n - 1);
    }
  }

  /** One iteration extends the results by its entry and the records by its record, if any. */
  lemma LoopStep(postId: string, userId: string, platforms: seq<string>, outs: seq<Published>,
                 throws: int -> bool, n: nat)
    requires n < |platforms| == |outs|
    ensures Results(platforms, outs, throws, n + 1)
            == Results(platforms, outs, throws, n) + [ResultOf(platforms[n], outs[n], throws(n))]
    ensures Records(postId, userId, platforms, outs, throws, n + 1)
            == Records(postId, userId, platforms, outs, throws, n)
               + (if throws(n) then [] else [RecordOf(postId, userId, platforms[n], outs[n])])
  {
  }

  class CrossPostStore {
    var posts: map<string, PostInfo>
    var records: seq<CrossPostRecord>

    constructor (posts: map<string, PostInfo>)
      ensures this.posts == posts && records == []
    {
      this.posts := posts;
      records := [];
    }
  }

  /** The `for` loop over the platforms: one result per platform, in order, and the record of each
      iteration that did not throw, in order. */
  method PublishAll(id: string, me: string, ps: seq<string>, slug: string,
                    network: int -> Published, throws: int -> bool, clock: int -> int)
    returns (results: seq<CrossResult>, written: seq<CrossPostRecord>)
    ensures results == Results(ps, Outcomes(ps, slug, network, clock), throws, |ps|)
    ensures written == Records(id, me, ps, Outcomes(ps, slug, network, clock), throws, |ps|)
  {
    ghost var outs := Outcomes(ps, slug, network, clock);
    results, written := [], [];
    for i := 0 to |ps|
      invariant results == Results(ps, outs, throws, i)
      invariant written == Records(id, me, ps, outs, throws, i)
    {
      var result := Publish(ps[i], slug, network(i), clock(i));
      OutcomeAt(ps, slug, network, clock, i);
      LoopStep(id, me, ps, outs, throws, i);
      written := written + (if throws(i) then [] else [RecordOf(id, me, ps[i], result)]);
      results := results + [ResultOf(ps[i], result, throws(i))];
    }
  }

  /** POST: 401 without a session; 400 for a missing post id or a `platforms` that is not an array;
      404 for an unknown post; 403 for a post of someone else. Otherwise the reply succeeds with
      exactly one result per requested platform, in request order, and the records of the
      iterations that did not throw are appended; failures store nothing. */
  method CrossPostPost(store: CrossPostStore, session: Option<Session>, postId: Option<string>,
                       platforms: Option<seq<string>>, network: int -> Published, throws: int -> bool, clock: int -> int)
    returns (reply: Reply<seq<CrossResult>>)
    modifies store
    ensures store.posts == old(store.posts)
    ensures reply.Fail? ==> store.records == old(store.records)
    ensures SessionUser(session).None? ==> reply == Fail(401, "Unauthorized")
    ensures SessionUser(session).Some? && !(Given(postId) && platforms.Some?) ==>
              reply == Fail(400, "Missing required fields: postId and platforms")
    ensures SessionUser(session).Some? && Given(postId) && platforms.Some? ==>
              var me, id, ps := SessionUser(session).value, postId.value, platforms.value;
              if id !in store.posts then reply == Fail(404, "Post not found")
              else if store.posts[id].authorId != me then reply == Fail(403, "Unauthorized")
              else
                var slug := store.posts[id].slug;
                var outs := Outcomes(ps, slug, network, clock);
                reply == Ok(Results(ps, outs, throws, |ps|))
                && store.records == old(store.records) + Records(id, me, ps, outs, throws, |ps|)
  {
    var me := SessionUser(session);
    if me.None? {
      return Fail(401, "Unauthorized");
    }
    if !(Given(postId) && platforms.Some?) {
      return Fail(400, "Missing required fields: postId and platforms");
    }
    var id, ps := postId.value, platforms.value;
    if id !in store.posts {
      return Fail(404, "Post not found");
    }
    var post := store.posts[id];
    if post.authorId != me.value {
      return Fail(403, "Unauthorized");
    }
    var results, written := PublishAll(id, me.value, ps, post.slug, network, throws, clock);
    store.records := store.records + written;
    reply := Ok(results);
  }

  /** An unknown platform always fails as unsupported, unless its iteration threw. */
  lemma UnknownPlatformFails(platform: string, slug: string, network: Published, now: int)
    requires platform !in {"ghost", "wordpress", "blogger", "medium"}
    ensures ResultOf(platform, Publish(platform, slug, network, now), false)
              == CrossResult(platform, false, None, Some(UNSUPPORTED))
    ensures RecordOf("p", "u", platform, Publish(platform, slug, network, now)).status == FAILED
  {
  }
}
