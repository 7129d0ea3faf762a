/** The recommendation route (src/app/api/ai/recommend/route.ts): the user's preferred tags are the
    ten tags that occur most often among the posts they reacted to; the basic recommendations turn
    the posts the popularity query selects from the post table into entries whose reason names the
    preferred tags a post matches. The user's history, the post table and the language-model reply
    are parameters. */
module Recommend {
  import opened Common
  import opened Paging

  /** The number of occurrences of t in s. */
  function Count(s: seq<string>, t: string): (n: nat)
    ensures n <= |s|
    ensures n > 0 <==> t in s
  {
    if s == [] then 0
    else Count(s[..|s| - 1], t) + (if s[|s| - 1] == t then 1 else 0)
  }

  /** The tag names of every reacted post, reaction by reaction: `reaction.post.tags?.forEach`.
      A post without tags contributes the empty list. */
  function Flatten(tagLists: seq<seq<string>>): (all: seq<string>)
  {
    if tagLists == [] then []
    else Flatten(tagLists[..|tagLists| - 1]) + tagLists[|tagLists| - 1]
  }

  /** What `tagFrequency` should hold once every occurrence is counted: one key per tag that
      occurs, mapped to its number of occurrences. */
  function Frequency(all: seq<string>): (freq: map<string, nat>)
    ensures forall t :: t in freq <==> t in all
  {
    map t | t in all :: Count(all, t)
  }

  lemma CountStep(s: seq<string>, x: string, t: string)
    ensures Count(s + [x], t) == Count(s, t) + (if x == t then 1 else 0)
  {
    assert (s + [x])[..|s|] == s;
  }

  /** One more occurrence of x adds one to x's entry, starting from 0 when x is new. */
  lemma FrequencyStep(s: seq<string>, x: string)
    ensures Frequency(s + [x]) == Frequency(s)[x := (if x in Frequency(s) then Frequency(s)[x] else 0) + 1]
  {
    var l, r := Frequency(s + [x]), Frequency(s)[x := (if x in Frequency(s) then Frequency(s)[x] else 0) + 1];
    forall t | t in l
      ensures t in r && l[t] == r[t]
    {
      CountStep(s, x, t);
    }
    assert l.Keys == r.Keys;
  }

  lemma DedupStep(s: seq<string>, x: string)
    ensures Dedup(s + [x]) == if x in Dedup(s) then Dedup(s) else Dedup(s) + [x]
  {
    assert (s + [x])[..|s|] == s;
  }

  lemma FlattenStep(tagLists: seq<seq<string>>, i: nat)
    requires i < |tagLists|
    ensures Flatten(tagLists[..i + 1]) == Flatten(tagLists[..i]) + tagLists[i]
  {
    assert tagLists[..i + 1][..i] == tagLists[..i];
  }

  /** The nested `forEach` that fills `tagFrequency`. `keys` is the table's key order, the order in
      which tags are first seen; each tag's entry is its number of occurrences. */
  method TagFrequency(tagLists: seq<seq<string>>) returns (keys: seq<string>, freq: map<string, nat>)
    ensures keys == Dedup(Flatten(tagLists))
    ensures freq == Frequency(Flatten(tagLists))
  {
    keys, freq := [], map[];
    for i := 0 to |tagLists|
      invariant keys == Dedup(Flatten(tagLists[..i])) && freq == Frequency(Flatten(tagLists[..i]))
    {
      FlattenStep(tagLists, i);
      keys, freq := CountTags(tagLists[i], keys, freq, Flatten(tagLists[..i]));
    }
    assert tagLists[..|tagLists|] == tagLists;
  }

  /** The inner `forEach` over one post's tags: the table of the occurrences seen so far becomes
      the table of those occurrences followed by the post's tags. */
  method CountTags(tags: seq<string>, keys0: seq<string>, freq0: map<string, nat>, ghost before: seq<string>)
    returns (keys: seq<string>, freq: map<string, nat>)
    requires keys0 == Dedup(before) && freq0 == Frequency(before)
    ensures keys == Dedup(before + tags) && freq == Frequency(before + tags)
  {
    keys, freq := keys0, freq0;
    ghost var seen := before;
    for j := 0 to |tags|
      invariant seen == before + tags[..j]
      invariant keys == Dedup(seen) && freq == Frequency(seen)
    {
      var t := tags[j];
      Counted(seen, t, keys, freq);
      keys := if t !in keys then keys + [t] else keys;
      freq := freq[t := (if t in freq then freq[t] else 0) + 1];
      ExtendedByOne(before, tags, j);
      seen := seen + [t];
    }
    assert tags[..|tags|] == tags;
  }

  lemma ExtendedByOne(a: seq<string>, b: seq<string>, j: nat)
    requires j < |b|
    ensures a + b[..j + 1] == (a + b[..j]) + [b[j]]
  {
    assert b[..j + 1] == b[..j] + [b[j]];
  }

  /** One step of the inner `forEach`: the table after counting t is the table of the occurrences
      seen so far plus t. */
  lemma Counted(seen: seq<string>, t: string, keys: seq<string>, freq: map<string, nat>)
    requires keys == Dedup(seen) && freq == Frequency(seen)
    ensures (if t !in keys then keys + [t] else keys) == Dedup(seen + [t])
    ensures freq[t := (if t in freq then freq[t] else 0) + 1] == Frequency(seen + [t])
  {
    DedupStep(seen, t);
    FrequencyStep(seen, t);
  }

  /** The frequency order: no tag is counted more than any tag before it. */
  predicate ByFrequency(s: seq<string>, freq: map<string, nat>)
    requires forall t :: t in s ==> t in freq
  {
    forall i, j :: 0 <= i < j < |s| ==> freq[s[i]] >= freq[s[j]]
  }

  /** Where a stable sort puts a new last element: after every tag counted at least as often. */
  function Slot(s: seq<string>, freq: map<string, nat>, t: string): (k: nat)
    requires forall x :: x in s ==> x in freq
    requires t in freq
    ensures k <= |s|
    ensures forall i :: 0 <= i < k ==> freq[s[i]] >= freq[t]
    ensures k < |s| ==> freq[s[k]] < freq[t]
  {
    if s == [] || freq[s[0]] < freq[t] then 0 else 1 + Slot(s[1..], freq, t)
  }

  /** `.sort(([,a], [,b]) => b - a)` on the entries, a stable sort by non-increasing count, as an
      insertion of each entry in turn. */
  function SortByFrequency(keys: seq<string>, freq: map<string, nat>): (r: seq<string>)
    requires forall t :: t in keys ==> t in freq
    ensures multiset(r) == multiset(keys)
    ensures forall t :: t in r <==> t in keys
  {
    if keys == [] then []
    else
      var init, t := keys[..|keys| - 1], keys[|keys| - 1];
      assert keys == init + [t];
      var s := SortByFrequency(init, freq);
      var k := Slot(s, freq, t);
      assert s == s[..k] + s[k..];
      s[..k] + [t] + s[k..]
  }

  /** The sort leaves the tags in frequency order. */
  lemma {:induction false} SortedByFrequency(keys: seq<string>, freq: map<string, nat>)
    requires forall t :: t in keys ==> t in freq
    ensures ByFrequency(SortByFrequency(keys, freq), freq)
  {
    if keys != [] {
      var init, t := keys[..|keys| - 1], keys[|keys| - 1];
      assert keys == init + [t];
      SortedByFrequency(init, freq);
      InsertKeepsOrder(SortByFrequency(init, freq), freq, t);
    }
  }

  /** Inserting a tag at its slot keeps a frequency-ordered list in order. */
  lemma InsertKeepsOrder(s: seq<string>, freq: map<string, nat>, t: string)
    requires forall x :: x in s ==> x in freq
    requires t in freq
    requires ByFrequency(s, freq)
    ensures var k := Slot(s, freq, t); ByFrequency(s[..k] + [t] + s[k..], freq)
  {
    var k := Slot(s, freq, t);
    var r := s[..k] + [t] + s[k..];
    forall i, j | 0 <= i < j < |r|
      ensures freq[r[i]] >= freq[r[j]]
    {
      if j < k || i > k {
        var i', j' := if i < k then i else i - 1, if j < k then j else j - 1;
        assert r[i] == s[i'] && r[j] == s[j'];
      } else if i == k {
        assert r[j] == s[j - 1];
        if k < |s| {
          assert freq[s[k]] < freq[t];
          assert k == j - 1 || freq[s[k]] >= freq[s[j - 1]];
        }
      } else {
        assert r[i] == s[i];
      }
    }
  }

  /** Sorting distinct keys leaves them distinct. */
  lemma {:induction false} SortedDistinct(keys: seq<string>, freq: map<string, nat>)
    requires forall t :: t in keys ==> t in freq
    requires NoDuplicates(keys)
    ensures NoDuplicates(SortByFrequency(keys, freq))
  {
    if keys != [] {
      var init, t := keys[..|keys| - 1], keys[|keys| - 1];
      assert NoDuplicates(init) by {
        forall i, j | 0 <= i < j < |init| ensures init[i] != init[j] {
          assert init[i] == keys[i] && init[j] == keys[j];
        }
      }
      SortedDistinct(init, freq);
      var s := SortByFrequency(init, freq);
      var k := Slot(s, freq, t);
      assert t !in init by {
        forall i | 0 <= i < |init| ensures init[i] != t {
          assert init[i] == keys[i];
        }
      }
      var r := s[..k] + [t] + s[k..];
      assert r == SortByFrequency(keys, freq);
      forall i, j | 0 <= i < j < |r|
        ensures r[i] != r[j]
      {
        Inserted(s, k, t, i);
        Inserted(s, k, t, j);
        if i == k {
          assert s[j - 1] in init;
        } else if j == k {
          assert s[i] in init;
        }
      }
    }
  }

  /** The elements of a sequence with t inserted at position k. */
  lemma Inserted(s: seq<string>, k: nat, t: string, i: nat)
    requires k <= |s| && i <= |s|
    ensures (s[..k] + [t] + s[k..])[i] == if i < k then s[i] else if i == k then t else s[i - 1]
  {
  }

  /** `.slice(0, 10)`. */
  const PREFERRED_TAGS := 10

  /** `preferredTags`: the first ten tags of the frequency order. */
  function PreferredTags(keys: seq<string>, freq: map<string, nat>): (tags: seq<string>)
    requires forall t :: t in keys ==> t in freq
    ensures |tags| <= PREFERRED_TAGS
    ensures tags <= SortByFrequency(keys, freq)
  {
    Take(SortByFrequency(keys, freq), PREFERRED_TAGS)
  }

  /** The first ten of distinct keys in frequency order: distinct keys, none left out counted
      more than a chosen one, and all of them when there are at most ten. */
  lemma {:induction false} TopTags(keys: seq<string>, freq: map<string, nat>)
    requires forall t :: t in keys ==> t in freq
    requires NoDuplicates(keys)
    ensures var tags := PreferredTags(keys, freq);
            NoDuplicates(tags)
            && (forall t :: t in tags ==> t in keys)
            && ByFrequency(tags, freq)
            && (forall t, p :: t in keys && t !in tags && p in tags ==> freq[t] <= freq[p])
            && (|keys| <= PREFERRED_TAGS ==> forall t :: t in keys ==> t in tags)
  {
    var sorted := SortByFrequency(keys, freq);
    var tags := PreferredTags(keys, freq);
    SortedByFrequency(keys, freq);
    SortedDistinct(keys, freq);
    assert |sorted| == |keys| by {
      assert |multiset(sorted)| == |multiset(keys)|;
    }
    forall i, j | 0 <= i < j < |tags|
      ensures tags[i] != tags[j] && freq[tags[i]] >= freq[tags[j]]
    {
      assert tags[i] == sorted[i] && tags[j] == sorted[j];
    }
    forall t, p | t in keys && t !in tags && p in tags
      ensures freq[t] <= freq[p]
    {
      var j :| 0 <= j < |sorted| && sorted[j] == t;
      var i :| 0 <= i < |tags| && tags[i] == p;
      assert tags[i] == sorted[i];
      assert j >= |tags| by {
        assert forall m :: 0 <= m < |tags| ==> tags[m] == sorted[m];
      }
    }
  }

  /** The preferred tags of a reaction history: at most ten distinct tags that occur, in
      non-increasing order of occurrences; no tag left out occurs more often than a chosen one,
      and with at most ten different tags every one of them is chosen. */
  lemma PreferredTagsRanked(tagLists: seq<seq<string>>)
    ensures var all := Flatten(tagLists);
            var tags := PreferredTags(Dedup(all), Frequency(all));
            |tags| <= PREFERRED_TAGS
            && NoDuplicates(tags)
            && (forall t :: t in tags ==> t in all)
            && (forall i, j :: 0 <= i < j < |tags| ==> Count(all, tags[i]) >= Count(all, tags[j]))
            && (forall t, p :: t in all && t !in tags && p in tags ==> Count(all, t) <= Count(all, p))
            && (|Dedup(all)| <= PREFERRED_TAGS ==> forall t :: t in all ==> t in tags)
  {
    var all := Flatten(tagLists);
    TopTags(Dedup(all), Frequency(all));
  }

  /** What the preference query returns. */
  datatype Preferences = Preferences(following: seq<string>, preferredTags: seq<string>)

  /** `getUserPreferences`: the followed authors as the store lists them, and the preferred tags
      of the tag lists of every post the user reacted to. */
  method UserPreferences(following: seq<string>, reactedTags: seq<seq<string>>) returns (prefs: Preferences)
    ensures prefs.following == following
    ensures var all := Flatten(reactedTags);
            prefs.preferredTags == PreferredTags(Dedup(all), Frequency(all))
  {
    var keys, freq := TagFrequency(reactedTags);
    prefs := Preferences(following, PreferredTags(keys, freq));
  }

  /** A reaction or bookmark of the last thirty days, as the history query returns it. */
  datatype Interaction = Interaction(postId: string, tags: seq<string>)

  /** `interactedPostIds`: the reacted post ids, then the bookmarked post ids, each in query order. */
  function InteractedPostIds(reactions: seq<Interaction>, bookmarks: seq<Interaction>): (ids: seq<string>)
    ensures |ids| == |reactions| + |bookmarks|
    ensures forall i :: 0 <= i < |reactions| ==> ids[i] == reactions[i].postId
    ensures forall i :: 0 <= i < |bookmarks| ==> ids[|reactions| + i] == bookmarks[i].postId
  {
    seq(|reactions|, i requires 0 <= i < |reactions| => reactions[i].postId)
    + seq(|bookmarks|, i requires 0 <= i < |bookmarks| => bookmarks[i].postId)
  }

  /** A post id counts as interacted with exactly when the user reacted to or bookmarked it. */
  lemma InteractedIffReactedOrBookmarked(reactions: seq<Interaction>, bookmarks: seq<Interaction>, id: string)
    ensures id in InteractedPostIds(reactions, bookmarks)
            <==> (exists i :: 0 <= i < |reactions| && reactions[i].postId == id)
                 || (exists i :: 0 <= i < |bookmarks| && bookmarks[i].postId == id)
  {
    var ids := InteractedPostIds(reactions, bookmarks);
    if id in ids {
      var k :| 0 <= k < |ids| && ids[k] == id;
      if k >= |reactions| {
        assert bookmarks[k - |reactions|].postId == id;
      }
    }
  }

  /** `postTags.some(postTag => postTag.toLowerCase().includes(tag.toLowerCase()))`. */
  predicate MatchesSome(postTags: seq<string>, tag: string)
  {
    exists i :: 0 <= i < |postTags| && Contains(Lower(postTags[i]), Lower(tag))
  }

  /** `matchingTags`: the preferred tags, in preference order, that some tag of the post contains
      as a substring, ignoring ASCII case. */
  function MatchingTags(preferred: seq<string>, postTags: seq<string>): (m: seq<string>)
    ensures |m| <= |preferred|
    ensures forall t :: t in m <==> t in preferred && MatchesSome(postTags, t)
  {
    Filter(preferred, (tag: string) => MatchesSome(postTags, tag))
  }

  /** A preferred tag equal to a post tag up to ASCII case always matches. */
  lemma SameTagMatches(preferred: seq<string>, postTags: seq<string>, tag: string, i: int)
    requires tag in preferred && 0 <= i < |postTags| && Lower(postTags[i]) == Lower(tag)
    ensures tag in MatchingTags(preferred, postTags)
  {
    assert Contains(Lower(postTags[i]), Lower(tag));
  }

  /** A post row as the popularity query sees it, with its author, tag names and reaction count. */
  datatype PopularPost = PopularPost(id: string, title: string, authorId: string, published: bool,
                                     tags: seq<string>, reactionCount: nat)

  /** The popularity query's `where`: published, not by a followed author, not interacted with. */
  predicate Eligible(p: PopularPost, following: seq<string>, interacted: seq<string>)
  {
    p.published && p.authorId !in following && p.id !in interacted
  }

  /** The popularity query: the first `limit` eligible posts of the table, taken in the order the
      query sorts by (most reactions first). */
  function PopularPosts(posts: seq<PopularPost>, following: seq<string>, interacted: seq<string>, limit: int)
    : (r: seq<PopularPost>)
    ensures limit >= 0 ==> |r| <= limit
    ensures forall p :: p in r ==> p in posts && Eligible(p, following, interacted)
    ensures 0 <= limit ==> (|r| < limit ==> forall p :: p in posts && Eligible(p, following, interacted) ==> p in r)
  {
    Window(Filter(posts, (p: PopularPost) => Eligible(p, following, interacted)), 0, limit)
  }

  /** One basic recommendation; `kind` is the reply's `type`. The relevance score is not modelled. */
  datatype Recommendation = Recommendation(title: string, reason: string, tags: seq<string>,
                                           kind: string, postId: string)

  const INTEREST_PREFIX := "Based on your interest in: "
  const POPULAR_PREFIX := "Popular post with "

  /** The reason text: the first two matching tags when some tag matches, else the reaction count. */
  function Reason(matching: seq<string>, reactionCount: nat): (reason: string)
    ensures matching != [] ==> reason == INTEREST_PREFIX + Join(Take(matching, 2), ", ")
    ensures matching == [] ==> reason == POPULAR_PREFIX + IntToString(reactionCount) + " reactions"
  {
    if |matching| > 0 then INTEREST_PREFIX + Join(Take(matching, 2), ", ")
    else POPULAR_PREFIX + IntToString(reactionCount) + " reactions"
  }

  /** The two kinds of reason cannot be confused: a reason names interests exactly when some
      preferred tag matched. */
  lemma ReasonNamesInterestsIffMatch(matching: seq<string>, reactionCount: nat)
    ensures INTEREST_PREFIX <= Reason(matching, reactionCount) <==> matching != []
  {
    if matching == [] {
      assert Reason(matching, reactionCount)[0] == 'P';
    }
  }

  /** The entry built for one popular post. */
  function RecommendationFor(post: PopularPost, preferred: seq<string>): (r: Recommendation)
    ensures r.title == post.title && r.postId == post.id && r.kind == "post"
    ensures r.tags == Take(post.tags, 3) && |r.tags| <= 3
    ensures r.reason == Reason(MatchingTags(preferred, post.tags), post.reactionCount)
  {
    Recommendation(post.title, Reason(MatchingTags(preferred, post.tags), post.reactionCount),
                   Take(post.tags, 3), "post", post.id)
  }

  /** The `for` loop of `generateBasicRecommendations`: one entry per popular post, in order. */
  method BasicRecommendations(preferred: seq<string>, popular: seq<PopularPost>) returns (recs: seq<Recommendation>)
    ensures |recs| == |popular|
    ensures forall i :: 0 <= i < |popular| ==> recs[i] == RecommendationFor(popular[i], preferred)
  {
    recs := [];
    for i := 0 to |popular|
      invariant |recs| == i
      invariant forall j :: 0 <= j < i ==> recs[j] == RecommendationFor(popular[j], preferred)
    {
      var post := popular[i];
      var matching := MatchingTags(preferred, post.tags);
      recs := recs + [Recommendation(post.title, Reason(matching, post.reactionCount), Take(post.tags, 3), "post", post.id)];
    }
  }

  /** The reply: the recommendations, and whether they are the basic ones served without a
      language-model key. */
  datatype Recommendations = Recommendations(recommendations: seq<Recommendation>, mock: bool)

  /** GET: 401 without a session. Without a language-model key the basic recommendations are
      served with `mock: true`; with one, the model's parsed reply is served, and when the model
      gives nothing usable (`aiReply` None: no text, a failed call or unparseable JSON) the basic
      recommendations are served instead, without `mock`. The basic recommendations are built from
      the popularity query for the limit (default 10) over `posts`, the post table in reaction order. */
  method RecommendGet(session: Option<Session>, limitParam: Option<int>, following: seq<string>,
                      reactedTags: seq<seq<string>>, reactions: seq<Interaction>, bookmarks: seq<Interaction>,
                      posts: seq<PopularPost>, hasModelKey: bool, aiReply: Option<seq<Recommendation>>)
    returns (reply: Reply<Recommendations>)
    ensures SessionUser(session).None? ==> reply == Fail(401, "Unauthorized")
    ensures SessionUser(session).Some? ==>
              var all := Flatten(reactedTags);
              var preferred := PreferredTags(Dedup(all), Frequency(all));
              var limit := if limitParam.Some? then limitParam.value else 10;
              var popular := PopularPosts(posts, following, InteractedPostIds(reactions, bookmarks), limit);
              var basic := seq(|popular|, i requires 0 <= i < |popular| => RecommendationFor(popular[i], preferred));
              if !hasModelKey then reply == Ok(Recommendations(basic, true))
              else if aiReply.Some? then reply == Ok(Recommendations(aiReply.value, false))
              else reply == Ok(Recommendations(basic, false))
    ensures reply.Ok? && !(hasModelKey && aiReply.Some?) ==>
              var limit := if limitParam.Some? then limitParam.value else 10;
              (limit >= 0 ==> |reply.body.recommendations| <= limit)
              && forall r :: r in reply.body.recommendations ==>
                   r.postId !in InteractedPostIds(reactions, bookmarks)
                   && exists p :: p in posts && p.id == r.postId && p.published && p.authorId !in following
  {
    if SessionUser(session).None? {
      return Fail(401, "Unauthorized");
    }
    var prefs := UserPreferences(following, reactedTags);
    if hasModelKey && aiReply.Some? {
      return Ok(Recommendations(aiReply.value, false));
    }
    var limit := if limitParam.Some? then limitParam.value else 10;
    var popular := PopularPosts(posts, following, InteractedPostIds(reactions, bookmarks), limit);
    var recs := BasicRecommendations(prefs.preferredTags, popular);
    forall r | r in recs
      ensures r.postId !in InteractedPostIds(reactions, bookmarks)
      ensures exists p :: p in posts && p.id == r.postId && p.published && p.authorId !in following
    {
      var i :| 0 <= i < |recs| && recs[i] == r;
      assert popular[i] in popular;
    }
    var all := Flatten(reactedTags);
    assert recs == seq(|popular|, i requires 0 <= i < |popular| => RecommendationFor(popular[i], PreferredTags(Dedup(all), Frequency(all))));
    reply := Ok(Recommendations(recs, !hasModelKey));
  }
}
