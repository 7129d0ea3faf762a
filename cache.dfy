/** The in-process cache layer (src/lib/cache.ts): a bounded key/value map
    whose entries expire after a time-to-live, the key scheme the routes use,
    the get-or-compute wrapper and the two best-effort invalidations.

    The underlying LRU library is modelled as an abstract bounded map with an
    explicit clock: which entry it evicts when full is not visible, so the model
    evicts an arbitrary other entry and promises only that at most one goes. */
module Cache {
  import opened Common

  /** A time-to-live in milliseconds. Every TTL this code passes is positive; a TTL of 0, which the
      library reads as "never expires", does not occur. */
  type Ttl = t: int | t > 0 witness 1

  /** A stored entry: the value, the time its age counts from, its time-to-live. */
  datatype Entry<V> = Entry(value: V, start: int, ttl: Ttl)

  /** An entry is visible while its age is below its time-to-live; an expired one behaves as absent. */
  predicate Live<V>(e: Entry<V>, now: int)
  {
    now - e.start < e.ttl
  }

  /** Constructor options; absent and 0 both fall back to the defaults (`options.max || 500`). */
  datatype CacheOptions = CacheOptions(max: Option<nat>, ttl: Option<nat>)

  const DEFAULT_MAX: nat := 500
  const DEFAULT_TTL: Ttl := 1000 * 60 * 5

  /** `getStats()`. */
  datatype Stats = Stats(size: nat, max: nat, itemCount: nat)

  /** `options.max || 500`. */
  function EffectiveMax(max: Option<nat>): (r: nat)
    ensures r > 0
    ensures max.Some? && max.value != 0 ==> r == max.value
    ensures max.None? || max.value == 0 ==> r == DEFAULT_MAX
  {
    if max.Some? && max.value != 0 then max.value else DEFAULT_MAX
  }

  /** `options.ttl || 1000 * 60 * 5`. */
  function EffectiveTtl(ttl: Option<nat>): (r: Ttl)
    ensures ttl.Some? && ttl.value != 0 ==> r == ttl.value
    ensures ttl.None? || ttl.value == 0 ==> r == DEFAULT_TTL
  {
    if ttl.Some? && ttl.value != 0 then ttl.value else DEFAULT_TTL
  }

  /** `after` is `before` with `key` holding `e`: every other key keeps its entry, at most one other
      key is evicted, and none is when the key was already stored or the cache had room. */
  ghost predicate StoredWithOneEviction<V>(before: map<string, Entry<V>>, after: map<string, Entry<V>>,
                                           key: string, e: Entry<V>, max: nat)
  {
    key in after && after[key] == e
    && (forall k :: k in after && k != key ==> k in before && after[k] == before[k])
    && (forall k, k' ::
          k in before && k' in before && k != key && k' != key && k !in after && k' !in after ==> k == k')
    && (key in before || |before| < max ==> after == before[key := e])
  }

  /** Storing after an expired entry of the same key was purged is storing over the unpurged map. */
  lemma StoredAfterPurge<V>(before: map<string, Entry<V>>, after: map<string, Entry<V>>, key: string,
                            e: Entry<V>, max: nat)
    requires |before| <= max
    requires StoredWithOneEviction(before - {key}, after, key, e, max)
    ensures StoredWithOneEviction(before, after, key, e, max)
  {
    if key in before {
      assert |before - {key}| == |before| - 1;
      assert (before - {key})[key := e] == before[key := e];
    } else {
      assert before - {key} == before;
    }
  }

  class CacheManager<V> {
    const max: nat
    const defaultTtl: Ttl
    var entries: map<string, Entry<V>>

    /** The size bound the library keeps. */
    ghost predicate Valid()
      reads this
    {
      0 < max && |entries| <= max
    }

    /** What a reader at time `now` sees under `key`: the value of a live entry, otherwise nothing. */
    function Visible(key: string, now: int): (r: Option<V>)
      reads this
      ensures r.Some? <==> key in entries && Live(entries[key], now)
      ensures r.Some? ==> r.value == entries[key].value
    {
      if key in entries && Live(entries[key], now) then Some(entries[key].value) else None
    }

    /** The time-to-live a `set` without one uses. */
    function TtlOr(ttl: Option<Ttl>): Ttl
      reads this
    {
      if ttl.Some? then ttl.value else defaultTtl
    }

    /** `new CacheManager(options)`: an empty cache with max and default TTL falling back to 500 and 5 minutes. */
    constructor (options: CacheOptions)
      ensures Valid()
      ensures entries == map[]
      ensures max == EffectiveMax(options.max) && defaultTtl == EffectiveTtl(options.ttl)
    {
      max := EffectiveMax(options.max);
      defaultTtl := EffectiveTtl(options.ttl);
      entries := map[];
    }

    /** `get(key)`: the live value, whose age restarts (`updateAgeOnGet`); an expired entry is purged. */
    method Get(key: string, now: int) returns (r: Option<V>)
      requires Valid()
      modifies this
      ensures Valid()
      ensures r == old(Visible(key, now))
      ensures r.Some? ==> entries == old(entries)[key := old(entries)[key].(start := now)]
      ensures r.None? ==> entries == old(entries) - {key}
      ensures r.Some? ==> forall t :: now <= t < now + entries[key].ttl ==> Visible(key, t) == r
    {
      r := Visible(key, now);
      if r.Some? {
        entries := entries[key := entries[key].(start := now)];
      } else {
        entries := entries - {key};
      }
    }

    /** `set(key, value, ttl)`: the key now holds the value for its TTL; when a new key meets a full
        cache, some other entry is evicted first, so the size bound holds. */
    method Set(key: string, value: V, ttl: Option<Ttl>, now: int)
      requires Valid()
      modifies this
      ensures Valid()
      ensures StoredWithOneEviction(old(entries), entries, key, Entry(value, now, TtlOr(ttl)), max)
      ensures forall t :: now <= t < now + TtlOr(ttl) ==> Visible(key, t) == Some(value)
    {
      if key !in entries && |entries| == max {
        var victim :| victim in entries;
        assert entries.Keys - {victim} == (entries - {victim}).Keys;
        entries := entries - {victim};
      }
      entries := entries[key := Entry(value, now, TtlOr(ttl))];
    }

    /** `delete(key)`: the key is absent, nothing else changes. */
    method Delete(key: string)
      requires Valid()
      modifies this
      ensures Valid()
      ensures entries == old(entries) - {key}
    {
      entries := entries - {key};
    }

    /** `clear()`: every key is absent and the size is 0. */
    method Clear()
      requires Valid()
      modifies this
      ensures Valid()
      ensures entries == map[]
      ensures forall k, t :: Visible(k, t).None?
    {
      entries := map[];
    }

    /** `has(key)`: whether a live entry is stored; recency and age are untouched. */
    method Has(key: string, now: int) returns (b: bool)
      ensures b <==> Visible(key, now).Some?
    {
      b := key in entries && Live(entries[key], now);
    }

    /** `getStats()`: the stored entries (expired ones not yet purged included) and the bound. */
    method GetStats() returns (s: Stats)
      requires Valid()
      ensures s.size == |entries| && s.itemCount == |entries| && s.max == max
      ensures s.size <= s.max
    {
      s := Stats(|entries|, max, |entries|);
    }
  }

  /** The three instances: users (1000 entries, 10 minutes), posts (500, 5 minutes), search (200, 2 minutes). */
  method NewInstances<U, P, S>() returns (userCache: CacheManager<U>, postCache: CacheManager<P>, searchCache: CacheManager<S>)
    ensures fresh(userCache) && fresh(postCache) && fresh(searchCache)
    ensures userCache.Valid() && postCache.Valid() && searchCache.Valid()
    ensures userCache.entries == map[] && postCache.entries == map[] && searchCache.entries == map[]
    ensures userCache.max == 1000 && userCache.defaultTtl == 1000 * 60 * 10
    ensures postCache.max == 500 && postCache.defaultTtl == 1000 * 60 * 5
    ensures searchCache.max == 200 && searchCache.defaultTtl == 1000 * 60 * 2
  {
    userCache := new CacheManager(CacheOptions(Some(1000), Some(1000 * 60 * 10)));
    postCache := new CacheManager(CacheOptions(Some(500), Some(1000 * 60 * 5)));
    searchCache := new CacheManager(CacheOptions(Some(200), Some(1000 * 60 * 2)));
  }

  // ---------------------------------------------------------------- cacheKeys

  function UserKey(id: string): string { "user:" + id }
  function UserPostsKey(userId: string, page: int): string { "user:" + userId + ":posts:" + IntToString(page) }
  function PostKey(id: string): string { "post:" + id }
  function PostsKey(page: int, limit: int): string { "posts:" + IntToString(page) + ":" + IntToString(limit) }
  function SearchKey(query: string, kind: string): string { "search:" + query + ":" + kind }
  function TrendingTagsKey(): string { "trending:tags" }
  function UserStatsKey(userId: string): string { "user:" + userId + ":stats" }

  /** The position of the first ':' in s, or |s| when there is none. */
  function IndexOfColon(s: string): (r: nat)
    ensures r <= |s|
    ensures ':' !in s[..r]
    ensures r < |s| ==> s[r] == ':'
  {
    if s == [] || s[0] == ':' then 0 else 1 + IndexOfColon(s[1..])
  }

  lemma {:induction false} IndexOfColonAt(a: string, b: string)
    requires ':' !in a
    ensures IndexOfColon(a + ":" + b) == |a|
  {
    if a != [] {
      assert (a + ":" + b)[1..] == a[1..] + ":" + b;
      IndexOfColonAt(a[1..], b);
    }
  }

  /** Two strings cut at their first ':' agree on both sides. */
  lemma SplitAtColon(a: string, b: string, c: string, d: string)
    requires ':' !in a && ':' !in c
    requires a + ":" + b == c + ":" + d
    ensures a == c && b == d
  {
    var x := a + ":" + b;
    IndexOfColonAt(a, b);
    IndexOfColonAt(c, d);
    assert a == x[..|a|] == c;
    assert b == x[|a| + 1..] == d;
  }

  lemma NoColonInNumber(i: int)
    ensures ':' !in IntToString(i)
  {
    var s := IntToString(i);
    forall k | 0 <= k < |s| ensures s[k] != ':' {
      assert IsDigit(s[k]) || s[k] == '-';
    }
  }

  lemma PrefixCancels(p: string, x: string, y: string)
    requires p + x == p + y
    ensures x == y
  {
    assert x == (p + x)[|p|..];
    assert y == (p + y)[|p|..];
  }

  /** `posts:{page}:{limit}` determines page and limit. */
  lemma PostsKeyInjective(p1: int, l1: int, p2: int, l2: int)
    requires PostsKey(p1, l1) == PostsKey(p2, l2)
    ensures p1 == p2 && l1 == l2
  {
    var s1, s2 := IntToString(p1), IntToString(p2);
    var t1, t2 := s1 + ":" + IntToString(l1), s2 + ":" + IntToString(l2);
    NoColonInNumber(p1);
    NoColonInNumber(p2);
    assert PostsKey(p1, l1) == "posts:" + t1;
    assert PostsKey(p2, l2) == "posts:" + t2;
    PrefixCancels("posts:", t1, t2);
    SplitAtColon(s1, IntToString(l1), s2, IntToString(l2));
    IntToStringInjective(p1, p2);
    IntToStringInjective(l1, l2);
  }

  /** Different pages of one user's post list have different keys. */
  lemma UserPostsKeyInjective(userId: string, i: int, j: int)
    requires UserPostsKey(userId, i) == UserPostsKey(userId, j)
    ensures i == j
  {
    var prefix := "user:" + userId + ":posts:";
    assert UserPostsKey(userId, i) == prefix + IntToString(i);
    assert UserPostsKey(userId, j) == prefix + IntToString(j);
    assert IntToString(i) == UserPostsKey(userId, i)[|prefix|..] == IntToString(j);
    IntToStringInjective(i, j);
  }

  /** A single post's key is never a post-list key: "post:" and "posts:" differ at their fifth character. */
  lemma PostKeyIsNotListKey(id: string, page: int, limit: int)
    ensures PostKey(id) != PostsKey(page, limit)
  {
    assert PostKey(id)[4] == ':' && PostsKey(page, limit)[4] == 's';
  }

  // ---------------------------------------------------------------- withCache

  /** What the fetcher passed to `withCache` settles to: a value, or a rejection. */
  datatype Fetch<V> = Fetched(value: V) | Failed(error: string)

  /** `withCache(cache, key, fetcher, ttl)`. `fetched` is what the fetcher would settle to if called;
      `fetcherCalls` says how often it was called. A hit returns the cached value without calling it;
      a miss calls it once and stores a successful result under the key with the given TTL; a
      rejection propagates and nothing is stored. */
  method WithCache<V>(cache: CacheManager<V>, key: string, fetched: Fetch<V>, ttl: Option<Ttl>, now: int)
    returns (r: Fetch<V>, fetcherCalls: nat)
    requires cache.Valid()
    modifies cache
    ensures cache.Valid()
    ensures fetcherCalls == 0 <==> old(cache.Visible(key, now)).Some?
    ensures fetcherCalls <= 1
    ensures old(cache.Visible(key, now)).Some? ==>
              r == Fetched(old(cache.Visible(key, now)).value)
              && cache.entries == old(cache.entries)[key := old(cache.entries)[key].(start := now)]
    ensures old(cache.Visible(key, now)).None? ==> r == fetched
    ensures old(cache.Visible(key, now)).None? && fetched.Fetched? ==>
              StoredWithOneEviction(old(cache.entries), cache.entries, key, Entry(fetched.value, now, cache.TtlOr(ttl)), cache.max)
              && cache.Visible(key, now) == Some(fetched.value)
    ensures old(cache.Visible(key, now)).None? && fetched.Failed? ==>
              cache.entries == old(cache.entries) - {key}
  {
    var cached := cache.Get(key, now);
    if cached.Some? {
      return Fetched(cached.value), 0;
    }
    fetcherCalls := 1;
    r := fetched;
    if fetched.Fetched? {
      cache.Set(key, fetched.value, ttl, now);
      StoredAfterPurge(old(cache.entries), cache.entries, key, Entry(fetched.value, now, cache.TtlOr(ttl)), cache.max);
    }
  }

  // ---------------------------------------------------------------- invalidation

  /** Post-list pages 1 .. n-1 of one user. */
  function UserPageKeys(userId: string, n: int): set<string>
  {
    set j | 1 <= j < n :: UserPostsKey(userId, j)
  }

  /** List pages 1 .. n-1 of 10 posts each. */
  function ListPageKeys(n: int): set<string>
  {
    set j | 1 <= j < n :: PostsKey(j, 10)
  }

  /** The keys `invalidateUserCache(userId)` removes: the user, the stats, post-list pages 1..10. */
  function InvalidatedUserKeys(userId: string): (ks: set<string>)
    ensures UserKey(userId) in ks && UserStatsKey(userId) in ks
    ensures forall i :: 1 <= i <= 10 ==> UserPostsKey(userId, i) in ks
  {
    {UserKey(userId)} + {UserStatsKey(userId)} + UserPageKeys(userId, 11)
  }

  /** The keys `invalidatePostCache(postId)` removes: the post and list pages 1..5 of 10 posts. */
  function InvalidatedPostKeys(postId: string): (ks: set<string>)
    ensures PostKey(postId) in ks
    ensures forall i :: 1 <= i <= 5 ==> PostsKey(i, 10) in ks
  {
    {PostKey(postId)} + ListPageKeys(6)
  }

  lemma UserPageKeysStep(userId: string, i: int)
    requires 1 <= i
    ensures UserPageKeys(userId, i + 1) == UserPageKeys(userId, i) + {UserPostsKey(userId, i)}
  {
  }

  lemma ListPageKeysStep(i: int)
    requires 1 <= i
    ensures ListPageKeys(i + 1) == ListPageKeys(i) + {PostsKey(i, 10)}
  {
  }

  lemma MapMinusMinus<K, V>(m: map<K, V>, a: set<K>, b: set<K>)
    ensures m - a - b == m - (a + b)
  {
  }

  lemma MapMinusStep<K, V>(m: map<K, V>, a: set<K>, b: set<K>, k: K)
    ensures m - (a + b) - {k} == m - (a + (b + {k}))
  {
    assert a + b + {k} == a + (b + {k});
  }

  /** A post-list key is removed by a post invalidation exactly for pages 1..5 with limit 10. */
  lemma InvalidatedListKeys(postId: string, page: int, limit: int)
    ensures PostsKey(page, limit) in InvalidatedPostKeys(postId) <==> 1 <= page <= 5 && limit == 10
  {
    PostKeyIsNotListKey(postId, page, limit);
    if PostsKey(page, limit) in InvalidatedPostKeys(postId) {
      var i :| 1 <= i <= 5 && PostsKey(i, 10) == PostsKey(page, limit);
      PostsKeyInjective(i, 10, page, limit);
    }
  }

  /** `invalidateUserCache(userId)` on the user cache: exactly those keys disappear. */
  method InvalidateUserCache<V>(userCache: CacheManager<V>, userId: string)
    requires userCache.Valid()
    modifies userCache
    ensures userCache.Valid()
    ensures userCache.entries == old(userCache.entries) - InvalidatedUserKeys(userId)
  {
    userCache.Delete(UserKey(userId));
    userCache.Delete(UserStatsKey(userId));
    MapMinusMinus(old(userCache.entries), {UserKey(userId)}, {UserStatsKey(userId)});
    ghost var removed := {UserKey(userId)} + {UserStatsKey(userId)};
    assert UserPageKeys(userId, 1) == {};
    assert removed + UserPageKeys(userId, 1) == removed;
    for i := 1 to 11
      invariant userCache.Valid()
      invariant userCache.entries == old(userCache.entries) - (removed + UserPageKeys(userId, i))
    {
      userCache.Delete(UserPostsKey(userId, i));
      MapMinusStep(old(userCache.entries), removed, UserPageKeys(userId, i), UserPostsKey(userId, i));
      UserPageKeysStep(userId, i);
    }
  }

  /** `invalidatePostCache(postId)` on the post cache: exactly those keys disappear. */
  method InvalidatePostCache<V>(postCache: CacheManager<V>, postId: string)
    requires postCache.Valid()
    modifies postCache
    ensures postCache.Valid()
    ensures postCache.entries == old(postCache.entries) - InvalidatedPostKeys(postId)
  {
    postCache.Delete(PostKey(postId));
    ghost var removed := {PostKey(postId)};
    assert ListPageKeys(1) == {};
    for i := 1 to 6
      invariant postCache.Valid()
      invariant postCache.entries == old(postCache.entries) - (removed + ListPageKeys(i))
    {
      postCache.Delete(PostsKey(i, 10));
      MapMinusStep(old(postCache.entries), removed, ListPageKeys(i), PostsKey(i, 10));
      ListPageKeysStep(i);
    }
  }
}
