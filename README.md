# BlogMP core, modelled in Dafny

BlogMP is a blogging platform built on Next.js. This project models its server-side core and the
client logic that decides what the user sees:

- the caching layer: an LRU/TTL cache, its key builders, the `withCache` wrapper and the
  invalidation helpers;
- the performance monitor: a sliding window of 100 samples per metric, averages, the timing
  wrappers and the threshold alerts;
- the post routes: listing with cache and pagination, and creation with the slug, word count,
  reading time and tag upserts;
- reactions, follows, bookmarks, purchases of premium posts, notifications, search and cross-posting;
- the two language-model routes with their non-AI paths: tag-based recommendations and word-list
  moderation;
- the two admin routes: mock reports and user roles;
- on the client:
  - the editor's tag list and reading time;
  - the post card's optimistic reaction counts;
  - the home page's card transformation and mock fallback;
  - the notification page's "time ago" labels and filters;
  - the image component's fallback logic.

Each source file has its own module.

- Code that changes state step by step is a `class` whose methods carry `modifies` clauses and state
  the whole new state. This covers the cache, the monitor, the route stores (the tables a route
  touches, as sets, maps and sequences), the editor, the post card and the image component.
- Loops stay loops, with their invariants: tag frequency, the recommendation loop, cross-posting,
  the reaction tally, key invalidation and tag upserts.
- Pure code (key builders, slugs, mappers, mocks, alerts) becomes functions with named results,
  and lemmas relating them.

The environment enters the model as parameters:

- a session is `Option<Session>`, and `SessionUser` is `session?.user?.id`;
- JavaScript truthiness of optional strings is `Given`;
- a route's reply is `Reply<T>`, either `Ok(body)` or `Fail(status, message)`;
- a table a query reads is a parameter, a sequence of rows in the order the query sorts by;
  the query's `where` clause is a predicate, its selection the rows of the table that pass it, and
  its `skip`/`take` the window `Paging.Window` of that selection (posts, admin users, search,
  popular posts);
- where the route only receives rows whose selection the model does not compute (the
  notification list, the bookmark list, the reaction groups), that list is a parameter, and a
  `requires` states that it holds exactly what the query selects;
- the clock is a `now` parameter, and so are network replies, language-model replies and
  `Math.random()` draws;
- a database id generated on insert is a parameter required to be new.

## Model

| member | source | states |
|---|---|---|
| Cache.EffectiveMax | src/lib/cache.ts:18-25 | `max \|\| 500`: positive; a given non-zero bound is kept, and 500 is used exactly when the option is absent or 0 |
| Cache.EffectiveTtl | src/lib/cache.ts:18-25 | `ttl \|\| 5 minutes`: a given non-zero TTL is kept, otherwise 5 minutes |
| Cache.Live | src/lib/cache.ts:27-29 | an entry is live while its age `now - start` is below its TTL |
| Cache.CacheManager.Visible | src/lib/cache.ts:27-29 | a key reads as present exactly when its entry is stored and younger than its TTL, and then reads as that entry's value |
| Cache.CacheManager.constructor | src/lib/cache.ts:18-25 | an empty cache whose bound and default TTL are the effective options |
| Cache.CacheManager.Get | src/lib/cache.ts:27-29 | returns the live value and restarts its age, so it stays visible for a whole TTL; an expired entry is purged; the size bound is kept |
| Cache.CacheManager.Set | src/lib/cache.ts:31-33 | the key holds the value for its TTL (the default when none is given); other keys keep their entries; at most one other key is evicted, and only when a new key meets a full cache |
| Cache.StoredAfterPurge | src/lib/cache.ts:27-33 | purging an expired copy of the key before a `set` does not change what the `set` guarantees: the key holds the new entry, other keys keep theirs, at most one other key is evicted |
| Cache.CacheManager.Delete | src/lib/cache.ts:35-37 | exactly the key is removed |
| Cache.CacheManager.Clear | src/lib/cache.ts:39-41 | no entry is left, so no key is visible at any time |
| Cache.CacheManager.Has | src/lib/cache.ts:43-45 | true exactly when a live entry is stored; the cache is not changed |
| Cache.CacheManager.GetStats | src/lib/cache.ts:48-54 | size and item count are the number of stored entries, and never exceed the bound |
| Cache.NewInstances | src/lib/cache.ts:58-60 | three empty caches: users (1000 entries, 10 minutes), posts (500, 5 minutes), search (200, 2 minutes) |
| Cache.UserKey | src/lib/cache.ts:64 | the key `user:{id}` |
| Cache.UserPostsKey | src/lib/cache.ts:65 | the key `user:{userId}:posts:{page}` |
| Cache.PostKey | src/lib/cache.ts:66 | the key `post:{id}` |
| Cache.PostsKey | src/lib/cache.ts:67 | the key `posts:{page}:{limit}` |
| Cache.SearchKey | src/lib/cache.ts:68 | the key `search:{query}:{type}` |
| Cache.TrendingTagsKey | src/lib/cache.ts:69 | the key `trending:tags` |
| Cache.UserStatsKey | src/lib/cache.ts:70 | the key `user:{userId}:stats` |
| Cache.IndexOfColon | src/lib/cache.ts:63-71 | the position of the first colon: no colon comes before it, and it holds a colon unless it is the key's length |
| Cache.IndexOfColonAt | src/lib/cache.ts:63-71 | in `a:b` with a colon-free `a`, the first colon is just after `a` |
| Cache.SplitAtColon | src/lib/cache.ts:63-71 | two keys `a:b` and `c:d` with colon-free heads are equal only when the heads and the tails agree |
| Cache.NoColonInNumber | src/lib/cache.ts:63-71 | a rendered number holds no colon |
| Cache.PostsKeyInjective | src/lib/cache.ts:67 | `posts:{page}:{limit}` determines the page and the limit |
| Cache.UserPostsKeyInjective | src/lib/cache.ts:65 | different pages of one user's post list have different keys |
| Cache.PostKeyIsNotListKey | src/lib/cache.ts:66-67 | a single post's key never equals a post-list key |
| Cache.WithCache | src/lib/cache.ts:74-92 | a live hit is returned without calling the fetcher and its age restarts; on a miss the fetcher is called exactly once, its value is returned and stored under the key with the TTL, and every other entry stays apart from at most one eviction; a rejection is passed on and nothing is stored |
| Cache.InvalidatedUserKeys | src/lib/cache.ts:95-102 | includes the user key, the stats key and the user's post-list pages 1 to 10 |
| Cache.InvalidatedPostKeys | src/lib/cache.ts:104-110 | includes the post key and list pages 1 to 5 of 10 posts |
| Cache.InvalidatedListKeys | src/lib/cache.ts:104-110 | a list key is dropped by a post invalidation exactly when its page is 1 to 5 and its limit is 10 |
| Cache.InvalidateUserCache | src/lib/cache.ts:95-102 | the user cache loses exactly the invalidated user keys and keeps everything else |
| Cache.InvalidatePostCache | src/lib/cache.ts:104-110 | the post cache loses exactly the invalidated post keys and keeps everything else |
| Performance.Window | src/lib/performance.ts:14-25 | the sample is appended as the newest; the oldest is dropped only when the buffer already holds 100; the buffer never exceeds 100 |
| Performance.LastN | src/lib/performance.ts:14-25 | the kept suffix has length min(\|s\|, n) |
| Performance.RecordAll | src/lib/performance.ts:14-25 | recording any number of samples keeps at most 100 |
| Performance.RecordAllKeepsMostRecent | src/lib/performance.ts:14-25 | after any sequence of samples the buffer is exactly the 100 most recent ones, in arrival order |
| Performance.Average | src/lib/performance.ts:28-33 | 0 for an empty buffer, otherwise the sum divided by the length |
| Performance.SumBounds | src/lib/performance.ts:28-33 | samples within [lo, hi] sum to between n·lo and n·hi |
| Performance.AverageBounds | src/lib/performance.ts:28-33 | the average of samples within [lo, hi] lies in [lo, hi] |
| Performance.Latest | src/lib/performance.ts:36-48 | the last sample, or 0 for an empty buffer |
| Performance.Recorded | src/lib/performance.ts:14-25 | recording under a name changes only that name's buffer |
| Performance.PerformanceMonitor.constructor | src/lib/performance.ts:6-11 | a monitor with no metrics |
| Performance.PerformanceMonitor.RecordMetric | src/lib/performance.ts:14-25 | the metrics become `Recorded(old, name, value)`, and every buffer stays at most 100 |
| Performance.PerformanceMonitor.GetAverage | src/lib/performance.ts:28-33 | 0 for an unknown name or an empty buffer, otherwise the sum divided by the length |
| Performance.PerformanceMonitor.GetAllMetrics | src/lib/performance.ts:36-48 | one row per recorded name, with its average, count and latest sample |
| Performance.PerformanceMonitor.Clear | src/lib/performance.ts:51-53 | no metric is left |
| Performance.MonitorSlot.constructor | src/lib/performance.ts:6-11 | no instance exists yet |
| Performance.MonitorSlot.GetInstance | src/lib/performance.ts:6-11 | the first call creates an empty monitor; later calls return the same monitor, unchanged |
| Performance.MetricName | src/lib/performance.ts:57-72 | the name on success, `{name}_error` on failure, and the two differ |
| Performance.MeasureExecutionTime | src/lib/performance.ts:57-89 | the outcome is passed on unchanged, and the elapsed time is recorded under the success or error name in the shared monitor |
| Performance.MeasureDatabaseQuery | src/lib/performance.ts:92-97 | timed under `db_{name}`, with the outcome passed on unchanged |
| Performance.MeasureApiResponse | src/lib/performance.ts:100-105 | timed under `api_{endpoint}`, with the outcome passed on unchanged |
| Performance.ThresholdAlerts | src/lib/performance.ts:145-160 | an API alert exactly when the `api_response` average exceeds 1000; a DB alert exactly when the `db_query` average exceeds 500; nothing else; API first |
| Performance.CheckPerformanceThresholds | src/lib/performance.ts:137-160 | the shared monitor is created when missing and otherwise left as it is, with its metrics unchanged; an API alert exactly when its `api_response` average exceeds 1000, a DB alert exactly when its `db_query` average exceeds 500, nothing else, API first |
| Text.SkipRun | src/app/api/posts/route.ts:130-133 | the result is no longer than the input, and starts with a kept character |
| Text.Collapse | src/app/api/posts/route.ts:130-133 | only kept characters and '-' remain; when `keep` rejects '-', no two dashes are adjacent; the result is empty exactly when the input is |
| Text.StripDashes | src/app/api/posts/route.ts:133 | `replace(/(^-\|-$)/g, '')`: one leading and one trailing dash removed |
| Text.Slug | src/app/api/posts/route.ts:130-133 | lower-case, runs of characters outside [a-z0-9] turned into one dash, edge dashes removed |
| Text.TagSlug | src/app/api/posts/route.ts:170 | a tag slug holds no whitespace, and is empty exactly when the name is; a dash already in the name is kept, so a tag slug can hold "--" |
| Text.SlugShape | src/app/api/posts/route.ts:130-133 | a slug holds only [a-z0-9-], has no "--", and neither starts nor ends with '-' |
| Text.SkipRunKeeps | src/app/api/posts/route.ts:130-133 | skipping rejected characters loses none of the characters kept by a filter that implies `keep` |
| Text.CollapseKeeps | src/app/api/posts/route.ts:130-133 | collapsing runs keeps every kept character, in order |
| Text.StripDashesKeeps | src/app/api/posts/route.ts:130-133 | trimming edge dashes loses nothing but dashes |
| Text.SlugKeepsLettersAndDigits | src/app/api/posts/route.ts:130-133 | every letter and digit of the lower-cased title survives in the slug, in order |
| Text.TagSlugShape | src/app/api/posts/route.ts:170 | a tag slug holds no whitespace and keeps every other non-dash character of the lower-cased name, in order |
| Text.SplitSpaces | src/app/api/posts/route.ts:136 | `split(/\s+/)` gives at least one piece |
| Text.WordStartsSkipSpaces | src/app/api/posts/route.ts:136 | leading whitespace does not change the number of word starts |
| Text.SplitCountsWordStarts | src/app/api/posts/route.ts:136 | the number of non-empty pieces of the split equals the number of word starts |
| Text.WordCount | src/app/api/posts/route.ts:136 | the number of non-empty pieces of `split(/\s+/)` |
| Text.WordCountIsWordStarts | src/app/api/posts/route.ts:136 | the word count is the number of word starts |
| Text.WordStartsZero | src/app/api/posts/route.ts:136 | no word starts exactly when the text is all whitespace |
| Text.WordCountZero | src/app/api/posts/route.ts:136 | the word count is 0 exactly when the content is all whitespace |
| Text.ReadingTime | src/app/api/posts/route.ts:137 | the fewest whole minutes that cover the words at 200 per minute; 0 exactly for no words |
| Paging.Skip | src/app/api/posts/route.ts:26 | `(page - 1) * limit`: non-negative for page ≥ 1, and skip + limit = page · limit |
| Paging.Pages | src/app/api/posts/route.ts:94 | `ceil(total / limit)` for a positive limit, bounding the total between pages − 1 and pages full pages; no number for limit 0 |
| Paging.PagesCoverAll | src/app/api/posts/route.ts:94 | the pages 1 to `pages` cover every row, and the last of them is not empty |
| Paging.Window | src/app/api/posts/route.ts:47-51 | `skip`/`take` of the selected rows: at most `take` rows, exactly the slice when it fits, and only selected rows |
| Paging.PageOf | src/app/api/admin/reports/route.ts:48 | `slice(skip, skip + limit)`: at most `limit` rows, exactly the window when it fits, and only rows of the list |
| Paging.RowOnItsPage | src/app/api/posts/route.ts:26 | row i of a list sits on page i / limit + 1 at position i % limit |
| Paging.PageBeyondLast | src/app/api/posts/route.ts:26 | pages past `pages` are empty |
| Paging.WindowKeepsOrder | src/app/api/search/route.ts:116-122 | a window of rows sorted by a key is still sorted by it |
| Paging.HasMoreIffRowsRemain | src/app/api/notifications/route.ts:55 | `offset + limit < total` holds exactly when the rows before the window and the window leave some selected row out, that is, when the next window is not empty |
| Posts.ListKeyUnfiltered | src/app/api/posts/route.ts:16-18 | the list key extends `posts:{page}:{limit}`, and equals it exactly when neither the tag nor the author filter is given |
| Posts.ListKeyInvalidated | src/app/api/posts/route.ts:16-18 | a post creation's invalidation would drop an unfiltered list page exactly for pages 1 to 5 of 10 posts |
| Posts.ListKeyAmbiguous | src/app/api/posts/route.ts:16-18 | a tag containing ":author:" gives the same key as a tag-and-author query |
| Posts.ListKey | src/app/api/posts/route.ts:16-18 | `posts:{page}:{limit}`, then `:tag:{tag}` and `:author:{author}` for the filters given |
| Posts.Listed | src/app/api/posts/route.ts:29-45 | the `where` clause: published, with a tag of that name when a tag is given, by that author when an author is given |
| Posts.ListSelection | src/app/api/posts/route.ts:29-45 | exactly the rows of the table the `where` clause accepts |
| Posts.ListPosts | src/app/api/posts/route.ts:10-99 | page defaults to 1 and limit to 10; a cache hit under the key is returned as is; otherwise the window [skip, skip + limit) of the rows the `where` clause selects, newest first, their number as the total, `pages = ceil(total / limit)`, cached for 5 minutes with every other entry kept apart from at most one eviction; every listed post is published and passes the filters |
| Posts.ListedOnItsPage | src/app/api/posts/route.ts:26-51 | the i-th selected post is listed on page i / limit + 1 at position i % limit; pages past the last are empty |
| Posts.NewRow | src/app/api/posts/route.ts:130-161 | the stored post has a publication time exactly when it is published, the title's slug, and the content's word count and reading time |
| Posts.Upserted | src/app/api/posts/route.ts:164-181 | after the upserts every named tag exists; existing tags are untouched; new ones get their tag slug |
| Posts.Links | src/app/api/posts/route.ts:164-181 | one post-tag link per tag name, in order |
| Posts.TagNames | src/app/api/posts/route.ts:164-165 | the names of a given array, none otherwise |
| Posts.UpsertOne | src/app/api/posts/route.ts:167-171 | an existing tag is kept; a missing one is created with its tag slug |
| Posts.LinksAppend | src/app/api/posts/route.ts:164-181 | one more name adds one more link at the end |
| Posts.UpsertedStep | src/app/api/posts/route.ts:164-181 | upserting one more name adds it only when it is missing |
| Posts.LinksStep | src/app/api/posts/route.ts:164-181 | one more loop step adds one link |
| Posts.PostStore.constructor | src/app/api/posts/route.ts:140-161 | empty tables |
| Posts.LinkTags | src/app/api/posts/route.ts:163-181 | the tag loop leaves the table upserted with every name, in order, and appends one link per name, in order |
| Posts.CreatePost | src/app/api/posts/route.ts:112-198 | 401 without a session and 400 without title or content, both with nothing changed; otherwise the new row is stored, the tags upserted, one link made per tag, the post cache cleared whatever it holds, and the row returned |
| Posts.CreateThenList | src/app/api/posts/route.ts:184-185 | after a post is created on the shared post cache, the next listing of any page is read from the table, and the cache then holds only that page |
| WritePage.Editor.constructor | src/app/write/page.tsx:34-39 | empty content, reading time 0, no tags |
| WritePage.Editor.SetContent | src/app/write/page.tsx:34-39 | the content is set and the reading time follows it |
| WritePage.Editor.SetTagInput | src/app/write/page.tsx:41-46 | only the input changes |
| WritePage.Editor.AddTag | src/app/write/page.tsx:41-46 | a non-empty trimmed input that is not yet a tag is appended and the input cleared; otherwise nothing changes; tags stay distinct |
| WritePage.Editor.RemoveTag | src/app/write/page.tsx:48-50 | the tag is gone and every other tag stays, in order |
| WritePage.Editor.MergeGeneratedTags | src/app/write/page.tsx:213-217 | the tags become the distinct union, existing tags first in their order; a non-array reply is ignored |
| WritePage.ReadingTimeOfBlankContent | src/app/write/page.tsx:34-39 | the reading time is 0 exactly for empty or all-whitespace content |
| Reactions.ParseType | src/app/api/reactions/route.ts:24-30 | recognises exactly the five reaction type names |
| Reactions.Toggle | src/app/api/reactions/route.ts:42-78 | the triple flips its membership and nothing else changes |
| Reactions.ToggleTwice | src/app/api/reactions/route.ts:42-78 | toggling twice restores the table |
| Reactions.ToggleMovesOneCount | src/app/api/reactions/route.ts:42-78 | a toggle moves exactly one count, the toggled type's on the toggled post, by one |
| Reactions.ReactionStore.constructor | src/app/api/reactions/route.ts:6-87 | no reactions |
| Reactions.TogglePost | src/app/api/reactions/route.ts:6-87 | 401, 400 (missing fields), 400 (invalid type) and 404, with nothing changed; a signed-in request with both fields, a valid type and an existing post always succeeds: the triple is toggled, and the reply says whether it was added or removed |
| Reactions.GetReactions | src/app/api/reactions/route.ts:89-154 | 400 without a post id; otherwise each of the five types has its count on the post (0 when none), plus the signed-in user's own types |
| PostCard.Bump | src/components/PostCard.tsx:78-89 | only the bumped key's tally moves, by the delta |
| PostCard.CountOrZero | src/components/PostCard.tsx:42-47 | the server count, or 0 when missing |
| PostCard.Card.constructor | src/components/PostCard.tsx:31-32 | the post's tallies and no user reactions |
| PostCard.Card.LoadReactions | src/components/PostCard.tsx:35-55 | a successful fetch replaces the tallies and the user's types; a failed one changes nothing |
| PostCard.Card.HandleReaction | src/components/PostCard.tsx:57-98 | signed out or failed: nothing changes; "added" raises the key by one and lists its type; otherwise lowers it by one and unlists the type |
| PostCard.KeyMatchesType | src/components/PostCard.tsx:57-98 | the upper-cased key is a reaction type the server accepts |
| PostCard.AddedThenRemovedRestores | src/components/PostCard.tsx:78-89 | an added then removed reply restores the tallies, and the types when the type was not listed before |
| Follow.Adjust | src/app/api/follow/route.ts:58-82 | only the named user's profile counters move, by the deltas |
| Follow.FollowThenUnfollow | src/app/api/follow/route.ts:39-150 | follow then unfollow restores the relation and both counters |
| Follow.AddPairCounts | src/app/api/follow/route.ts:58-82 | adding a pair adds one follower to the target and one following to the follower |
| Follow.RemovePairCounts | src/app/api/follow/route.ts:123-144 | removing a pair takes them off again |
| Follow.FollowKeepsCounters | src/app/api/follow/route.ts:39-103 | a follow keeps every profile's counters equal to its numbers of followers and followings |
| Follow.UnfollowKeepsCounters | src/app/api/follow/route.ts:104-150 | an unfollow keeps them equal too |
| Follow.FollowNotification | src/app/api/follow/route.ts:84-96 | a FOLLOW notification to the target, from the follower, "… started following you" |
| Follow.DisplayName | src/app/api/follow/route.ts:90 | the name when truthy, else the email; never blank when either is truthy |
| Follow.FollowStore.constructor | src/app/api/follow/route.ts:6-166 | no follows; zero counters for users with a profile |
| Follow.FollowPost | src/app/api/follow/route.ts:6-166 | 401; 400 for missing fields or oneself; 404; follow: 400 exactly when already following, else pair added, counters up, target notified; unfollow: 400 exactly when not following, else pair removed, counters down; any other action: 400; failures change nothing; counters keep matching the relation |
| Follow.CounterOr0 | src/app/api/follow/route.ts:205-209 | a profile's counter, or 0 without a profile |
| Follow.FollowStatusOf | src/app/api/follow/route.ts:168-218 | 401, 400; otherwise whether the pair exists and the counters, which are the real numbers of followers and followings |
| Bookmarks.BookmarkStore.constructor | src/app/api/bookmarks/route.ts:6-107 | no bookmarks |
| Bookmarks.BookmarkPost | src/app/api/bookmarks/route.ts:6-107 | 401, 400, 404; bookmark: 400 when already bookmarked, else the pair added; unbookmark: 400 when not bookmarked, else removed; any other action: 400; failures change nothing |
| Bookmarks.Bookmarked | src/app/api/bookmarks/route.ts:32-63 | the pair is in and nothing else changed |
| Bookmarks.Unbookmarked | src/app/api/bookmarks/route.ts:64-92 | the pair is out and nothing else changed |
| Bookmarks.BookmarkThenUnbookmark | src/app/api/bookmarks/route.ts:32-92 | bookmark then unbookmark restores the table, and the other way round |
| Bookmarks.IsBookmarked | src/app/api/bookmarks/route.ts:109-133 | 401 without a session; otherwise whether the user bookmarked the post |
| Bookmarks.BookmarkedPosts | src/app/api/bookmarks/route.ts:136-202 | the user's bookmarked posts in query order, each mapped to its card |
| CardView.TallyReactions | src/app/page.tsx:25-30 | each of HEART, CLAP and FIRE is counted by its occurrences, and the three together never exceed the reactions |
| CardView.Excerpt | src/app/page.tsx:35 | the given excerpt, or the first 150 characters of the content followed by "..." |
| CardView.OrElse | src/app/page.tsx:37-40 | a truthy value, else the fallback; never blank when the fallback is not |
| CardView.ReadingTimeOr5 | src/app/page.tsx:41 | the reading time, or 5 when it is missing or zero |
| CardView.CardOf | src/app/page.tsx:23-45 | the card with every fallback, the tag names and the type tallies; its author name, avatar and excerpt are never blank |
| CardView.TalliesBounded | src/app/page.tsx:25-30 | the tallies never count more reactions than the post has |
| CardView.ToCard | src/app/page.tsx:23-45 | the loop's tally gives the post's card |
| CardView.ToCards | src/app/page.tsx:23-45 | one card per post, in order |
| HomePage.MockPosts | src/app/page.tsx:48-128 | six samples with distinct ids, published 0 to 5 days ago |
| HomePage.DisplayPosts | src/app/page.tsx:130 | the transformed posts when there are any, else the samples |
| HomePage.MocksIffNothingFetched | src/app/page.tsx:130 | the samples show exactly when nothing was fetched, and the list is never empty |
| HomePage.HomePosts | src/app/page.tsx:10-130 | a failed or empty fetch shows the samples; otherwise one card per fetched post |
| Purchase.Sold | src/app/api/purchase/route.ts:75-81 | purchases go up by one, and the revenue by the price |
| Purchase.ForSale | src/app/api/purchase/route.ts:40-42 | premium with a truthy price |
| Purchase.PriceOf | src/app/api/purchase/route.ts:65-81 | the price of a post for sale, non-zero exactly for a post for sale |
| Purchase.SaleKeepsCounter | src/app/api/purchase/route.ts:65-81 | after a sale each post's counter is its number of buyers, and its revenue is that number times its price |
| Purchase.BuyersAfterSale | src/app/api/purchase/route.ts:65-72 | a new purchase adds one buyer to its own post and none to any other |
| Purchase.SaleKeepsConsistent | src/app/api/purchase/route.ts:65-81 | a sale keeps the counters consistent with the purchase table |
| Purchase.PurchaseStore.constructor | src/app/api/purchase/route.ts:8-95 | no purchases |
| Purchase.PurchasePost | src/app/api/purchase/route.ts:8-95 | 401, 400 (no id), 404, 400 (not premium), 400 (already purchased), 400 (own post), in this order, with nothing changed; otherwise a COMPLETED purchase at the price, and the post's counters move |
| Purchase.PurchaseTwice | src/app/api/purchase/route.ts:45-57 | after a successful purchase the same user's second purchase of the post fails with 400 "Already purchased", so the two calls record one purchase and one sale |
| Purchase.HasAccess | src/app/api/purchase/route.ts:97-127 | 401, 400; otherwise whether the user bought the post |
| Search.MatchText | src/app/api/search/route.ts:59-82 | the matched text is the query with every '%' removed |
| Search.MatchTextOfPlainQuery | src/app/api/search/route.ts:59-82 | a query without '%' is matched as is |
| Search.PostMatches | src/app/api/search/route.ts:79-95 | a published post whose title, content, excerpt or one of whose tag names contains the text |
| Search.UserMatches | src/app/api/search/route.ts:142-147 | a user whose name or email contains the text |
| Search.TagMatches | src/app/api/search/route.ts:177-179 | a tag whose name contains the text |
| Search.FindPosts | src/app/api/search/route.ts:77-123 | at most `take` rows, each a post of the table that matches |
| Search.FindUsers | src/app/api/search/route.ts:140-159 | at most `take` rows, each a user of the table that matches |
| Search.FindTags | src/app/api/search/route.ts:175-194 | at most `take` rows, each a tag of the table that matches |
| Search.FoundInQueryOrder | src/app/api/search/route.ts:116-122 | with the tables in query order, posts come most reactions first and tags most posts first |
| Search.PostResult | src/app/api/search/route.ts:125-137 | the post hit carries the row's id, title, author (id, name, image), tag names, reaction and comment counts and publishedAt, with the excerpt fallback |
| Search.UserResult | src/app/api/search/route.ts:161-172 | the user hit carries the row's fields |
| Search.TagResult | src/app/api/search/route.ts:196-202 | the tag hit carries the row's fields |
| Search.PostResults | src/app/api/search/route.ts:125-137 | one hit per row, in order |
| Search.UserResults | src/app/api/search/route.ts:161-172 | one hit per row, in order |
| Search.TagResults | src/app/api/search/route.ts:196-202 | one hit per row, in order |
| Search.MergedResults | src/app/api/search/route.ts:205-221 | the first ceil(limit/3) posts, users and tags, in that order, cut to `limit` |
| Search.MergedResultsBounds | src/app/api/search/route.ts:205-221 | the merged list holds at most `limit` results and at most ceil(limit/3) of each kind, with posts before users before tags |
| Search.SearchAll | src/app/api/search/route.ts:205-221 | each table is searched for ceil(limit/3) rows from the start, and the merged list is returned, at most `limit` long |
| Search.PerformSearch | src/app/api/search/route.ts:58-75 | "posts", "users" and "tags" search their own table with limit and offset; any other type searches all three |
| Paging.IntParam | src/app/api/search/route.ts:18-19 | the parsed parameter, or the default when it is absent |
| Search.Searchable | src/app/api/search/route.ts:21 | a given query of at least two characters once trimmed |
| Search.SearchGet | src/app/api/search/route.ts:7-75 | 401; 400 for a query shorter than 2 after trimming; otherwise a live hit under `search:{q}:{type}` is returned and its age restarts; on a miss the results are the per-type search of the trimmed query (the merge of all three for any other type), cached for 2 minutes with at most one other entry evicted; `hasMore` is exactly "limit results came back" |
| Notifications.NotificationStore.constructor | src/app/api/notifications/route.ts:6-66 | the given notifications |
| Notifications.ListNotifications | src/app/api/notifications/route.ts:6-66 | 401; otherwise the `offset`/`limit` window of the user's selected notifications, newest first; the total is the number selected and the unread count the user's unread ones; limit 20 and offset 0 by default; `hasMore` exactly when rows remain after the window; every row is the user's, and unread under `unreadOnly` |
| Notifications.UnreadOnlyCounts | src/app/api/notifications/route.ts:20-46 | the unread selection is part of the full one and no larger |
| Notifications.AllRead | src/app/api/notifications/route.ts:90-103 | the user's notifications become read and nobody else's change |
| Notifications.AllReadLeavesNoneUnread | src/app/api/notifications/route.ts:90-103 | afterwards the user has none unread, and other users' unread sets are unchanged |
| Notifications.MarkNotifications | src/app/api/notifications/route.ts:68-119 | 401; markAsRead sets that one notification read (an unknown id gives 500); markAllAsRead reads all of the user's; anything else gives 400; failures change nothing |
| Notifications.MarkOneRead | src/app/api/notifications/route.ts:78-88 | marking one read removes just it from its owner's unread set |
| NotificationsPage.HoursBetween | src/app/notifications/page.tsx:107-116 | the elapsed whole hours, rounded down |
| NotificationsPage.TimeAgo | src/app/notifications/page.tsx:107-116 | "Just now" below 1 hour, "{h}h ago" below 24, "Yesterday" below 48, then "{d}d ago" with d ≥ 2 |
| NotificationsPage.TimeAgoDistinguishes | src/app/notifications/page.tsx:107-116 | different hour counts below a day, and different day counts, give different labels |
| NotificationsPage.Unread | src/app/notifications/page.tsx:118-120 | exactly the unread items |
| NotificationsPage.Filtered | src/app/notifications/page.tsx:118-120 | all items on the "all" tab, otherwise the unread ones |
| NotificationsPage.UnreadCount | src/app/notifications/page.tsx:166 | the number of unread items |
| NotificationsPage.ShowMarkAll | src/app/notifications/page.tsx:238 | some filtered item is unread |
| NotificationsPage.UnreadIdempotent | src/app/notifications/page.tsx:118-120 | filtering the unread items twice changes nothing |
| NotificationsPage.MarkAllShownIffUnread | src/app/notifications/page.tsx:166-238 | on either tab the button shows exactly when the unread count is non-zero |
| CrossPost.Publish | src/app/api/crosspost/route.ts:44-59 | succeeds exactly for blogger and medium, and for ghost and wordpress when the API does; outside ghost and wordpress a failure is "Unsupported platform"; blogger and medium always give a URL and an id |
| CrossPost.PublishIgnoresNetworkElsewhere | src/app/api/crosspost/route.ts:44-59 | outside ghost and wordpress the outcome does not depend on the API reply |
| CrossPost.PublishedUrlNamesSlug | src/app/api/crosspost/route.ts:51-56 | on blogger or medium two posts get the same URL only when their slugs are equal |
| CrossPost.RecordOf | src/app/api/crosspost/route.ts:62-71 | the platform name upper-cased, PUBLISHED exactly on success |
| CrossPost.ResultOf | src/app/api/crosspost/route.ts:73-87 | a failed "Internal server error" entry when the iteration threw, else the outcome, with an empty URL turned to null |
| CrossPost.ResultUrlNeverEmpty | src/app/api/crosspost/route.ts:73-78 | a result never carries an empty URL |
| CrossPost.Records | src/app/api/crosspost/route.ts:37-93 | at most one record per platform |
| CrossPost.RecordsWithoutThrows | src/app/api/crosspost/route.ts:37-93 | without a throwing iteration every platform gets its record, in request order |
| CrossPost.Outcomes | src/app/api/crosspost/route.ts:40-59 | one outcome per requested platform, the i-th being the switch on the i-th platform at the i-th clock reading |
| CrossPost.Results | src/app/api/crosspost/route.ts:37-93 | one result per platform visited, in order, each the entry that platform's iteration pushes |
| CrossPost.PublishAll | src/app/api/crosspost/route.ts:37-93 | the loop pushes exactly the results of all platforms, in order, and writes the record of each iteration that did not throw |
| CrossPost.CrossPostStore.constructor | src/app/api/crosspost/route.ts:6-102 | no records |
| CrossPost.CrossPostPost | src/app/api/crosspost/route.ts:6-102 | 401, 400, 404, 403 with nothing stored; otherwise one result per requested platform, in order, and the records of the iterations that did not throw are appended |
| CrossPost.UnknownPlatformFails | src/app/api/crosspost/route.ts:44-59 | an unknown platform fails as unsupported, and its record is FAILED |
| Recommend.Count | src/app/api/ai/recommend/route.ts:148-153 | at most the length, and positive exactly for a tag that occurs |
| Recommend.Frequency | src/app/api/ai/recommend/route.ts:148-153 | one entry per occurring tag |
| Recommend.FrequencyStep | src/app/api/ai/recommend/route.ts:148-153 | one more occurrence adds one to that tag's entry, starting from 0 |
| Recommend.TagFrequency | src/app/api/ai/recommend/route.ts:148-153 | the nested loop's table maps each tag to its number of occurrences, with keys in order of first occurrence |
| Recommend.CountTags | src/app/api/ai/recommend/route.ts:150-152 | counting one post's tags turns the table of the occurrences seen so far into the table of those occurrences followed by the post's tags |
| Recommend.Counted | src/app/api/ai/recommend/route.ts:148-153 | one inner step keeps the table equal to the count of occurrences seen |
| Recommend.Slot | src/app/api/ai/recommend/route.ts:155-158 | the insertion point follows every tag counted at least as often |
| Recommend.SortByFrequency | src/app/api/ai/recommend/route.ts:155-158 | the sort is a permutation of the keys |
| Recommend.SortedByFrequency | src/app/api/ai/recommend/route.ts:155-158 | the sorted tags have non-increasing counts |
| Recommend.InsertKeepsOrder | src/app/api/ai/recommend/route.ts:156 | placing a tag after every tag counted at least as often keeps the list in frequency order |
| Recommend.SortedDistinct | src/app/api/ai/recommend/route.ts:155-158 | sorting distinct keys keeps them distinct |
| Recommend.PreferredTags | src/app/api/ai/recommend/route.ts:155-158 | at most ten tags, a prefix of the frequency order |
| Recommend.TopTags | src/app/api/ai/recommend/route.ts:155-158 | the chosen keys are distinct and in frequency order; no key left out counts more than a chosen one; all are chosen when there are at most ten |
| Recommend.PreferredTagsRanked | src/app/api/ai/recommend/route.ts:148-158 | of the user's reaction history: at most ten distinct tags that occur, by non-increasing count, none left out counted more, and all of them when there are at most ten |
| Recommend.UserPreferences | src/app/api/ai/recommend/route.ts:113-164 | the followed authors and the preferred tags of the reaction history |
| Recommend.InteractedPostIds | src/app/api/ai/recommend/route.ts:239-242 | reacted ids, then bookmarked ids, in order |
| Recommend.InteractedIffReactedOrBookmarked | src/app/api/ai/recommend/route.ts:239-242 | an id is interacted with exactly when it was reacted to or bookmarked |
| Recommend.MatchingTags | src/app/api/ai/recommend/route.ts:282-284 | exactly the preferred tags contained, ignoring case, in some tag of the post |
| Recommend.SameTagMatches | src/app/api/ai/recommend/route.ts:282-284 | a preferred tag equal to a post tag up to case matches |
| Recommend.Reason | src/app/api/ai/recommend/route.ts:290-292 | names the first two matching tags, else the reaction count |
| Recommend.ReasonNamesInterestsIffMatch | src/app/api/ai/recommend/route.ts:290-292 | a reason names interests exactly when some tag matched |
| Recommend.RecommendationFor | src/app/api/ai/recommend/route.ts:280-298 | title, post id, kind "post", the first three tags and the reason |
| Recommend.BasicRecommendations | src/app/api/ai/recommend/route.ts:280-298 | one entry per popular post, in order |
| Recommend.Eligible | src/app/api/ai/recommend/route.ts:245-253 | the popularity query's `where`: published, not by a followed author, not reacted to or bookmarked |
| Recommend.PopularPosts | src/app/api/ai/recommend/route.ts:244-277 | at most `limit` posts, each an eligible post of the table; when fewer than `limit` come back, every eligible post is among them |
| Recommend.RecommendGet | src/app/api/ai/recommend/route.ts:11-51 | 401; with no model key the basic list marked mock; the model's reply when there is one; otherwise the basic list; the basic list is built from the popularity query, so it stays within the limit, avoids interacted posts, and holds only published posts of authors the user does not follow |
| Moderate.WordAt | src/app/api/ai/moderate/route.ts:131-132 | the characters agree up to ASCII case and no word character touches the match on either side |
| Moderate.HasWord | src/app/api/ai/moderate/route.ts:131-132 | the phrase matches at some position |
| Moderate.HasSpamWords | src/app/api/ai/moderate/route.ts:131 | some spam phrase matches as a whole word |
| Moderate.HasHateWords | src/app/api/ai/moderate/route.ts:132 | some hate phrase matches as a whole word |
| Moderate.MatchedInAnyCase | src/app/api/ai/moderate/route.ts:131-132 | a phrase in any case, set off by non-word characters or the ends of the text, is found whatever surrounds it, and flags the text as spam or hate when it is on that list |
| Moderate.WholeWordsOnly | src/app/api/ai/moderate/route.ts:131-132 | for example, "CASINO" inside "Win at the CASINO!" matches, and "casinos" does not match "casino" |
| Moderate.LowerUpperChar | src/app/api/ai/moderate/route.ts:131-132 | upper-casing neither changes a lower-cased character nor makes a word character |
| Moderate.WordAtIgnoresCase | src/app/api/ai/moderate/route.ts:131-132 | upper-casing the content changes no match |
| Moderate.Flags | src/app/api/ai/moderate/route.ts:138-142 | each flag appears exactly when its test fires, in the fixed order |
| Moderate.Suggestions | src/app/api/ai/moderate/route.ts:149-154 | the detail hint exactly for short content; the promotion hint exactly on spam; the two fixed messages last |
| Moderate.Scores | src/app/api/ai/moderate/route.ts:143-148 | the four category scores from the draws and the three tests |
| Moderate.MockModeration | src/app/api/ai/moderate/route.ts:126-157 | approved, with "approve", exactly when no spam or hate phrase appears, else "flag"; flags and suggestions as above |
| Moderate.ScoresInRange | src/app/api/ai/moderate/route.ts:137-148 | with draws in [0, 1) each category score lies in [0, 1); spam reaches 0.5 and hate is non-zero exactly when their tests fired; high quality scores at least 0.7 |
| Moderate.MockScores | src/app/api/ai/moderate/route.ts:137-148 | every score lies in [0, 1); the spam score reaches 0.5 exactly on spam; hate is non-zero exactly on hate; long clean content scores at least 0.7 for quality |
| Moderate.ModerateContent | src/app/api/ai/moderate/route.ts:54-124 | a parsed verdict as is; unparseable text gives the safe default; no text or a failed call is an error |
| Moderate.ModeratePost | src/app/api/ai/moderate/route.ts:10-52 | 401, 400; the mock verdict marked mock without a key; otherwise the model's verdict, and 500 on its failure |
| AdminReports.MockReports | src/app/api/admin/reports/route.ts:25-46 | two reports, ids "1" and "2", one and two hours old |
| AdminReports.WhereOf | src/app/api/admin/reports/route.ts:15-21 | a status or type filter exactly when given |
| AdminReports.ReportsGet | src/app/api/admin/reports/route.ts:4-68 | page default 1 and limit default 10; the page's slice of the mocks, at most `limit`; total 2; `pages = ceil(2 / limit)` |
| AdminReports.FiltersIgnored | src/app/api/admin/reports/route.ts:15-48 | the filters change nothing in the reply |
| AdminReports.DefaultPageHoldsBoth | src/app/api/admin/reports/route.ts:48-57 | for example, with the defaults both reports are on page 1, the only page, and page 2 is empty |
| AdminReports.EveryReportOnItsPage | src/app/api/admin/reports/route.ts:48-57 | report i is on page i / limit + 1, and pages past the last are empty |
| AdminReports.ReportsPatch | src/app/api/admin/reports/route.ts:70-123 | 400 without id or action; approve, reject (with the reason) and ban_user answer exactly their outcomes, each with its own success message; any other action: 400 "Invalid action" |
| AdminUsers.UsersQuery | src/app/api/admin/users/route.ts:7-24 | page default 1, limit default 10, `skip = (page - 1) * limit`; role and search filters exactly when given |
| AdminUsers.UsersGet | src/app/api/admin/users/route.ts:7-67 | the `skip`/`take` window of the users the `where` clause selects, newest first; their number as the total; page and limit defaults; `pages = ceil(total / limit)` |
| AdminUsers.SearchMatches | src/app/api/admin/users/route.ts:20-23 | the name or the email contains the text, ignoring case |
| AdminUsers.Matches | src/app/api/admin/users/route.ts:14-24 | the role filter when given, and the search filter when given |
| AdminUsers.Selection | src/app/api/admin/users/route.ts:14-24 | exactly the users of the table that the filters accept |
| AdminUsers.UsersGetListsSelection | src/app/api/admin/users/route.ts:7-67 | at most `limit` users, each in the table with the requested role and the search text; the i-th selected user is on page i / limit + 1 at position i % limit; pages past the last are empty |
| AdminUsers.RoleWritten | src/app/api/admin/users/route.ts:80-103 | READER for "ban" whatever the role; otherwise the given role; nothing without either |
| AdminUsers.UserStore.constructor | src/app/api/admin/users/route.ts:69-112 | the given roles |
| AdminUsers.UsersPatch | src/app/api/admin/users/route.ts:69-112 | 400 without an id or with nothing to write; 500 for an unknown user; otherwise only that user's role changes, with the ban or update message |
| OptimizedImage.ImageState.constructor | src/components/OptimizedImage.tsx:21-36 | the source loading, no error, and the default fallback when none is given |
| OptimizedImage.ImageState.Render | src/components/OptimizedImage.tsx:64-112 | the placeholder exactly after an error on the fallback; otherwise the image, the spinner while loading, and the badge on an error |
| OptimizedImage.ImageState.SrcChanged | src/components/OptimizedImage.tsx:39-43 | a new source restarts loading with no error |
| OptimizedImage.ImageState.HandleLoad | src/components/OptimizedImage.tsx:45-48 | loading ends, and `onLoad` is called once |
| OptimizedImage.ImageState.HandleError | src/components/OptimizedImage.tsx:50-62 | the first error switches to the fallback; an error on the fallback stands and calls `onError` |
| OptimizedImage.ErrorBadgeNeverShown | src/components/OptimizedImage.tsx:106-110 | the error badge can never render |
| OptimizedImage.TwoErrors | src/components/OptimizedImage.tsx:50-76 | two errors in a row end on the placeholder, with `onError` called exactly once |

## Left out

- Network, database and language-model I/O, and authentication, are outside the model.
  - Tables are parameters, already in the order the query sorts by; the sort itself, and the
    order among ties, are the database's and are not modelled.
  - Prisma's relational semantics beyond that are not modelled: `include`, `_count` (a count is a
    field of the row), and the joins behind a relation filter (a post row carries its tag names).
  - Search.PostMatches: `contains` without `mode: "insensitive"` is modelled as a case-sensitive
    substring test; how the database's collation treats case is not part of this model.
  - Paging.Window: a `skip` or `take` below 0 (a page below 1, a negative limit or offset), which
    Prisma rejects or reads differently, is modelled as JavaScript's `slice`.
  - Notifications.ListNotifications, Bookmarks.BookmarkedPosts, Reactions.GetReactions: the rows
    are a parameter that a `requires` ties to what the query selects; the `where` clause is not
    computed.
  - The language-model prompts, and the parsing of replies, are not modelled; each category of
    reply is a parameter.
  - The Ghost and WordPress HTTP calls are not modelled; each iteration's outcome is a parameter.
- Thrown exceptions that become a 500 reply are modelled only where the source's own branches
  decide them: an unknown id in `update`, the cross-post iteration, and moderation.
  - Other database failures are outside the model.
- Concurrency is outside the model: interleaved requests, and races between the existence
  check and the insert.
- Cache.CacheManager.Set: which entry an eviction removes is left open, because the LRU
  recency order belongs to the `lru-cache` library, which is not part of this model.
  - The contract says only that at most one other key, and no new one, is evicted.
- Cache.Live: an entry counts as live while `now - start < ttl`, the strict reading of a
  time-to-live. The `lru-cache` library's own staleness test still serves an entry whose age
  equals its TTL, so the two differ at that one instant; the library is not part of this model.
- Recommend.SortByFrequency: the sort's stability, that is, the tie order, is not stated.
  - Neither is JavaScript's `Object.entries` order, which puts integer-like keys first.
  - The contracts hold for any tie order.
- Recommend.RecommendGet: the `relevanceScore` field (a floating-point formula) is left out.
  - The history queries' limits (50 reactions, 20 bookmarks, 30 days) belong to the database
    and are left out.
  - The model-driven path's list is checked against neither the limit nor the interaction set,
    because the source does not check it either.
  - The popularity query's order, most reactions first, is the order of the `posts` table.
- Moderate.MockModeration: the mock's scores use `real` arithmetic, not IEEE doubles.
  - `Math.random()` draws are parameters.
- Performance: times are `real` numbers of milliseconds.
  - `performance.now()` is replaced by the elapsed time, given as a parameter.
  - The React `PerformanceMonitor` component is not part of this model.
- Text: `toLowerCase`, `toUpperCase`, `\s` and `\w` are modelled on ASCII.
  - Unicode case mapping and Unicode whitespace are left out.
  - String lengths count characters, not UTF-16 code units.
- Paging: `parseInt` results are modelled as integers, with absent meaning the default.
  - `NaN`, and the string forms of the parameters, are left out.
- The admin routes do no authentication; the model keeps it that way.
- The service worker, the AI generate/seo/summary/image routes, and the remaining pages and
  components are not part of this model.
