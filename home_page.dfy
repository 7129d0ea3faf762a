/** The home page's post list (src/app/page.tsx): the fetched posts are mapped to cards, and the six
    built-in sample posts are shown instead when that leaves nothing to show. The clock and
    `Date.prototype.toISOString` are parameters. */
module HomePage {
  import opened Common
  import opened PostCard
  import opened CardView

  const DAY_MS: int := 86400000

  // The sample posts' texts.
  const MOCK_1_TITLE: string := "Welcome to Dev.to Clone"
  const MOCK_1_EXCERPT: string :=
    "A modern social blogging platform built with Next.js and Ghost CMS. Join thousands of developers sharing knowledge and building amazing things together."
  const MOCK_1_AVATAR: string := "https://images.unsplash.com/photo-1494790108755-2616b612b786?w=150&h=150&fit=crop&crop=face"
  const MOCK_2_TITLE: string := "Building Scalable React Applications with Next.js 15"
  const MOCK_2_EXCERPT: string :=
    "Learn the latest features in Next.js 15 and how to build production-ready applications that scale. From App Router to Server Components, we've got you covered."
  const MOCK_2_AVATAR: string := "https://images.unsplash.com/photo-1507003211169-0a1dd7228f2d?w=150&h=150&fit=crop&crop=face"
  const MOCK_3_TITLE: string := "The Future of AI in Software Development"
  const MOCK_3_EXCERPT: string :=
    "Exploring how artificial intelligence is transforming the way we write code, debug applications, and maintain software systems. What does the future hold?"
  const MOCK_3_AVATAR: string := "https://images.unsplash.com/photo-1438761681033-6461ffad8d80?w=150&h=150&fit=crop&crop=face"
  const MOCK_4_TITLE: string := "Mastering TypeScript: Advanced Patterns and Best Practices"
  const MOCK_4_EXCERPT: string :=
    "Deep dive into advanced TypeScript features including conditional types, mapped types, and utility types. Level up your TypeScript game with these powerful patterns."
  const MOCK_5_TITLE: string := "Docker for Developers: From Zero to Production"
  const MOCK_5_EXCERPT: string :=
    "Complete guide to containerizing your applications with Docker. Learn about Dockerfiles, docker-compose, and deploying to production environments."
  const MOCK_5_AVATAR: string := "https://images.unsplash.com/photo-1487412720507-e7ab37603c6f?w=150&h=150&fit=crop&crop=face"
  const MOCK_6_TITLE: string := "Building APIs with Node.js and Express: A Complete Tutorial"
  const MOCK_6_EXCERPT: string :=
    "Learn how to build robust REST APIs with Node.js and Express. Includes authentication, validation, error handling, and database integration."
  const MOCK_6_AVATAR: string := "https://images.unsplash.com/photo-1500648767791-00dcc994a43e?w=150&h=150&fit=crop&crop=face"

  /** One sample card; its publication date lies `daysAgo` days before `now`. */
  function Mock(id: string, title: string, excerpt: string, name: string, avatar: string, daysAgo: nat,
                readingTime: int, tags: seq<string>, heart: int, clap: int, fire: int,
                iso: int -> string, now: int): CardData
  {
    CardData(id, title, excerpt, name, avatar, iso(now - daysAgo * DAY_MS), readingTime, tags,
             Tallies(heart, clap, fire))
  }

  function Mock1(iso: int -> string, now: int): CardData
  {
    Mock("1", MOCK_1_TITLE, MOCK_1_EXCERPT,
         "Sarah Chen", MOCK_1_AVATAR,
         0, 5, ["welcome", "introduction", "platform"], 42, 28, 12, iso, now)
  }

  function Mock2(iso: int -> string, now: int): CardData
  {
    Mock("2", MOCK_2_TITLE, MOCK_2_EXCERPT,
         "Alex Rodriguez", MOCK_2_AVATAR,
         1, 8, ["react", "nextjs", "javascript", "webdev"], 67, 45, 23, iso, now)
  }

  function Mock3(iso: int -> string, now: int): CardData
  {
    Mock("3", MOCK_3_TITLE, MOCK_3_EXCERPT,
         "Dr. Maria Santos", MOCK_3_AVATAR,
         2, 12, ["ai", "machine-learning", "future", "technology"], 89, 56, 34, iso, now)
  }

  function Mock4(iso: int -> string, now: int): CardData
  {
    Mock("4", MOCK_4_TITLE, MOCK_4_EXCERPT,
         "James Wilson", DEFAULT_AVATAR,
         3, 15, ["typescript", "javascript", "programming", "best-practices"], 134, 78, 45, iso, now)
  }

  function Mock5(iso: int -> string, now: int): CardData
  {
    Mock("5", MOCK_5_TITLE, MOCK_5_EXCERPT,
         "Lisa Park", MOCK_5_AVATAR,
         4, 20, ["docker", "devops", "containers", "deployment"], 156, 92, 67, iso, now)
  }

  function Mock6(iso: int -> string, now: int): CardData
  {
    Mock("6", MOCK_6_TITLE, MOCK_6_EXCERPT,
         "Carlos Mendoza", MOCK_6_AVATAR,
         5, 18, ["nodejs", "express", "api", "backend"], 98, 63, 29, iso, now)
  }

  /** The six sample posts, with ids "1" to "6", published today and one to five days ago. */
  function MockPosts(iso: int -> string, now: int): (mocks: seq<CardData>)
    ensures |mocks| == 6
    ensures forall i :: 0 <= i < 6 ==> mocks[i].publishedAt == iso(now - i * DAY_MS)
    ensures forall i, j :: 0 <= i < j < 6 ==> mocks[i].id != mocks[j].id
  {
    [Mock1(iso, now), Mock2(iso, now), Mock3(iso, now), Mock4(iso, now), Mock5(iso, now), Mock6(iso, now)]
  }

  /** `transformedPosts.length > 0 ? transformedPosts : mockPosts`. */
  function DisplayPosts(transformed: seq<CardData>, mocks: seq<CardData>): (display: seq<CardData>)
    ensures transformed != [] ==> display == transformed
    ensures transformed == [] ==> display == mocks
  {
    if |transformed| > 0 then transformed else mocks
  }

  /** The samples are shown exactly when no post was fetched, and never mixed with real posts. */
  lemma MocksIffNothingFetched(transformed: seq<CardData>, iso: int -> string, now: int)
    ensures DisplayPosts(transformed, MockPosts(iso, now)) == MockPosts(iso, now) <==>
              transformed == [] || transformed == MockPosts(iso, now)
    ensures |DisplayPosts(transformed, MockPosts(iso, now))| > 0
  {
  }

  /** The page body's list: `data.posts || []` from the fetch (None when it threw or the reply had no
      posts), each post mapped to its card, and the samples when that list is empty. */
  method HomePosts(fetched: Option<seq<PostRow>>, iso: int -> string, now: int) returns (display: seq<CardData>)
    ensures fetched.None? || fetched.value == [] ==> display == MockPosts(iso, now)
    ensures fetched.Some? && fetched.value != [] ==>
              |display| == |fetched.value| && forall i :: 0 <= i < |display| ==> display[i] == CardOf(fetched.value[i])
  {
    var posts := if fetched.Some? then fetched.value else [];
    var transformed := ToCards(posts);
    display := DisplayPosts(transformed, MockPosts(iso, now));
  }
}
