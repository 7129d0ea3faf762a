/** The transform from a stored post to the card the post card shows, written out identically in
    the home page (src/app/page.tsx) and the bookmark list (src/app/api/bookmarks/route.ts): the
    reactions are tallied by type, and missing fields fall back to fixed values. */
module CardView {
  import opened Common
  import opened PostCard

  /** A post row with its author and relations as the query includes them; `?.` and `||` see
      None for null or undefined. Reaction types are the stored strings. */
  datatype PostRow = PostRow(id: string, title: string, excerpt: Option<string>, content: string,
                             authorName: Option<string>, authorImage: Option<string>,
                             publishedAt: Option<string>, createdAt: string, readingTime: Option<int>,
                             tags: Option<seq<string>>, reactions: Option<seq<string>>)

  /** The card a `PostCard` receives. */
  datatype CardData = CardData(id: string, title: string, excerpt: string, authorName: string, avatar: string,
                               publishedAt: string, readingTime: int, tags: seq<string>, reactions: Tallies)

  const EXCERPT_LENGTH: nat := 150
  const DEFAULT_AVATAR: string := "https://images.unsplash.com/photo-1472099645785-5658abf4ff4e?w=150&h=150&fit=crop&crop=face"
  const DEFAULT_READING_TIME: int := 5

  /** How often `name` occurs among the reaction types. */
  function Occurrences(types: seq<string>, name: string): nat
  {
    multiset(types)[name]
  }

  /** The `forEach` over a post's reactions: HEART, CLAP and FIRE each bump their own tally,
      every other type is skipped. */
  method TallyReactions(types: seq<string>) returns (t: Tallies)
    ensures t.heart == Occurrences(types, "HEART")
    ensures t.clap == Occurrences(types, "CLAP")
    ensures t.fire == Occurrences(types, "FIRE")
    ensures t.heart + t.clap + t.fire <= |types|
  {
    t := Tallies(0, 0, 0);
    for i := 0 to |types|
      invariant t.heart == Occurrences(types[..i], "HEART")
      invariant t.clap == Occurrences(types[..i], "CLAP")
      invariant t.fire == Occurrences(types[..i], "FIRE")
      invariant t.heart + t.clap + t.fire <= i
    {
      assert types[..i + 1] == types[..i] + [types[i]];
      if types[i] == "HEART" {
        t := t.(heart := t.heart + 1);
      } else if types[i] == "CLAP" {
        t := t.(clap := t.clap + 1);
      } else if types[i] == "FIRE" {
        t := t.(fire := t.fire + 1);
      }
    }
    assert types[..|types|] == types;
  }

  /** `post.excerpt || post.content.substring(0, 150) + '...'`. */
  function Excerpt(excerpt: Option<string>, content: string): (r: string)
    ensures Given(excerpt) ==> r == excerpt.value
    ensures !Given(excerpt) ==> r == Take(content, EXCERPT_LENGTH) + "..." && |r| <= EXCERPT_LENGTH + 3
    ensures !Given(excerpt) ==> Take(content, EXCERPT_LENGTH) <= content
  {
    if Given(excerpt) then excerpt.value else Take(content, EXCERPT_LENGTH) + "..."
  }

  /** `s || fallback` for an optional string: never blank when the fallback is not. */
  function OrElse(s: Option<string>, fallback: string): (r: string)
    ensures Given(s) ==> r == s.value
    ensures !Given(s) ==> r == fallback
    ensures fallback != "" ==> r != ""
  {
    if Given(s) then s.value else fallback
  }

  /** `post.readingTime || 5`: a missing or zero reading time shows as 5 minutes. */
  function ReadingTimeOr5(t: Option<int>): (r: int)
    ensures t.Some? && t.value != 0 ==> r == t.value
    ensures t.None? || t.value == 0 ==> r == DEFAULT_READING_TIME
  {
    if t.Some? && t.value != 0 then t.value else DEFAULT_READING_TIME
  }

  /** The reaction types of a post, none when the relation is missing. */
  function TypesOf(post: PostRow): seq<string>
  {
    if post.reactions.Some? then post.reactions.value else []
  }

  /** The card of a post: its id and title, the fallbacks for excerpt, author name, avatar,
      publication date and reading time, its tag names (none when missing), and the type tallies. */
  function CardOf(post: PostRow): (card: CardData)
    ensures card.id == post.id && card.title == post.title
    ensures card.excerpt == Excerpt(post.excerpt, post.content)
    ensures card.authorName == OrElse(post.authorName, "Anonymous")
    ensures card.avatar == OrElse(post.authorImage, DEFAULT_AVATAR)
    ensures card.authorName != "" && card.avatar != "" && card.excerpt != ""
    ensures card.publishedAt == if Given(post.publishedAt) then post.publishedAt.value else post.createdAt
    ensures card.readingTime == ReadingTimeOr5(post.readingTime)
    ensures card.tags == if post.tags.Some? then post.tags.value else []
    ensures card.reactions.heart == Occurrences(TypesOf(post), "HEART")
    ensures card.reactions.clap == Occurrences(TypesOf(post), "CLAP")
    ensures card.reactions.fire == Occurrences(TypesOf(post), "FIRE")
  {
    CardData(post.id, post.title, Excerpt(post.excerpt, post.content), OrElse(post.authorName, "Anonymous"),
             OrElse(post.authorImage, DEFAULT_AVATAR), OrElse(post.publishedAt, post.createdAt),
             ReadingTimeOr5(post.readingTime), if post.tags.Some? then post.tags.value else [],
             Tallies(Occurrences(TypesOf(post), "HEART"), Occurrences(TypesOf(post), "CLAP"),
                     Occurrences(TypesOf(post), "FIRE")))
  }

  /** The three tallies together never count more reactions than the post has. */
  lemma {:induction false} TalliesBounded(types: seq<string>)
    ensures Occurrences(types, "HEART") + Occurrences(types, "CLAP") + Occurrences(types, "FIRE") <= |types|
  {
    if types != [] {
      var init := types[..|types| - 1];
      assert types == init + [types[|types| - 1]];
      TalliesBounded(init);
    }
  }

  /** One post mapped to its card. */
  method ToCard(post: PostRow) returns (card: CardData)
    ensures card == CardOf(post)
  {
    var counts := TallyReactions(TypesOf(post));
    card := CardData(post.id, post.title, Excerpt(post.excerpt, post.content), OrElse(post.authorName, "Anonymous"),
                     OrElse(post.authorImage, DEFAULT_AVATAR), OrElse(post.publishedAt, post.createdAt),
                     ReadingTimeOr5(post.readingTime), if post.tags.Some? then post.tags.value else [], counts);
  }

  /** `posts.map(...)`: one card per post, in order. */
  method ToCards(posts: seq<PostRow>) returns (cards: seq<CardData>)
    ensures |cards| == |posts|
    ensures forall i :: 0 <= i < |posts| ==> cards[i] == CardOf(posts[i])
  {
    cards := [];
    for i := 0 to |posts|
      invariant |cards| == i
      invariant forall j :: 0 <= j < i ==> cards[j] == CardOf(posts[j])
    {
      var card := ToCard(posts[i]);
      cards := cards + [card];
    }
  }
}
