/** The reaction route (src/app/api/reactions/route.ts): POST toggles the signed-in user's reaction
    of one type on a post, GET reports the count of every type with zero defaults together with
    the signed-in user's own reaction types. The reaction table is a set of (post, user, type)
    triples, which is the table's unique key. */
module Reactions {
  import opened Common

  datatype ReactionType = HEART | CLAP | FIRE | ROCKET | EYES

  function TypeName(t: ReactionType): string
  {
    match t
    case HEART => "HEART"
    case CLAP => "CLAP"
    case FIRE => "FIRE"
    case ROCKET => "ROCKET"
    case EYES => "EYES"
  }

  /** `validTypes.includes(type)`: the type a request names, when it is one of the five. */
  function ParseType(s: string): (r: Option<ReactionType>)
    ensures r.Some? ==> TypeName(r.value) == s
    ensures (exists t :: TypeName(t) == s) ==> r.Some?
  {
    if s == "HEART" then Some(HEART)
    else if s == "CLAP" then Some(CLAP)
    else if s == "FIRE" then Some(FIRE)
    else if s == "ROCKET" then Some(ROCKET)
    else if s == "EYES" then Some(EYES)
    else None
  }

  datatype Reaction = Reaction(postId: string, userId: string, kind: ReactionType)

  datatype ToggleAction = Added | Removed
  datatype Toggled = Toggled(action: ToggleAction, kind: ReactionType)

  /** The reaction table after toggling one triple. */
  function Toggle(reactions: set<Reaction>, r: Reaction): (s: set<Reaction>)
    ensures r in s <==> r !in reactions
    ensures forall x :: x != r ==> (x in s <==> x in reactions)
  {
    if r in reactions then reactions - {r} else reactions + {r}
  }

  /** Toggling the same triple twice restores the table. */
  lemma ToggleTwice(reactions: set<Reaction>, r: Reaction)
    ensures Toggle(Toggle(reactions, r), r) == reactions
  {
  }

  /** The reactions of type t on a post. */
  function ReactionsOf(reactions: set<Reaction>, postId: string, t: ReactionType): set<Reaction>
  {
    set x | x in reactions && x.postId == postId && x.kind == t
  }

  function CountOf(reactions: set<Reaction>, postId: string, t: ReactionType): nat
  {
    |ReactionsOf(reactions, postId, t)|
  }

  /** A toggle moves exactly the toggled type's count on the toggled post, by one. */
  lemma ToggleMovesOneCount(reactions: set<Reaction>, r: Reaction, postId: string, t: ReactionType)
    ensures postId == r.postId && t == r.kind && r !in reactions ==>
              CountOf(Toggle(reactions, r), postId, t) == CountOf(reactions, postId, t) + 1
    ensures postId == r.postId && t == r.kind && r in reactions ==>
              CountOf(Toggle(reactions, r), postId, t) + 1 == CountOf(reactions, postId, t)
    ensures postId != r.postId || t != r.kind ==>
              CountOf(Toggle(reactions, r), postId, t) == CountOf(reactions, postId, t)
  {
    var before, after := ReactionsOf(reactions, postId, t), ReactionsOf(Toggle(reactions, r), postId, t);
    if postId == r.postId && t == r.kind {
      if r in reactions {
        assert after == before - {r};
      } else {
        assert after == before + {r};
      }
    } else {
      assert after == before;
    }
  }

  class ReactionStore {
    var posts: set<string>
    var reactions: set<Reaction>

    constructor (posts: set<string>)
      ensures this.posts == posts && reactions == {}
    {
      this.posts := posts;
      reactions := {};
    }
  }

  /** POST: 401 without a session, 400 for a missing post id or type and for a type outside the five,
      404 for an unknown post, all with the table unchanged; otherwise the triple is toggled and the
      reply says whether it was added or removed. */
  method TogglePost(store: ReactionStore, session: Option<Session>, postId: Option<string>, typ: Option<string>)
    returns (reply: Reply<Toggled>)
    modifies store
    ensures store.posts == old(store.posts)
    ensures SessionUser(session).None? ==> reply == Fail(401, "Unauthorized")
    ensures SessionUser(session).Some? && !(Given(postId) && Given(typ)) ==>
              reply == Fail(400, "Post ID and reaction type are required")
    ensures SessionUser(session).Some? && Given(postId) && Given(typ) && ParseType(typ.value).None? ==>
              reply == Fail(400, "Invalid reaction type")
    ensures (SessionUser(session).Some? && Given(postId) && Given(typ) && ParseType(typ.value).Some?
              && postId.value !in store.posts) ==> reply == Fail(404, "Post not found")
    ensures (SessionUser(session).Some? && Given(postId) && Given(typ) && ParseType(typ.value).Some?
              && postId.value in store.posts) ==> reply.Ok?
    ensures reply.Fail? ==> store.reactions == old(store.reactions)
    ensures reply.Ok? ==>
              SessionUser(session).Some? && Given(postId) && Given(typ) && ParseType(typ.value).Some?
              && postId.value in store.posts
              && var r := Reaction(postId.value, SessionUser(session).value, ParseType(typ.value).value);
                 store.reactions == Toggle(old(store.reactions), r)
                 && reply.body == Toggled(if r in old(store.reactions) then Removed else Added, r.kind)
  {
    var user := SessionUser(session);
    if user.None? {
      return Fail(401, "Unauthorized");
    }
    if !(Given(postId) && Given(typ)) {
      return Fail(400, "Post ID and reaction type are required");
    }
    var kind := ParseType(typ.value);
    if kind.None? {
      return Fail(400, "Invalid reaction type");
    }
    if postId.value !in store.posts {
      return Fail(404, "Post not found");
    }
    var r := Reaction(postId.value, user.value, kind.value);
    if r in store.reactions {
      store.reactions := store.reactions - {r};
      reply := Ok(Toggled(Removed, kind.value));
    } else {
      store.reactions := store.reactions + {r};
      reply := Ok(Toggled(Added, kind.value));
    }
  }

  /** What `groupBy` returns for a post: one row per type with at least one reaction, with its count. */
  ghost predicate IsGrouping(rows: seq<(ReactionType, nat)>, reactions: set<Reaction>, postId: string)
  {
    (forall i :: 0 <= i < |rows| ==> rows[i].1 == CountOf(reactions, postId, rows[i].0))
    && (forall t :: CountOf(reactions, postId, t) > 0 ==> exists i :: 0 <= i < |rows| && rows[i].0 == t)
  }

  datatype ReactionSummary = ReactionSummary(counts: map<ReactionType, nat>, userReactions: set<ReactionType>)

  /** GET: 400 without a post id; otherwise every one of the five types gets its count on the post,
      0 where it has none, and a signed-in user also gets the types of their own reactions. */
  method GetReactions(store: ReactionStore, postId: Option<string>, session: Option<Session>,
                      rows: seq<(ReactionType, nat)>)
    returns (reply: Reply<ReactionSummary>)
    requires Given(postId) ==> IsGrouping(rows, store.reactions, postId.value)
    ensures !Given(postId) ==> reply == Fail(400, "Post ID is required")
    ensures Given(postId) ==> reply.Ok?
    ensures reply.Ok? ==> forall t :: t in reply.body.counts && reply.body.counts[t] == CountOf(store.reactions, postId.value, t)
    ensures reply.Ok? ==>
              (reply.body.userReactions ==
                 if SessionUser(session).None? then {}
                 else set x | x in store.reactions && x.postId == postId.value && x.userId == SessionUser(session).value :: x.kind)
  {
    if !Given(postId) {
      return Fail(400, "Post ID is required");
    }
    var user := SessionUser(session);
    var mine: set<ReactionType> := {};
    if user.Some? {
      mine := set x | x in store.reactions && x.postId == postId.value && x.userId == user.value :: x.kind;
    }
    var counts := map[HEART := 0, CLAP := 0, FIRE := 0, ROCKET := 0, EYES := 0];
    forall t ensures t in counts && counts[t] == 0 {
      match t
      case HEART =>
      case CLAP =>
      case FIRE =>
      case ROCKET =>
      case EYES =>
    }
    for i := 0 to |rows|
      invariant forall t :: t in counts
      invariant forall t :: counts[t] == 0 || counts[t] == CountOf(store.reactions, postId.value, t)
      invariant forall j :: 0 <= j < i ==> counts[rows[j].0] == CountOf(store.reactions, postId.value, rows[j].0)
    {
      counts := counts[rows[i].0 := rows[i].1];
    }
    forall t | true ensures t in counts && counts[t] == CountOf(store.reactions, postId.value, t) {
      if CountOf(store.reactions, postId.value, t) > 0 {
        var j :| 0 <= j < |rows| && rows[j].0 == t;
      }
    }
    reply := Ok(ReactionSummary(counts, mine));
  }
}
