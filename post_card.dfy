/** The post card's reaction state (src/components/PostCard.tsx): the three displayed counts and the
    upper-case types the signed-in user has reacted with, set by the initial fetch and updated
    optimistically by `handleReaction` from the POST reply. */
module PostCard {
  import opened Common
  import Reactions

  /** The three reaction buttons; `handleReaction` is called with their lower-case names. */
  datatype Key = Heart | Clap | Fire

  function KeyName(k: Key): string
  {
    match k
    case Heart => "heart"
    case Clap => "clap"
    case Fire => "fire"
  }

  /** The counts the card shows (`{ heart, clap, fire }`). */
  datatype Tallies = Tallies(heart: int, clap: int, fire: int)

  function TallyOf(t: Tallies, k: Key): int
  {
    match k
    case Heart => t.heart
    case Clap => t.clap
    case Fire => t.fire
  }

  /** `newReactions[key] += delta` on a copy. */
  function Bump(t: Tallies, k: Key, delta: int): (r: Tallies)
    ensures TallyOf(r, k) == TallyOf(t, k) + delta
    ensures forall j :: j != k ==> TallyOf(r, j) == TallyOf(t, j)
  {
    match k
    case Heart => t.(heart := t.heart + delta)
    case Clap => t.(clap := t.clap + delta)
    case Fire => t.(fire := t.fire + delta)
  }

  /** How the POST settled: a non-OK status, a thrown fetch, or an OK reply carrying its `action`. */
  datatype PostOutcome = NotOk | Threw | Ok(action: string)

  /** `data.counts.X || 0`. */
  function CountOrZero(counts: map<Reactions.ReactionType, nat>, t: Reactions.ReactionType): (n: nat)
    ensures t in counts ==> n == counts[t]
    ensures t !in counts ==> n == 0
  {
    if t in counts then counts[t] else 0
  }

  class Card {
    var reactions: Tallies
    var userReactions: seq<string>
    var loading: bool

    /** `useState(post.reactions)` and an empty reaction list. */
    constructor (initial: Tallies)
      ensures reactions == initial && userReactions == [] && !loading
    {
      reactions, userReactions, loading := initial, [], false;
    }

    /** The initial GET: on an OK reply the counts of HEART, CLAP and FIRE become the three tallies,
        0 for a missing one, and the user's types are taken over (`|| []`, so None gives none);
        on anything else nothing changes. */
    method LoadReactions(ok: bool, counts: map<Reactions.ReactionType, nat>, types: Option<seq<string>>)
      modifies this
      ensures ok ==> reactions == Tallies(CountOrZero(counts, Reactions.HEART), CountOrZero(counts, Reactions.CLAP),
                                          CountOrZero(counts, Reactions.FIRE))
      ensures ok ==> userReactions == if types.Some? then types.value else []
      ensures !ok ==> reactions == old(reactions) && userReactions == old(userReactions)
      ensures loading == old(loading)
    {
      if ok {
        reactions := Tallies(CountOrZero(counts, Reactions.HEART), CountOrZero(counts, Reactions.CLAP),
                             CountOrZero(counts, Reactions.FIRE));
        userReactions := if types.Some? then types.value else [];
      }
    }

    /** `handleReaction(type)`: without a session, or when the reply is not OK or the request throws,
        the counts and the user's types stay as they are. On "added" exactly the reacted count goes up
        by one and the upper-case type is appended; on any other OK action exactly that count goes
        down by one and the type is filtered out. Loading ends false. */
    method HandleReaction(k: Key, signedIn: bool, outcome: PostOutcome)
      modifies this
      ensures !signedIn || !outcome.Ok? ==> reactions == old(reactions) && userReactions == old(userReactions)
      ensures signedIn && outcome.Ok? && outcome.action == "added" ==>
                reactions == Bump(old(reactions), k, 1) && userReactions == old(userReactions) + [Upper(KeyName(k))]
      ensures signedIn && outcome.Ok? && outcome.action != "added" ==>
                reactions == Bump(old(reactions), k, -1) && userReactions == RemoveAll(old(userReactions), Upper(KeyName(k)))
      ensures signedIn ==> !loading
      ensures !signedIn ==> loading == old(loading)
    {
      if !signedIn {
        return;
      }
      loading := true;
      if outcome.Ok? {
        var newReactions := reactions;
        if outcome.action == "added" {
          newReactions := Bump(newReactions, k, 1);
          userReactions := userReactions + [Upper(KeyName(k))];
        } else {
          newReactions := Bump(newReactions, k, -1);
          userReactions := RemoveAll(userReactions, Upper(KeyName(k)));
        }
        reactions := newReactions;
      }
      loading := false;
    }
  }

  /** The upper-cased key is the reaction type the server toggles. */
  lemma KeyMatchesType(k: Key)
    ensures Reactions.ParseType(Upper(KeyName(k))).Some?
    ensures Reactions.TypeName(Reactions.ParseType(Upper(KeyName(k))).value) == Upper(KeyName(k))
  {
    var u := Upper(KeyName(k));
    match k
    case Heart => assert u == "HEART";
    case Clap => assert u == "CLAP";
    case Fire => assert u == "FIRE";
  }

  /** An "added" reply followed by a "removed" one for the same key restores the counts, and restores
      the user's types when the type was not listed before. */
  lemma AddedThenRemovedRestores(t: Tallies, types: seq<string>, k: Key)
    ensures Bump(Bump(t, k, 1), k, -1) == t
    ensures Upper(KeyName(k)) !in types ==> RemoveAll(types + [Upper(KeyName(k))], Upper(KeyName(k))) == types
  {
    if Upper(KeyName(k)) !in types {
      RemoveAppended(types, Upper(KeyName(k)));
    }
  }
}
