/** The follow route (src/app/api/follow/route.ts): POST follows or unfollows another user, keeping
    the two profile counters and sending a FOLLOW notification on a follow; GET reports whether the
    signed-in user follows someone and that user's counters. The follow table is a set of
    (follower, following) pairs, its unique key. */
module Follow {
  import opened Common

  datatype Profile = Profile(followers: int, following: int)

  datatype Notification = Notification(userId: string, kind: string, title: string, message: string,
                                       followerId: string, followerName: Option<string>)

  type Pair = (string, string)

  ghost function FollowersOf(follows: set<Pair>, u: string): set<Pair>
  {
    set f | f in follows && f.1 == u
  }

  ghost function FollowingOf(follows: set<Pair>, u: string): set<Pair>
  {
    set f | f in follows && f.0 == u
  }

  /** Every stored profile's counters are the numbers of its followers and of the users it follows. */
  ghost predicate CountersMatch(follows: set<Pair>, profiles: map<string, Profile>)
  {
    forall u :: u in profiles ==>
      profiles[u].followers == |FollowersOf(follows, u)| && profiles[u].following == |FollowingOf(follows, u)|
  }

  /** `profile.updateMany({ where: { userId: u }, data: { followers: +dFollowers, following: +dFollowing } })`:
      the profile of u, if there is one, moves by the deltas; no other profile changes. */
  function Adjust(profiles: map<string, Profile>, u: string, dFollowers: int, dFollowing: int): (r: map<string, Profile>)
    ensures r.Keys == profiles.Keys
    ensures u in profiles ==> r[u] == Profile(profiles[u].followers + dFollowers, profiles[u].following + dFollowing)
    ensures forall v :: v in profiles && v != u ==> r[v] == profiles[v]
  {
    if u in profiles then profiles[u := Profile(profiles[u].followers + dFollowers, profiles[u].following + dFollowing)]
    else profiles
  }

  /** The counters after a follow of `target` by `me`: my `following` and the target's `followers` go up by one. */
  function Followed(profiles: map<string, Profile>, me: string, target: string): map<string, Profile>
  {
    Adjust(Adjust(profiles, me, 0, 1), target, 1, 0)
  }

  /** The counters after an unfollow: both go down by one. */
  function Unfollowed(profiles: map<string, Profile>, me: string, target: string): map<string, Profile>
  {
    Adjust(Adjust(profiles, me, 0, -1), target, -1, 0)
  }

  /** Following and then unfollowing restores the relation and both counters. */
  lemma FollowThenUnfollow(follows: set<Pair>, profiles: map<string, Profile>, me: string, target: string)
    requires (me, target) !in follows
    ensures (follows + {(me, target)}) - {(me, target)} == follows
    ensures Unfollowed(Followed(profiles, me, target), me, target) == profiles
  {
    var r := Unfollowed(Followed(profiles, me, target), me, target);
    assert r.Keys == profiles.Keys;
    forall u | u in profiles ensures r[u] == profiles[u] {
    }
  }

  lemma AddPairCounts(follows: set<Pair>, p: Pair, u: string)
    requires p !in follows
    ensures |FollowersOf(follows + {p}, u)| == |FollowersOf(follows, u)| + (if p.1 == u then 1 else 0)
    ensures |FollowingOf(follows + {p}, u)| == |FollowingOf(follows, u)| + (if p.0 == u then 1 else 0)
  {
    if p.1 == u {
      assert FollowersOf(follows + {p}, u) == FollowersOf(follows, u) + {p};
    } else {
      assert FollowersOf(follows + {p}, u) == FollowersOf(follows, u);
    }
    if p.0 == u {
      assert FollowingOf(follows + {p}, u) == FollowingOf(follows, u) + {p};
    } else {
      assert FollowingOf(follows + {p}, u) == FollowingOf(follows, u);
    }
  }

  lemma RemovePairCounts(follows: set<Pair>, p: Pair, u: string)
    requires p in follows
    ensures |FollowersOf(follows - {p}, u)| + (if p.1 == u then 1 else 0) == |FollowersOf(follows, u)|
    ensures |FollowingOf(follows - {p}, u)| + (if p.0 == u then 1 else 0) == |FollowingOf(follows, u)|
  {
    assert (follows - {p}) + {p} == follows;
    AddPairCounts(follows - {p}, p, u);
  }

  /** A follow keeps the counters matching the relation. */
  lemma FollowKeepsCounters(follows: set<Pair>, profiles: map<string, Profile>, me: string, target: string)
    requires CountersMatch(follows, profiles)
    requires me != target && (me, target) !in follows
    ensures CountersMatch(follows + {(me, target)}, Followed(profiles, me, target))
  {
    forall u | u in profiles
      ensures Followed(profiles, me, target)[u].followers == |FollowersOf(follows + {(me, target)}, u)|
      ensures Followed(profiles, me, target)[u].following == |FollowingOf(follows + {(me, target)}, u)|
    {
      AddPairCounts(follows, (me, target), u);
    }
  }

  /** An unfollow keeps the counters matching the relation. */
  lemma UnfollowKeepsCounters(follows: set<Pair>, profiles: map<string, Profile>, me: string, target: string)
    requires CountersMatch(follows, profiles)
    requires me != target && (me, target) in follows
    ensures CountersMatch(follows - {(me, target)}, Unfollowed(profiles, me, target))
  {
    forall u | u in profiles
      ensures Unfollowed(profiles, me, target)[u].followers == |FollowersOf(follows - {(me, target)}, u)|
      ensures Unfollowed(profiles, me, target)[u].following == |FollowingOf(follows - {(me, target)}, u)|
    {
      RemovePairCounts(follows, (me, target), u);
    }
  }

  /** `session.user.name || session.user.email` in a template literal. */
  function DisplayName(name: Option<string>, email: Option<string>): (r: string)
    ensures Given(name) ==> r == name.value
    ensures Given(name) || Given(email) ==> r != ""
  {
    if Given(name) then name.value else if email.Some? then email.value else "undefined"
  }

  /** The notification a follow sends to the followed user. */
  function FollowNotification(target: string, s: Session): (n: Notification)
    ensures n.userId == target && n.kind == "FOLLOW" && n.followerId == s.userId
    ensures n.message == DisplayName(s.name, s.email) + " started following you"
  {
    Notification(target, "FOLLOW", "New Follower", DisplayName(s.name, s.email) + " started following you",
                 s.userId, s.name)
  }

  class FollowStore {
    var users: set<string>
    var follows: set<Pair>
    var profiles: map<string, Profile>
    var notifications: seq<Notification>

    ghost predicate Valid()
      reads this
    {
      CountersMatch(follows, profiles)
    }

    /** Registered users, those of them with a profile, and no follows yet. */
    constructor (users: set<string>, withProfile: set<string>)
      ensures Valid()
      ensures this.users == users && follows == {} && notifications == []
      ensures profiles == map u | u in withProfile :: Profile(0, 0)
    {
      this.users := users;
      follows, notifications := {}, [];
      profiles := map u | u in withProfile :: Profile(0, 0);
      assert forall u :: FollowersOf({}, u) == {} && FollowingOf({}, u) == {};
    }
  }

  /** POST: 401 without a session; 400 for a missing user id or action and for oneself; 404 for an
      unknown user; "follow" gives 400 when already following and otherwise adds the pair, moves both
      counters up and notifies the target; "unfollow" gives 400 when not following and otherwise
      removes the pair and moves both counters down; any other action gives 400. Every failure
      leaves the store as it was. */
  method FollowPost(store: FollowStore, session: Option<Session>, userId: Option<string>, action: Option<string>)
    returns (reply: Reply<string>)
    requires store.Valid()
    modifies store
    ensures store.Valid()
    ensures store.users == old(store.users)
    ensures reply.Fail? ==> store.follows == old(store.follows) && store.profiles == old(store.profiles)
                            && store.notifications == old(store.notifications)
    ensures SessionUser(session).None? ==> reply == Fail(401, "Unauthorized")
    ensures SessionUser(session).Some? && !(Given(userId) && Given(action)) ==>
              reply == Fail(400, "User ID and action are required")
    ensures SessionUser(session).Some? && Given(userId) && Given(action) && userId.value == SessionUser(session).value ==>
              reply == Fail(400, "Cannot follow yourself")
    ensures (SessionUser(session).Some? && Given(userId) && Given(action) && userId.value != SessionUser(session).value
             && userId.value !in old(store.users)) ==> reply == Fail(404, "User not found")
    ensures reply.Ok? ==>
              SessionUser(session).Some? && Given(userId) && Given(action) && userId.value in old(store.users)
              && SessionUser(session).value != userId.value
              && (action.value == "follow" || action.value == "unfollow")
    ensures reply.Ok? && action.value == "follow" ==>
              var p := (SessionUser(session).value, userId.value);
              p !in old(store.follows) && store.follows == old(store.follows) + {p}
              && store.profiles == Followed(old(store.profiles), p.0, p.1)
              && store.notifications == old(store.notifications) + [FollowNotification(p.1, session.value)]
              && reply.body == "followed"
    ensures reply.Ok? && action.value == "unfollow" ==>
              var p := (SessionUser(session).value, userId.value);
              p in old(store.follows) && store.follows == old(store.follows) - {p}
              && store.profiles == Unfollowed(old(store.profiles), p.0, p.1)
              && store.notifications == old(store.notifications)
              && reply.body == "unfollowed"
    ensures (SessionUser(session).Some? && Given(userId) && Given(action) && userId.value != SessionUser(session).value
             && userId.value in old(store.users)) ==>
              if action.value == "follow" then
                (reply.Fail? <==> (SessionUser(session).value, userId.value) in old(store.follows))
                && (reply.Fail? ==> reply == Fail(400, "Already following this user"))
              else if action.value == "unfollow" then
                (reply.Fail? <==> (SessionUser(session).value, userId.value) !in old(store.follows))
                && (reply.Fail? ==> reply == Fail(400, "Not following this user"))
              else reply == Fail(400, "Invalid action. Use 'follow' or 'unfollow'")
  {
    var me := SessionUser(session);
    if me.None? {
      return Fail(401, "Unauthorized");
    }
    if !(Given(userId) && Given(action)) {
      return Fail(400, "User ID and action are required");
    }
    var target := userId.value;
    if target == me.value {
      return Fail(400, "Cannot follow yourself");
    }
    if target !in store.users {
      return Fail(404, "User not found");
    }
    var p := (me.value, target);
    if action.value == "follow" {
      if p in store.follows {
        return Fail(400, "Already following this user");
      }
      FollowKeepsCounters(store.follows, store.profiles, me.value, target);
      store.follows := store.follows + {p};
      store.profiles := Adjust(store.profiles, me.value, 0, 1);
      store.profiles := Adjust(store.profiles, target, 1, 0);
      store.notifications := store.notifications + [FollowNotification(target, session.value)];
      reply := Ok("followed");
    } else if action.value == "unfollow" {
      if p !in store.follows {
        return Fail(400, "Not following this user");
      }
      UnfollowKeepsCounters(store.follows, store.profiles, me.value, target);
      store.follows := store.follows - {p};
      store.profiles := Adjust(store.profiles, me.value, 0, -1);
      store.profiles := Adjust(store.profiles, target, -1, 0);
      reply := Ok("unfollowed");
    } else {
      reply := Fail(400, "Invalid action. Use 'follow' or 'unfollow'");
    }
  }

  datatype FollowStatus = FollowStatus(isFollowing: bool, followers: int, following: int)

  /** `profile?.followers || 0` (and the same for `following`). */
  function CounterOr0(profiles: map<string, Profile>, u: string, ofFollowers: bool): (n: int)
    ensures u !in profiles ==> n == 0
    ensures u in profiles ==> n == if ofFollowers then profiles[u].followers else profiles[u].following
  {
    if u !in profiles then 0 else if ofFollowers then profiles[u].followers else profiles[u].following
  }

  /** GET: 401 without a session, 400 without a user id; otherwise whether the pair exists and the
      user's counters, 0 when the user has no profile. With matching counters these are the numbers
      of the user's followers and followings. */
  method FollowStatusOf(store: FollowStore, session: Option<Session>, userId: Option<string>)
    returns (reply: Reply<FollowStatus>)
    ensures SessionUser(session).None? ==> reply == Fail(401, "Unauthorized")
    ensures SessionUser(session).Some? && !Given(userId) ==> reply == Fail(400, "User ID is required")
    ensures SessionUser(session).Some? && Given(userId) ==>
              reply.Ok?
              && (reply.body.isFollowing <==> (SessionUser(session).value, userId.value) in store.follows)
              && reply.body.followers == CounterOr0(store.profiles, userId.value, true)
              && reply.body.following == CounterOr0(store.profiles, userId.value, false)
    ensures SessionUser(session).Some? && Given(userId) && store.Valid() && userId.value in store.profiles ==>
              reply.body.followers == |FollowersOf(store.follows, userId.value)|
              && reply.body.following == |FollowingOf(store.follows, userId.value)|
  {
    var me := SessionUser(session);
    if me.None? {
      return Fail(401, "Unauthorized");
    }
    if !Given(userId) {
      return Fail(400, "User ID is required");
    }
    var u := userId.value;
    reply := Ok(FollowStatus((me.value, u) in store.follows, CounterOr0(store.profiles, u, true),
                             CounterOr0(store.profiles, u, false)));
  }
}
