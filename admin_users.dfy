/** The admin user routes (src/app/api/admin/users/route.ts): GET pages through the users that
    match an optional role and name/e-mail search; PATCH bans a user (by making them a READER) or
    writes the role it is given. The user table, newest first, is a parameter of GET; PATCH works on
    the roles stored per user id. */
module AdminUsers {
  import opened Common
  import opened Paging

  /** The query GET sends: `skip`, `take`, and a role and search filter for whichever is given. */
  datatype Query = Query(skip: int, take: int, role: Option<string>, search: Option<string>)

  /** The columns the filters look at. */
  datatype UserRow = UserRow(id: string, name: Option<string>, email: string, role: string)

  datatype UsersPage = UsersPage(users: seq<UserRow>, page: int, limit: int, total: nat, pages: Option<int>)

  /** The query for a request: page defaults to 1 and limit to 10, `skip = (page - 1) * limit`. */
  function UsersQuery(pageParam: Option<int>, limitParam: Option<int>, role: Option<string>,
                      search: Option<string>): (q: Query)
    ensures var page, limit := IntParam(pageParam, 1), IntParam(limitParam, 10);
            q.take == limit && q.skip + limit == page * limit
            && (page >= 1 && limit >= 0 ==> q.skip >= 0)
    ensures q.role.Some? <==> Given(role)
    ensures q.search.Some? <==> Given(search)
    ensures Given(role) ==> q.role == role
    ensures Given(search) ==> q.search == search
  {
    var page := IntParam(pageParam, 1);
    var limit := IntParam(limitParam, 10);
    Query(Skip(page, limit), limit, if Given(role) then role else None, if Given(search) then search else None)
  }

  /** The search filter: the text, ignoring case, in the name or the e-mail. */
  predicate SearchMatches(search: string, u: UserRow)
  {
    (u.name.Some? && Contains(Lower(u.name.value), Lower(search))) || Contains(Lower(u.email), Lower(search))
  }

  /** The `where` clause: the role when one is given, and the search when one is given. */
  predicate Matches(role: Option<string>, search: Option<string>, u: UserRow)
  {
    (role.None? || u.role == role.value) && (search.None? || SearchMatches(search.value, u))
  }

  /** The users the `where` clause selects, in the table's order (newest first). */
  function Selection(q: Query, users: seq<UserRow>): (s: seq<UserRow>)
    ensures forall u :: u in s <==> u in users && Matches(q.role, q.search, u)
  {
    Filter(users, (u: UserRow) => Matches(q.role, q.search, u))
  }

  /** GET: the window `skip`/`take` of the selection of `users` (all users, newest first), its size
      as the total, and `pages = Math.ceil(total / limit)`. */
  function UsersGet(pageParam: Option<int>, limitParam: Option<int>, role: Option<string>,
                    search: Option<string>, users: seq<UserRow>): (r: UsersPage)
    ensures var q := UsersQuery(pageParam, limitParam, role, search);
            r.users == Window(Selection(q, users), q.skip, q.take)
            && r.total == |Selection(q, users)|
    ensures r.page == IntParam(pageParam, 1)
    ensures r.limit == IntParam(limitParam, 10)
    ensures r.pages == Pages(r.total, r.limit)
  {
    var q := UsersQuery(pageParam, limitParam, role, search);
    var selected := Selection(q, users);
    UsersPage(Window(selected, q.skip, q.take), IntParam(pageParam, 1),
              q.take, |selected|, Pages(|selected|, q.take))
  }

  /** Every listed user has the requested role and contains the search text; with a positive limit,
      at most limit users are listed, the i-th selected user is listed at position i % limit of page
      i / limit + 1, and pages past the last are empty. */
  lemma UsersGetListsSelection(page: int, limit: int, role: Option<string>, search: Option<string>,
                               users: seq<UserRow>, i: nat)
    requires limit > 0
    ensures var r := UsersGet(Some(page), Some(limit), role, search, users);
            |r.users| <= limit
            && forall u :: u in r.users ==> u in users && (Given(role) ==> u.role == role.value)
                                             && (Given(search) ==> SearchMatches(search.value, u))
    ensures var s := Selection(UsersQuery(Some(page), Some(limit), role, search), users);
            i < |s| ==>
              var r := UsersGet(Some(i / limit + 1), Some(limit), role, search, users);
              i % limit < |r.users| && r.users[i % limit] == s[i]
    ensures page > UsersGet(Some(page), Some(limit), role, search, users).pages.value ==>
              UsersGet(Some(page), Some(limit), role, search, users).users == []
  {
    var q := UsersQuery(Some(page), Some(limit), role, search);
    var s := Selection(q, users);
    if i < |s| {
      var q' := UsersQuery(Some(i / limit + 1), Some(limit), role, search);
      assert q'.role == q.role && q'.search == q.search;
      RowOnItsPage(s, i, limit);
    }
    if page > Pages(|s|, limit).value {
      PageBeyondLast(s, page, limit);
    }
  }

  /** The role PATCH writes: READER for the "ban" action, whatever role is given, else the given
      role when there is one; None when it writes nothing. */
  function RoleWritten(role: Option<string>, action: Option<string>): (w: Option<string>)
    ensures action == Some("ban") ==> w == Some("READER")
    ensures action != Some("ban") && Given(role) ==> w == role
    ensures w.None? <==> action != Some("ban") && !Given(role)
  {
    if action == Some("ban") then Some("READER") else if Given(role) then role else None
  }

  class UserStore {
    var roles: map<string, string>

    constructor (roles: map<string, string>)
      ensures this.roles == roles
    {
      this.roles := roles;
    }
  }

  /** PATCH: 400 without a user id; a ban or a role change of an unknown user makes the update
      throw: 500, nothing changes; a ban writes READER ("User banned successfully"), otherwise a
      given role is written as it is ("User role updated successfully"); with neither, 400 and
      nothing changes. Only the one user's role changes. The request is not authenticated. */
  method UsersPatch(store: UserStore, userId: Option<string>, role: Option<string>, action: Option<string>)
    returns (reply: Reply<string>)
    modifies store
    ensures reply.Fail? ==> store.roles == old(store.roles)
    ensures !Given(userId) ==> reply == Fail(400, "User ID is required")
    ensures Given(userId) ==>
              var id, w := userId.value, RoleWritten(role, action);
              if w.None? then reply == Fail(400, "Invalid action or role")
              else if id !in old(store.roles) then reply == Fail(500, "Failed to update user")
              else store.roles == old(store.roles)[id := w.value]
                   && reply == Ok(if action == Some("ban") then "User banned successfully"
                                  else "User role updated successfully")
  {
    if !Given(userId) {
      return Fail(400, "User ID is required");
    }
    var id := userId.value;
    if action == Some("ban") {
      if id !in store.roles {
        return Fail(500, "Failed to update user");
      }
      store.roles := store.roles[id := "READER"];
      return Ok("User banned successfully");
    }
    if Given(role) {
      if id !in store.roles {
        return Fail(500, "Failed to update user");
      }
      store.roles := store.roles[id := role.value];
      return Ok("User role updated successfully");
    }
    reply := Fail(400, "Invalid action or role");
  }
}
