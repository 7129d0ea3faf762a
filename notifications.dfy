/** The notification route (src/app/api/notifications/route.ts): GET lists a signed-in user's
    notifications, optionally only the unread ones, with the total and unread counts; POST marks
    one notification or all of the user's unread ones as read. Notifications are stored by id. */
module Notifications {
  import opened Common
  import opened Paging

  datatype Note = Note(userId: string, kind: string, title: string, message: string, read: bool, createdAt: int)

  /** The ids of the user's notifications the query selects: all of them, or the unread ones. */
  function Selected(notes: map<string, Note>, userId: string, unreadOnly: bool): set<string>
  {
    set id | id in notes && notes[id].userId == userId && (!unreadOnly || !notes[id].read)
  }

  /** The user's unread notifications. */
  function Unread(notes: map<string, Note>, userId: string): set<string>
  {
    Selected(notes, userId, true)
  }

  class NotificationStore {
    var notes: map<string, Note>

    constructor (notes: map<string, Note>)
      ensures this.notes == notes
    {
      this.notes := notes;
    }
  }

  datatype Listing = Listing(rows: seq<string>, total: nat, unread: nat, limit: int, offset: int, hasMore: bool)

  /** `searchParams.get("unreadOnly") === "true"`. */
  function UnreadOnly(param: Option<string>): bool
  {
    param == Some("true")
  }

  /** `ordered` lists the selected notifications once each, newest first: the order the query's
      `orderBy: { createdAt: "desc" }` returns them in. */
  ghost predicate ListsSelection(notes: map<string, Note>, ordered: seq<string>, selected: set<string>)
  {
    NoDuplicates(ordered)
    && (forall id :: id in ordered <==> id in selected)
    && (forall i, j :: 0 <= i < j < |ordered| && ordered[i] in notes && ordered[j] in notes ==>
          notes[ordered[i]].createdAt >= notes[ordered[j]].createdAt)
  }

  /** GET: 401 without a session. Otherwise the rows are the window `take: limit, skip: offset` of
      the selection (the user's notifications, or only the unread ones), newest first; the total is
      the size of the selection, the unread count that of the user's unread notifications, limit and
      offset default to 20 and 0, and `hasMore` holds exactly when selected rows remain past the
      window. With `unreadOnly` every row is an unread notification of the user. */
  method ListNotifications(store: NotificationStore, session: Option<Session>, limitParam: Option<int>,
                           offsetParam: Option<int>, unreadParam: Option<string>, ordered: seq<string>)
    returns (reply: Reply<Listing>)
    requires SessionUser(session).Some? ==>
               ListsSelection(store.notes, ordered, Selected(store.notes, SessionUser(session).value, UnreadOnly(unreadParam)))
    ensures SessionUser(session).None? ==> reply == Fail(401, "Unauthorized")
    ensures SessionUser(session).Some? ==>
              var me, unreadOnly := SessionUser(session).value, UnreadOnly(unreadParam);
              reply.Ok?
              && reply.body.limit == (if limitParam.Some? then limitParam.value else 20)
              && reply.body.offset == (if offsetParam.Some? then offsetParam.value else 0)
              && reply.body.rows == Window(ordered, reply.body.offset, reply.body.limit)
              && reply.body.total == |Selected(store.notes, me, unreadOnly)| == |ordered|
              && reply.body.unread == |Unread(store.notes, me)|
              && (0 <= reply.body.offset && 0 <= reply.body.limit ==>
                    (reply.body.hasMore <==>
                       |Window(ordered, 0, reply.body.offset)| + |reply.body.rows| < reply.body.total))
              && (forall i :: 0 <= i < |reply.body.rows| ==>
                    reply.body.rows[i] in store.notes && store.notes[reply.body.rows[i]].userId == me
                    && (unreadOnly ==> !store.notes[reply.body.rows[i]].read))
  {
    var me := SessionUser(session);
    if me.None? {
      return Fail(401, "Unauthorized");
    }
    var limit := if limitParam.Some? then limitParam.value else 20;
    var offset := if offsetParam.Some? then offsetParam.value else 0;
    var unreadOnly := UnreadOnly(unreadParam);
    var rows := Window(ordered, offset, limit);
    var total := |Selected(store.notes, me.value, unreadOnly)|;
    var unread := |Unread(store.notes, me.value)|;
    EnumerationSize(ordered, Selected(store.notes, me.value, unreadOnly));
    if 0 <= offset && 0 <= limit {
      HasMoreIffRowsRemain(ordered, offset, limit, 1);
    }
    forall i | 0 <= i < |rows|
      ensures rows[i] in Selected(store.notes, me.value, unreadOnly)
    {
      assert rows[i] in rows;
    }
    reply := Ok(Listing(rows, total, unread, limit, offset, HasMore(offset, limit, total)));
  }

  /** Only unread notifications of the user are selected with `unreadOnly`, so the total never
      exceeds the unread count then, nor the count of all the user's notifications. */
  lemma UnreadOnlyCounts(notes: map<string, Note>, userId: string)
    ensures Selected(notes, userId, true) <= Selected(notes, userId, false)
    ensures |Selected(notes, userId, true)| <= |Selected(notes, userId, false)|
  {
    var a, b := Selected(notes, userId, true), Selected(notes, userId, false);
    assert a <= b;
    assert b == a + (b - a);
  }

  /** The store after `markAllAsRead` for a user: each of the user's notifications is read, all
      others are untouched. */
  function AllRead(notes: map<string, Note>, userId: string): (r: map<string, Note>)
    ensures r.Keys == notes.Keys
    ensures forall id :: id in notes && notes[id].userId == userId ==> r[id] == notes[id].(read := true)
    ensures forall id :: id in notes && notes[id].userId != userId ==> r[id] == notes[id]
  {
    map id | id in notes :: if notes[id].userId == userId then notes[id].(read := true) else notes[id]
  }

  /** After marking all as read, the user has no unread notification and nobody else's count changed. */
  lemma AllReadLeavesNoneUnread(notes: map<string, Note>, userId: string, other: string)
    ensures Unread(AllRead(notes, userId), userId) == {}
    ensures other != userId ==> Unread(AllRead(notes, userId), other) == Unread(notes, other)
    ensures Selected(AllRead(notes, userId), userId, false) == Selected(notes, userId, false)
  {
    var r := AllRead(notes, userId);
    assert forall id :: id in Unread(r, userId) ==> false;
  }

  /** POST: 401 without a session. "markAsRead" with an id sets exactly that notification to read
      (an unknown id makes the update throw: 500, nothing changes; the owner is not checked);
      "markAllAsRead" sets every unread notification of the user to read; anything else, including
      "markAsRead" without an id, gives 400 and changes nothing. */
  method MarkNotifications(store: NotificationStore, session: Option<Session>, action: Option<string>,
                           notificationId: Option<string>)
    returns (reply: Reply<string>)
    modifies store
    ensures reply.Fail? ==> store.notes == old(store.notes)
    ensures SessionUser(session).None? ==> reply == Fail(401, "Unauthorized")
    ensures SessionUser(session).Some? ==>
              if action == Some("markAsRead") && Given(notificationId) then
                var id := notificationId.value;
                if id in old(store.notes) then
                  reply == Ok("Notification marked as read")
                  && store.notes == old(store.notes)[id := old(store.notes)[id].(read := true)]
                else reply == Fail(500, "Internal server error")
              else if action == Some("markAllAsRead") then
                reply == Ok("All notifications marked as read")
                && store.notes == AllRead(old(store.notes), SessionUser(session).value)
              else reply == Fail(400, "Invalid action or missing notificationId")
  {
    var me := SessionUser(session);
    if me.None? {
      return Fail(401, "Unauthorized");
    }
    if action == Some("markAsRead") && Given(notificationId) {
      var id := notificationId.value;
      if id !in store.notes {
        return Fail(500, "Internal server error");
      }
      store.notes := store.notes[id := store.notes[id].(read := true)];
      reply := Ok("Notification marked as read");
    } else if action == Some("markAllAsRead") {
      store.notes := AllRead(store.notes, me.value);
      reply := Ok("All notifications marked as read");
    } else {
      reply := Fail(400, "Invalid action or missing notificationId");
    }
  }

  /** Marking one notification read changes only its read flag, and only it can leave the owner's
      unread set. */
  lemma MarkOneRead(notes: map<string, Note>, id: string, userId: string)
    requires id in notes
    ensures Unread(notes[id := notes[id].(read := true)], userId) == Unread(notes, userId) - {id}
  {
  }
}
