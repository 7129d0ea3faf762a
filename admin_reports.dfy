/** The admin report routes (src/app/api/admin/reports/route.ts). There is no report table: GET
    pages through two fixed reports, building status and type filters that it never applies, and
    PATCH only answers according to the action, changing nothing. Report times are milliseconds
    on the request's clock `now`. */
module AdminReports {
  import opened Common
  import opened Paging

  /** A report about a post or a comment; `target` is its `postId` or its `commentId`. */
  datatype Report = Report(id: string, kind: string, content: string, reportedBy: string, reportedAt: int,
                           status: string, target: string, reason: string)

  const REPORT_1_CONTENT := "Inappropriate content in post about..."
  const REPORT_2_CONTENT := "Spam comment on React tutorial"

  /** The two mock reports, one and two hours old. */
  function MockReports(now: int): (reports: seq<Report>)
    ensures |reports| == 2
    ensures reports[0].id == "1" && reports[1].id == "2"
    ensures reports[0].reportedAt == now - 3600000 && reports[1].reportedAt == now - 7200000
  {
    [Report("1", "post", REPORT_1_CONTENT, "user123", now - 3600000, "pending", "post123", "Spam content"),
     Report("2", "comment", REPORT_2_CONTENT, "moderator456", now - 7200000, "reviewed", "comment456", "Harassment")]
  }

  /** The filter GET builds: a key for each of `status` and `type` that is given. */
  datatype Where = Where(status: Option<string>, kind: Option<string>)

  function WhereOf(status: Option<string>, kind: Option<string>): (w: Where)
    ensures w.status.Some? <==> Given(status)
    ensures w.kind.Some? <==> Given(kind)
  {
    Where(if Given(status) then status else None, if Given(kind) then kind else None)
  }

  datatype ReportsPage = ReportsPage(reports: seq<Report>, page: int, limit: int, total: nat, pages: Option<int>)

  /** GET: page defaults to 1 and limit to 10; the reports are `slice(skip, skip + limit)` of the
      mock list, at most `limit` of them; the total is the length of the whole list. The filter is
      built (`WhereOf`) but plays no part in the reply. */
  function ReportsGet(pageParam: Option<int>, limitParam: Option<int>, status: Option<string>,
                      kind: Option<string>, now: int): (r: ReportsPage)
    ensures var page, limit := IntParam(pageParam, 1), IntParam(limitParam, 10);
            r.page == page && r.limit == limit
            && r.reports == PageOf(MockReports(now), page, limit)
            && (limit >= 0 ==> |r.reports| <= limit)
            && r.total == 2 && r.pages == Pages(2, limit)
  {
    var page := IntParam(pageParam, 1);
    var limit := IntParam(limitParam, 10);
    var _ := WhereOf(status, kind);
    var mocks := MockReports(now);
    ReportsPage(PageOf(mocks, page, limit), page, limit, |mocks|, Pages(|mocks|, limit))
  }

  /** The status and type filters change nothing in the reply. */
  lemma FiltersIgnored(pageParam: Option<int>, limitParam: Option<int>, s1: Option<string>, k1: Option<string>,
                       s2: Option<string>, k2: Option<string>, now: int)
    ensures ReportsGet(pageParam, limitParam, s1, k1, now) == ReportsGet(pageParam, limitParam, s2, k2, now)
  {
  }

  /** With the default limit both reports are on the first page, and the one page there is. */
  lemma DefaultPageHoldsBoth(now: int)
    ensures ReportsGet(None, None, None, None, now).reports == MockReports(now)
    ensures ReportsGet(None, None, None, None, now).pages == Some(1)
    ensures ReportsGet(Some(2), None, None, None, now).reports == []
  {
    assert CeilDiv(2, 10) == 1;
  }

  /** With a positive limit, report i is on page i / limit + 1 at position i % limit, and a page
      past the last one is empty. */
  lemma {:induction false} EveryReportOnItsPage(limit: int, i: nat, page: int, now: int)
    requires limit > 0 && i < 2
    ensures var rows := MockReports(now);
            var p := PageOf(rows, i / limit + 1, limit);
            i % limit < |p| && p[i % limit] == rows[i]
    ensures page > Pages(2, limit).value ==> PageOf(MockReports(now), page, limit) == []
  {
    RowOnItsPage(MockReports(now), i, limit);
    if page > Pages(2, limit).value {
      PageBeyondLast(MockReports(now), page, limit);
    }
  }

  datatype ReportUpdate = ReportUpdate(message: string, reportId: string, action: string, reason: Option<string>)

  /** PATCH: 400 without a report id or an action; "approve", "reject" and "ban_user" answer
      "approved", "rejected" (echoing the reason) and "user_banned", each with its own success
      message; any other action is 400. */
  function ReportsPatch(reportId: Option<string>, action: Option<string>, reason: Option<string>): (r: Reply<ReportUpdate>)
    ensures !(Given(reportId) && Given(action)) ==> r == Fail(400, "Report ID and action are required")
    ensures r.Ok? ==> Given(reportId) && r.body.reportId == reportId.value
    ensures r.Ok? <==> Given(reportId) && action in {Some("approve"), Some("reject"), Some("ban_user")}
    ensures r.Ok? ==> (r.body.action == "approved" <==> action == Some("approve"))
                      && (r.body.action == "rejected" <==> action == Some("reject"))
                      && (r.body.action == "user_banned" <==> action == Some("ban_user"))
                      && r.body.reason == (if action == Some("reject") then reason else None)
    ensures r.Ok? ==> (r.body.action == "approved" ==> r.body.message == "Report approved successfully")
                      && (r.body.action == "rejected" ==> r.body.message == "Report rejected successfully")
                      && (r.body.action == "user_banned" ==> r.body.message == "User banned successfully")
    ensures Given(reportId) && Given(action) && !r.Ok? ==> r == Fail(400, "Invalid action")
  {
    if !(Given(reportId) && Given(action)) then Fail(400, "Report ID and action are required")
    else if action == Some("approve") then Ok(ReportUpdate("Report approved successfully", reportId.value, "approved", None))
    else if action == Some("reject") then Ok(ReportUpdate("Report rejected successfully", reportId.value, "rejected", reason))
    else if action == Some("ban_user") then Ok(ReportUpdate("User banned successfully", reportId.value, "user_banned", None))
    else Fail(400, "Invalid action")
  }
}
