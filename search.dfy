/**
 * The paging loop of `JiraClient.get_issues`: one search request per page,
 * issues built and handed out in order until `max_results` is reached, the
 * remote returns an empty page, or the offset reaches the reported total.
 * `SearchFrom` specifies the loop from any point of its progress; the
 * client's method is proved against it.
 */
module Search {
  import opened Wrappers
  import opened Json
  import opened Errors
  import opened Http
  import opened JiraIssue

  const SearchPath := "/search/jql"

  /** `min(max_results, 100)`: the remote serves at most 100 issues a page. */
  function PageSize(maxResults: int): (n: int)
    ensures n <= 100 && n <= maxResults
    ensures n == 100 || n == maxResults
  {
    if maxResults < 100 then maxResults else 100
  }

  /** The search request for the page starting at `startAt`. */
  function SearchRequest(jql: string, startAt: int, pageSize: int): Request {
    Get(SearchPath, map[
      "jql" := JStr(jql),
      "startAt" := JNum(startAt),
      "maxResults" := JNum(pageSize),
      "fields" := JStr("*all")])
  }

  /**
   * `data.get("issues", [])` as the loop uses it: a falsy value is an empty
   * page, a list gives its items, and anything else fails (it is either not
   * iterable or yields values `_build_issue` cannot index). A page that is
   * not an object has no `get`.
   */
  function PageItems(data: Json): (r: Result<seq<Json>, Error>)
    ensures r.Ok? ==> data.JObj?
    ensures r.Ok? && r.value != [] ==> "issues" in data.fields && data.fields["issues"] == JArr(r.value)
    ensures data.JObj? && ("issues" !in data.fields || !Truthy(data.fields["issues"])) ==> r == Ok([])
  {
    match data
    case JObj(m) =>
      var issues := GetOr(m, "issues", JArr([]));
      if !Truthy(issues) then Ok([])
      else if issues.JArr? then Ok(issues.items)
      else Err(TypeMismatch)
    case _ => Err(TypeMismatch)
  }

  /**
   * `data.get("total", 0)` as the `>=` comparison with an `int` uses it: a
   * missing total is 0, a boolean compares as 0 or 1, anything else fails.
   */
  function PageTotal(data: map<string, Json>): (r: Result<int, Error>)
    ensures "total" !in data ==> r == Ok(0)
    ensures "total" in data && data["total"].JNum? ==> r == Ok(data["total"].n)
  {
    match GetOr(data, "total", JNum(0))
    case JNum(n) => Ok(n)
    case JBool(b) => Ok(if b then 1 else 0)
    case _ => Err(TypeMismatch)
  }

  /** How the inner loop over one page ends: page used up, quota reached, or a build failure. */
  datatype PageEnd =
    | Finished(acc: seq<Issue>)
    | Quota(acc: seq<Issue>)
    | Failed(acc: seq<Issue>, error: Error)

  /**
   * The inner `for issue in issues` loop: stop once `max` issues are out,
   * otherwise build the next record and append it.
   */
  function BuildPage(items: seq<Json>, acc: seq<Issue>, max: int): (r: PageEnd)
    ensures |acc| <= |r.acc| <= |acc| + |items|
    ensures r.acc[..|acc|] == acc
    ensures BuiltFrom(r.acc[|acc|..], items[..|r.acc| - |acc|])
    ensures |acc| <= max ==> |r.acc| <= max
    ensures r.Finished? <==> |r.acc| == |acc| + |items| && (|acc| + |items| <= max || items == [])
    ensures r.Quota? ==> |r.acc| >= max && |r.acc| < |acc| + |items|
    ensures r.Failed? ==> |r.acc| < |acc| + |items| && BuildIssue(items[|r.acc| - |acc|]) == Err(r.error)
    decreases |items|
  {
    if items == [] then Finished(acc)
    else if |acc| >= max then Quota(acc)
    else
      match BuildIssue(items[0])
      case Err(e) => Failed(acc, e)
      case Ok(issue) =>
        var r := BuildPage(items[1..], acc + [issue], max);
        PageExtends(items, acc, issue, r.acc);
        r
  }

  /** What the rest of a page built after `issue` tells about the whole page. */
  lemma PageExtends(items: seq<Json>, acc: seq<Issue>, issue: Issue, got: seq<Issue>)
    requires items != [] && BuildIssue(items[0]) == Ok(issue)
    requires |acc| + 1 <= |got| <= |acc| + |items|
    requires got[..|acc| + 1] == acc + [issue]
    requires BuiltFrom(got[|acc| + 1..], items[1..][..|got| - |acc| - 1])
    ensures got[..|acc|] == acc
    ensures BuiltFrom(got[|acc|..], items[..|got| - |acc|])
    ensures forall k :: 0 <= k < |items| - 1 ==> items[1..][k] == items[k + 1]
  {
    assert got[..|acc| + 1][..|acc|] == (acc + [issue])[..|acc|];
    assert got[|acc|..] == [issue] + got[|acc| + 1..];
    assert items[..|got| - |acc|] == [items[0]] + items[1..][..|got| - |acc| - 1];
  }

  /** The outcome of a search: the issues handed out, the error that ended it if any, and the requests sent. */
  datatype SearchRun = SearchRun(issues: seq<Issue>, failure: Option<Error>, requests: seq<Request>)

  /** A run with `sent` sent ahead of its own requests. */
  function After(sent: seq<Request>, run: SearchRun): SearchRun {
    SearchRun(run.issues, run.failure, sent + run.requests)
  }

  lemma AfterAfter(a: seq<Request>, b: seq<Request>, run: SearchRun)
    ensures After(a, After(b, run)) == After(a + b, run)
  {
    assert a + (b + run.requests) == (a + b) + run.requests;
  }

  /** The items of a search response; a failed response counts as an empty page. */
  function PageOf(resp: Response): seq<Json> {
    match JsonResult(SearchPath, resp)
    case Err(_) => []
    case Ok(data) =>
      match PageItems(data)
      case Err(_) => []
      case Ok(items) => items
  }

  function Min(a: int, b: int): int {
    if a <= b then a else b
  }

  /** How one pass of the outer loop ends: the search stops, or goes on at offset `next`. */
  datatype StepEnd =
    | Stop(got: seq<Issue>, failure: Option<Error>)
    | Continue(got: seq<Issue>, next: int)

  /**
   * One pass of the outer loop on the response to its request: an empty page
   * or the quota stops the search; a page used up in full goes on unless the
   * new offset reaches the reported total.
   */
  function PageStep(resp: Response, startAt: int, acc: seq<Issue>, max: int): (s: StepEnd)
    requires |acc| < max
    ensures |acc| <= |s.got| <= max
    ensures s.got[..|acc|] == acc
    ensures |s.got| - |acc| <= |PageOf(resp)|
    ensures BuiltFrom(s.got[|acc|..], PageOf(resp)[..|s.got| - |acc|])
    ensures s.Stop? && s.failure.None? ==> |s.got| - |acc| == Min(|PageOf(resp)|, max - |acc|)
    ensures s.Continue? ==>
      |s.got| == |acc| + |PageOf(resp)| && PageOf(resp) != [] && s.next == startAt + |PageOf(resp)|
  {
    match JsonResult(SearchPath, resp)
    case Err(e) => Stop(acc, Some(e))
    case Ok(data) =>
      match PageItems(data)
      case Err(e) => Stop(acc, Some(e))
      case Ok(items) =>
        if items == [] then Stop(acc, None)
        else ItemsStep(data.fields, items, startAt, acc, max)
  }

  /** A pass of the outer loop over the non-empty `items` of the page `data`. */
  function ItemsStep(data: map<string, Json>, items: seq<Json>, startAt: int, acc: seq<Issue>, max: int): (s: StepEnd)
    requires |acc| < max && items != []
    ensures |acc| <= |s.got| <= max
    ensures s.got[..|acc|] == acc
    ensures |s.got| - |acc| <= |items|
    ensures BuiltFrom(s.got[|acc|..], items[..|s.got| - |acc|])
    ensures s.Stop? && s.failure.None? ==> |s.got| - |acc| == Min(|items|, max - |acc|)
    ensures s.Continue? ==> |s.got| == |acc| + |items| && s.next == startAt + |items|
  {
    match BuildPage(items, acc, max)
    case Failed(got, e) => Stop(got, Some(e))
    case Quota(got) => Stop(got, None)
    case Finished(got) =>
      match PageTotal(data)
      case Err(e) => Stop(got, Some(e))
      case Ok(total) =>
        if startAt + |items| >= total then Stop(got, None)
        else Continue(got, startAt + |items|)
  }

  /**
   * The paging loop from the page at `startAt` on, with `acc` already handed
   * out and `history` already sent.
   */
  function SearchFrom(remote: Remote, history: seq<Request>, jql: string, startAt: int,
                      pageSize: int, max: int, acc: seq<Issue>): SearchRun
    decreases max - |acc|
  {
    if |acc| >= max then SearchRun(acc, None, [])
    else
      var req := SearchRequest(jql, startAt, pageSize);
      match PageStep(remote(history, req), startAt, acc, max)
      case Stop(got, failure) => SearchRun(got, failure, [req])
      case Continue(got, next) =>
        After([req], SearchFrom(remote, history + [req], jql, next, pageSize, max, got))
  }

  /** One unfolding of the paging loop below its quota. */
  lemma SearchFromStep(remote: Remote, history: seq<Request>, jql: string, startAt: int,
                       pageSize: int, max: int, acc: seq<Issue>)
    requires |acc| < max
    ensures var req := SearchRequest(jql, startAt, pageSize);
      var s := PageStep(remote(history, req), startAt, acc, max);
      var run := SearchFrom(remote, history, jql, startAt, pageSize, max, acc);
      (s.Stop? ==> run == SearchRun(s.got, s.failure, [req]))
      && (s.Continue? ==> run == After([req], SearchFrom(remote, history + [req], jql, s.next, pageSize, max, s.got)))
  {
  }

  /**
   * The stop rule of one pass: the search goes on exactly when the page is a
   * readable non-empty list, every issue on it is handed out, and the new
   * offset is still below the reported total.
   */
  lemma PageStepContinues(resp: Response, startAt: int, acc: seq<Issue>, max: int)
    requires |acc| < max
    ensures var data := JsonResult(SearchPath, resp);
      PageStep(resp, startAt, acc, max).Continue? <==>
        && data.Ok? && PageItems(data.value).Ok? && PageItems(data.value).value != []
        && BuildPage(PageItems(data.value).value, acc, max).Finished?
        && PageTotal(data.value.fields).Ok?
        && startAt + |PageItems(data.value).value| < PageTotal(data.value.fields).value
  {
  }

  /** `get_issues` on a query, from the first page. */
  function SearchIssues(remote: Remote, history: seq<Request>, jql: string, maxResults: int): SearchRun {
    SearchFrom(remote, history, jql, 0, PageSize(maxResults), maxResults, [])
  }

  // ---------------------------------------------------------------------
  // The pages a search saw, reconstructed from its requests
  // ---------------------------------------------------------------------

  /** The pages the remote served to `requests`, sent one after another after `history`. */
  function Pages(remote: Remote, history: seq<Request>, requests: seq<Request>): (pages: seq<seq<Json>>)
    ensures |pages| == |requests|
    decreases |requests|
  {
    if requests == [] then []
    else [PageOf(remote(history, requests[0]))] + Pages(remote, history + [requests[0]], requests[1..])
  }

  function Flatten(pages: seq<seq<Json>>): seq<Json> {
    if pages == [] then [] else pages[0] + Flatten(pages[1..])
  }

  lemma PagesCons(remote: Remote, history: seq<Request>, req: Request, rest: seq<Request>)
    ensures Pages(remote, history, [req] + rest)
      == [PageOf(remote(history, req))] + Pages(remote, history + [req], rest)
    ensures Flatten(Pages(remote, history, [req] + rest))
      == PageOf(remote(history, req)) + Flatten(Pages(remote, history + [req], rest))
  {
    assert ([req] + rest)[1..] == rest;
    var pages := Pages(remote, history, [req] + rest);
    assert pages[1..] == Pages(remote, history + [req], rest);
  }

  // ---------------------------------------------------------------------
  // Properties
  // ---------------------------------------------------------------------

  /**
   * The issues handed out are built, in order, from the concatenated page
   * items; without a failure they are exactly the first `max` of them (all
   * of them when there are fewer).
   */
  lemma {:induction false} SearchConcatenatesPages(remote: Remote, history: seq<Request>, jql: string,
                                                   startAt: int, pageSize: int, max: int, acc: seq<Issue>)
    requires |acc| <= max
    ensures var r := SearchFrom(remote, history, jql, startAt, pageSize, max, acc);
      var items := Flatten(Pages(remote, history, r.requests));
      && |acc| <= |r.issues| <= max
      && r.issues[..|acc|] == acc
      && |r.issues| - |acc| <= |items|
      && BuiltFrom(r.issues[|acc|..], items[..|r.issues| - |acc|])
      && (r.failure.None? ==> |r.issues| - |acc| == Min(|items|, max - |acc|))
    decreases max - |acc|
  {
    if |acc| < max {
      var r := SearchFrom(remote, history, jql, startAt, pageSize, max, acc);
      var req := SearchRequest(jql, startAt, pageSize);
      var page := PageOf(remote(history, req));
      var s := PageStep(remote(history, req), startAt, acc, max);
      PagesCons(remote, history, req, []);
      if s.Continue? {
        var got := s.got;
        var rest := SearchFrom(remote, history + [req], jql, s.next, pageSize, max, got);
        SearchConcatenatesPages(remote, history + [req], jql, s.next, pageSize, max, got);
        PagesCons(remote, history, req, rest.requests);
        var restItems := Flatten(Pages(remote, history + [req], rest.requests));
        assert r.issues == rest.issues && r.failure == rest.failure && r.requests == [req] + rest.requests;
        ConcatBuilt(acc, got, rest.issues, page, restItems, max, rest.failure.None?);
      }
    }
  }

  /** Stitching the issues of one page to those of the pages after it. */
  lemma ConcatBuilt(acc: seq<Issue>, got: seq<Issue>, all: seq<Issue>, page: seq<Json>, restItems: seq<Json>,
                    max: int, counted: bool)
    requires |got| == |acc| + |page| && got[..|acc|] == acc && BuiltFrom(got[|acc|..], page[..|got| - |acc|])
    requires |got| <= |all| <= max && all[..|got|] == got
    requires |all| - |got| <= |restItems| && BuiltFrom(all[|got|..], restItems[..|all| - |got|])
    requires counted ==> |all| - |got| == Min(|restItems|, max - |got|)
    ensures all[..|acc|] == acc
    ensures |all| - |acc| <= |page + restItems|
    ensures BuiltFrom(all[|acc|..], (page + restItems)[..|all| - |acc|])
    ensures counted ==> |all| - |acc| == Min(|page + restItems|, max - |acc|)
  {
    assert page[..|got| - |acc|] == page;
    assert all[..|acc|] == got[..|acc|];
    var n := |all| - |acc|;
    assert (page + restItems)[..n] == page + restItems[..n - |page|];
    assert all[|acc|..] == got[|acc|..] + all[|got|..];
  }

  /** At most `max_results` issues come out, and none at all when it is not positive. */
  lemma SearchBound(remote: Remote, history: seq<Request>, jql: string, maxResults: int)
    ensures |SearchIssues(remote, history, jql, maxResults).issues| <= if maxResults < 0 then 0 else maxResults
  {
    if maxResults >= 0 {
      SearchConcatenatesPages(remote, history, jql, 0, PageSize(maxResults), maxResults, []);
    }
  }

  /** A non-positive `max_results` sends no request. */
  lemma NoQuotaNoRequest(remote: Remote, history: seq<Request>, jql: string, maxResults: int)
    requires maxResults <= 0
    ensures SearchIssues(remote, history, jql, maxResults) == SearchRun([], None, [])
  {
  }

  /** The `startAt` parameter of a request, or -1 when it is not a search request. */
  function Offset(req: Request): int {
    if req.Get? && "startAt" in req.params && req.params["startAt"].JNum? then req.params["startAt"].n else -1
  }

  /**
   * Every request asks for the same query and page size; the first starts at
   * `startAt`, and each one starts where the previous page ended, so the
   * offsets strictly increase. Every request but the last handed out a whole
   * non-empty page, so there are at most `max - |acc|` of them.
   */
  lemma {:induction false} SearchRequestsAdvance(remote: Remote, history: seq<Request>, jql: string,
                                                 startAt: int, pageSize: int, max: int, acc: seq<Issue>)
    requires |acc| <= max
    ensures var r := SearchFrom(remote, history, jql, startAt, pageSize, max, acc);
      var reqs := r.requests;
      var pages := Pages(remote, history, reqs);
      && (forall i :: 0 <= i < |reqs| ==> reqs[i] == SearchRequest(jql, Offset(reqs[i]), pageSize))
      && (|reqs| > 0 ==> Offset(reqs[0]) == startAt)
      && (forall i :: 0 <= i < |reqs| - 1 ==> pages[i] != [] && Offset(reqs[i + 1]) == Offset(reqs[i]) + |pages[i]|)
      && |reqs| <= max - |acc|
      && |reqs| <= |r.issues| - |acc| + 1
    decreases max - |acc|
  {
    if |acc| < max {
      var r := SearchFrom(remote, history, jql, startAt, pageSize, max, acc);
      var req := SearchRequest(jql, startAt, pageSize);
      assert Offset(req) == startAt;
      var s := PageStep(remote(history, req), startAt, acc, max);
      if s.Continue? {
        var rest := SearchFrom(remote, history + [req], jql, s.next, pageSize, max, s.got);
        SearchRequestsAdvance(remote, history + [req], jql, s.next, pageSize, max, s.got);
        assert r.requests == [req] + rest.requests && r.issues == rest.issues;
        AdvanceCons(remote, history, jql, pageSize, startAt, req, rest.requests);
      }
    }
  }

  /** A request followed by requests that advance from where its page ends advances from its own offset. */
  lemma AdvanceCons(remote: Remote, history: seq<Request>, jql: string, pageSize: int, startAt: int,
                    req: Request, rest: seq<Request>)
    requires req == SearchRequest(jql, startAt, pageSize)
    requires PageOf(remote(history, req)) != []
    requires forall i :: 0 <= i < |rest| ==> rest[i] == SearchRequest(jql, Offset(rest[i]), pageSize)
    requires |rest| > 0 ==> Offset(rest[0]) == startAt + |PageOf(remote(history, req))|
    requires var pages := Pages(remote, history + [req], rest);
      forall i :: 0 <= i < |rest| - 1 ==> pages[i] != [] && Offset(rest[i + 1]) == Offset(rest[i]) + |pages[i]|
    ensures var reqs := [req] + rest;
      var pages := Pages(remote, history, reqs);
      && (forall i :: 0 <= i < |reqs| ==> reqs[i] == SearchRequest(jql, Offset(reqs[i]), pageSize))
      && Offset(reqs[0]) == startAt
      && (forall i :: 0 <= i < |reqs| - 1 ==> pages[i] != [] && Offset(reqs[i + 1]) == Offset(reqs[i]) + |pages[i]|)
  {
    var reqs := [req] + rest;
    assert Offset(req) == startAt;
    PagesCons(remote, history, req, rest);
    var pages := Pages(remote, history, reqs);
    var restPages := Pages(remote, history + [req], rest);
    forall i | 0 <= i < |reqs| - 1
      ensures pages[i] != [] && Offset(reqs[i + 1]) == Offset(reqs[i]) + |pages[i]|
    {
      if i > 0 {
        assert reqs[i] == rest[i - 1] && reqs[i + 1] == rest[i];
        assert pages[i] == restPages[i - 1];
      }
    }
  }

  /** A page without `total` ends the search: at most one request is sent. */
  lemma MissingTotalStops(remote: Remote, history: seq<Request>, jql: string, maxResults: int)
    requires var data := JsonResult(SearchPath, remote(history, SearchRequest(jql, 0, PageSize(maxResults))));
      data.Ok? && data.value.JObj? && "total" !in data.value.fields
    ensures |SearchIssues(remote, history, jql, maxResults).requests| <= 1
  {
  }

  /** A single-issue page holding only a key. */
  function KeyOnly(key: string): Json {
    JObj(map["key" := JStr(key)])
  }

  /** The remote of the paging unit test: two issues of three, then the third. */
  function TwoPageRemote(): Remote {
    (history: seq<Request>, req: Request) =>
      if |history| == 0 then PageAnswer([KeyOnly("TEST-1"), KeyOnly("TEST-2")], 3)
      else PageAnswer([KeyOnly("TEST-3")], 3)
  }

  /** A 200 answer carrying `items` and `total`. */
  function PageAnswer(items: seq<Json>, total: int): Response {
    Response(200, Some(JObj(map["issues" := JArr(items), "total" := JNum(total)])))
  }

  /** A page of key-only issues that fits the quota, with more issues left, carries on after it. */
  lemma FirstPageCarriesOn()
    ensures PageStep(PageAnswer([KeyOnly("TEST-1"), KeyOnly("TEST-2")], 3), 0, [], 5)
      == Continue([Issue("TEST-1", map[]), Issue("TEST-2", map[])], 2)
  {
    var page := [KeyOnly("TEST-1"), KeyOnly("TEST-2")];
    assert BuildIssue(KeyOnly("TEST-2")) == Ok(Issue("TEST-2", map[]));
    assert page[1..] == [KeyOnly("TEST-2")] && page[1..][1..] == [];
    assert BuildPage(page[1..], [Issue("TEST-1", map[])], 5)
      == Finished([Issue("TEST-1", map[]), Issue("TEST-2", map[])]);
  }

  /** The last page reaches `total`: the search stops with every issue. */
  lemma LastPageStops(acc: seq<Issue>)
    requires acc == [Issue("TEST-1", map[]), Issue("TEST-2", map[])]
    ensures PageStep(PageAnswer([KeyOnly("TEST-3")], 3), 2, acc, 5) == Stop(acc + [Issue("TEST-3", map[])], None)
  {
    var page := [KeyOnly("TEST-3")];
    assert page[1..] == [];
    assert BuildPage(page, acc, 5) == Finished(acc + [Issue("TEST-3", map[])]);
  }

  /** Pages of two and one issues with total 3 and `max_results=5`: three issues from two requests. */
  lemma TwoPageExample(jql: string)
    ensures var r := SearchIssues(TwoPageRemote(), [], jql, 5);
      && r.issues == [Issue("TEST-1", map[]), Issue("TEST-2", map[]), Issue("TEST-3", map[])]
      && r.failure == None
      && r.requests == [SearchRequest(jql, 0, 5), SearchRequest(jql, 2, 5)]
  {
    var remote := TwoPageRemote();
    var req1 := SearchRequest(jql, 0, 5);
    var req2 := SearchRequest(jql, 2, 5);
    assert remote([], req1) == PageAnswer([KeyOnly("TEST-1"), KeyOnly("TEST-2")], 3);
    assert remote([req1], req2) == PageAnswer([KeyOnly("TEST-3")], 3);
    FirstPageCarriesOn();
    LastPageStops([Issue("TEST-1", map[]), Issue("TEST-2", map[])]);
    SearchFromStep(remote, [], jql, 0, 5, 5, []);
    SearchFromStep(remote, [req1], jql, 2, 5, 5, [Issue("TEST-1", map[]), Issue("TEST-2", map[])]);
  }
}
