/**
 * The write paths of `JiraClient`: `get_issue`, `update_issue`,
 * `create_issue` and `delete_issue`, each as the outcome it reaches and the
 * ordered requests it sends. Jira does not accept a status in a field
 * update, so a status change always goes through the transitions API after
 * the write, and every write ends by reading the issue back.
 */
module Orchestration {
  import opened Wrappers
  import opened Json
  import opened Errors
  import opened WorkIssue
  import opened Http
  import opened JiraIssue
  import opened Adf
  import opened Transitions
  import Jql

  /** The path of one issue. */
  function IssuePath(issueId: string): string {
    "/issue/" + issueId
  }

  /** `get_issue`: GET the issue, then build it from the response. */
  function GetIssueRun(remote: Remote, history: seq<Request>, issueId: string): (r: Run<Issue>)
    ensures r.requests == [Get(IssuePath(issueId), map[])]
  {
    var req := Get(IssuePath(issueId), map[]);
    match JsonResult(IssuePath(issueId), remote(history, req))
    case Err(e) => Run(Err(e), [req])
    case Ok(data) => Run(BuildIssue(data), [req])
  }

  /**
   * What `get_issue` reaches: a 404 is the not-found error for the issue's
   * path, any other failing code the API error with that code, and a
   * successful answer the issue built from its body.
   */
  lemma GetIssueOutcome(remote: Remote, history: seq<Request>, issueId: string)
    ensures var resp := remote(history, Get(IssuePath(issueId), map[]));
      var r := GetIssueRun(remote, history, issueId);
      && (resp.status == 404 ==> r.outcome == Err(NotFound(IssuePath(issueId))))
      && (400 <= resp.status < 600 && resp.status != 404 ==> r.outcome == Err(ApiError(resp.status)))
      && (IsOk(resp.status) && resp.body.Some? ==> r.outcome == BuildIssue(resp.body.value))
      && (IsOk(resp.status) && resp.body.None? ==> r.outcome == Err(BadJson))
  {
  }

  /** Runs `second` after the requests of `first` when `first` succeeds. */
  function Then<T, U>(first: Run<T>, second: Run<U>): (r: Run<U>)
    ensures r.requests == first.requests + (if first.outcome.Ok? then second.requests else [])
    ensures r.outcome.Ok? <==> first.outcome.Ok? && second.outcome.Ok?
  {
    match first.outcome
    case Err(e) => Run(Err(e), first.requests)
    case Ok(_) => Run(second.outcome, first.requests + second.requests)
  }

  /** The requests of `Then`, seen as an extension of the requests sent before it. */
  lemma ThenAfter<T, U>(history: seq<Request>, first: Run<T>, second: Run<U>)
    ensures first.outcome.Err? ==> Then(first, second) == Run(Err(first.outcome.error), first.requests)
    ensures first.outcome.Ok? ==>
      Then(first, second).outcome == second.outcome
      && history + Then(first, second).requests == (history + first.requests) + second.requests
  {
    if first.outcome.Ok? {
      assert history + (first.requests + second.requests) == (history + first.requests) + second.requests;
    }
  }

  /**
   * The `fields` of the PUT in `update_issue`: every set field but the
   * status, under its Jira name.
   */
  function UpdatePayload(u: IssueUpdate): (fields: map<string, Json>)
    ensures fields.Keys <= {"summary", "description", "assignee", "duedate"}
    ensures "summary" in fields <==> u.title.Some?
    ensures "description" in fields <==> u.description.Some?
    ensures "assignee" in fields <==> u.assignee.Some?
    ensures "duedate" in fields <==> u.dueDate.Some?
    ensures "summary" in fields ==> fields["summary"] == JStr(u.title.value)
    ensures "description" in fields ==>
      TextToAdf(JStr(u.description.value)) == Ok(fields["description"])
      && ExtractAdfText(fields["description"]) == Ok(u.description.value)
    ensures "assignee" in fields ==> fields["assignee"] == JObj(map["emailAddress" := JStr(u.assignee.value)])
    ensures "duedate" in fields ==> fields["duedate"] == JStr(u.dueDate.value)
    ensures fields == map[] <==> u.title.None? && u.description.None? && u.assignee.None? && u.dueDate.None?
  {
    var changed := SetFields(u);
    var f0: map<string, Json> := map[];
    var f1 := if "title" in changed then f0["summary" := JStr(changed["title"].text)] else f0;
    var f2 := if "description" in changed then f1["description" := TextToAdf(JStr(changed["description"].text)).value] else f1;
    var f3 := if "assignee" in changed then f2["assignee" := JObj(map["emailAddress" := JStr(changed["assignee"].text)])] else f2;
    var f4 := if "due_date" in changed then f3["duedate" := JStr(changed["due_date"].text)] else f3;
    assert u.title.Some? ==> "summary" in f4;
    f4
  }

  /** The PUT of `update_issue`, when there is something to write. */
  function WriteRun(remote: Remote, history: seq<Request>, issueId: string, fields: map<string, Json>): (r: Run<()>)
    ensures fields == map[] ==> r == Run(Ok(()), [])
    ensures fields != map[] ==> r.requests == [Put(IssuePath(issueId), JObj(map["fields" := JObj(fields)]))]
  {
    if fields == map[] then Run(Ok(()), [])
    else
      var req := Put(IssuePath(issueId), JObj(map["fields" := JObj(fields)]));
      match PutResult(IssuePath(issueId), remote(history, req))
      case Err(e) => Run(Err(e), [req])
      case Ok(_) => Run(Ok(()), [req])
  }

  /** The transition of a write, when a status is given. */
  function StatusRun(remote: Remote, history: seq<Request>, issueId: string, status: Option<Status>): (r: Run<()>)
    ensures status.None? ==> r == Run(Ok(()), [])
    ensures status.Some? ==> 1 <= |r.requests| <= 2 && r.requests[0] == Get(TransitionsPath(issueId), map[])
    ensures status.Some? && |r.requests| == 2 ==> r.requests[1].Post? && r.requests[1].path == TransitionsPath(issueId)
    ensures status.Some? && r.outcome.Ok? ==> |r.requests| == 2
  {
    if status.None? then Run(Ok(()), [])
    else TransitionRun(remote, history, issueId, status.value)
  }

  /** Every request of the transition step goes to the issue's transitions and is a GET or a POST. */
  lemma StatusRequestsOnTransitions(remote: Remote, history: seq<Request>, issueId: string, status: Option<Status>)
    ensures var r := StatusRun(remote, history, issueId, status);
      forall i :: 0 <= i < |r.requests| ==>
        r.requests[i].path == TransitionsPath(issueId) && (r.requests[i].Get? || r.requests[i].Post?)
  {
    var r := StatusRun(remote, history, issueId, status);
    if status.Some? {
      assert |r.requests| == 1 || |r.requests| == 2;
    }
  }

  /** `update_issue`: the PUT of the mapped fields, then the transition, then the read back. */
  function UpdateRun(remote: Remote, history: seq<Request>, issueId: string, u: IssueUpdate): Run<Issue> {
    var write := WriteRun(remote, history, issueId, UpdatePayload(u));
    var h1 := history + write.requests;
    var status := StatusRun(remote, h1, issueId, u.status);
    var h2 := h1 + status.requests;
    Then(write, Then(status, GetIssueRun(remote, h2, issueId)))
  }

  /**
   * The `fields` of the POST in `create_issue`: the title (`null` when
   * omitted) and the issue type always; description, assignee and due date
   * only when given and non-empty.
   */
  function CreatePayload(title: Option<string>, description: Option<string>,
                         assignee: Option<string>, dueDate: Option<string>): (fields: map<string, Json>)
    ensures "summary" in fields && "issuetype" in fields
    ensures fields["summary"] == (if title.Some? then JStr(title.value) else JNull)
    ensures fields["issuetype"] == JObj(map["name" := JStr("Issue")])
    ensures "description" in fields <==> Jql.Given(description)
    ensures "assignee" in fields <==> Jql.Given(assignee)
    ensures "duedate" in fields <==> Jql.Given(dueDate)
    ensures fields.Keys <= {"summary", "issuetype", "description", "assignee", "duedate"}
    ensures "description" in fields ==>
      TextToAdf(JStr(description.value)) == Ok(fields["description"])
      && ExtractAdfText(fields["description"]) == Ok(description.value)
    ensures "assignee" in fields ==> fields["assignee"] == JObj(map["emailAddress" := JStr(assignee.value)])
    ensures "duedate" in fields ==> fields["duedate"] == JStr(dueDate.value)
  {
    var f0 := map["summary" := (if title.Some? then JStr(title.value) else JNull),
                  "issuetype" := JObj(map["name" := JStr("Issue")])];
    var f1 := if Jql.Given(description) then f0["description" := TextToAdf(JStr(description.value)).value] else f0;
    var f2 := if Jql.Given(assignee) then f1["assignee" := JObj(map["emailAddress" := JStr(assignee.value)])] else f1;
    var f3 := if Jql.Given(dueDate) then f2["duedate" := JStr(dueDate.value)] else f2;
    f3
  }

  /** `data["key"]` on the response to the create POST. */
  function CreatedKey(data: Json): Result<string, Error> {
    match data
    case JObj(m) =>
      if "key" !in m then Err(KeyMissing("key"))
      else if m["key"].JStr? then Ok(m["key"].s)
      else Err(TypeMismatch)
    case _ => Err(TypeMismatch)
  }

  /** `create_issue`: POST the fields, then the transition on the new key, then the read back. */
  function CreateRun(remote: Remote, history: seq<Request>, title: Option<string>, description: Option<string>,
                     status: Option<Status>, assignee: Option<string>, dueDate: Option<string>): Run<Issue> {
    var post := Post("/issue", JObj(map["fields" := JObj(CreatePayload(title, description, assignee, dueDate))]));
    match JsonResult("/issue", remote(history, post))
    case Err(e) => Run(Err(e), [post])
    case Ok(data) =>
      match CreatedKey(data)
      case Err(e) => Run(Err(e), [post])
      case Ok(key) =>
        var h1 := history + [post];
        var transition := StatusRun(remote, h1, key, status);
        var rest := Then(transition, GetIssueRun(remote, h1 + transition.requests, key));
        Run(rest.outcome, [post] + rest.requests)
  }

  /** `delete_issue`: one DELETE; a 404 is swallowed by `_delete` and not reported. */
  function DeleteRun(remote: Remote, history: seq<Request>, issueId: string): Run<()> {
    var req := Delete(IssuePath(issueId));
    match DeleteResult(IssuePath(issueId), remote(history, req))
    case Err(e) => Run(Err(e), [req])
    case Ok(_) => Run(Ok(()), [req])
  }

  // ---------------------------------------------------------------------
  // Properties
  // ---------------------------------------------------------------------

  /**
   * The requests of `update_issue`: the PUT comes first and only when the
   * payload is non-empty, and no status means no transition POST.
   */
  lemma UpdateWritesFirst(remote: Remote, history: seq<Request>, issueId: string, u: IssueUpdate)
    ensures var r := UpdateRun(remote, history, issueId, u);
      var fields := UpdatePayload(u);
      && (fields != map[] ==> r.requests[0] == Put(IssuePath(issueId), JObj(map["fields" := JObj(fields)])))
      && (forall i :: 0 <= i < |r.requests| && r.requests[i].Put? ==> i == 0 && fields != map[])
      && (u.status.None? ==> forall i :: 0 <= i < |r.requests| ==> !r.requests[i].Post?)
  {
    var fields := UpdatePayload(u);
    var write := WriteRun(remote, history, issueId, fields);
    var h1 := history + write.requests;
    var status := StatusRun(remote, h1, issueId, u.status);
    var tail := Then(status, GetIssueRun(remote, h1 + status.requests, issueId));
    UpdateTail(remote, h1, issueId, u.status);
    WriteThenTail(remote, history, issueId, fields, tail);
  }

  /** The PUT, if any, followed by requests none of which is a PUT. */
  lemma WriteThenTail(remote: Remote, history: seq<Request>, issueId: string, fields: map<string, Json>, tail: Run<Issue>)
    requires forall i :: 0 <= i < |tail.requests| ==> !tail.requests[i].Put?
    ensures var r := Then(WriteRun(remote, history, issueId, fields), tail);
      && (fields != map[] ==> r.requests[0] == Put(IssuePath(issueId), JObj(map["fields" := JObj(fields)])))
      && (forall i :: 0 <= i < |r.requests| && r.requests[i].Put? ==> i == 0 && fields != map[])
      && ((forall i :: 0 <= i < |tail.requests| ==> tail.requests[i].Get?) ==>
            forall i :: 0 <= i < |r.requests| ==> !r.requests[i].Post?)
  {
    var write := WriteRun(remote, history, issueId, fields);
    var r := Then(write, tail);
    forall i | |write.requests| <= i < |r.requests|
      ensures r.requests[i] == tail.requests[i - |write.requests|]
    {
    }
  }

  /** What `update_issue` sends after the PUT: transition requests and the read back, never a PUT. */
  lemma UpdateTail(remote: Remote, h1: seq<Request>, issueId: string, status: Option<Status>)
    ensures var transition := StatusRun(remote, h1, issueId, status);
      var tail := Then(transition, GetIssueRun(remote, h1 + transition.requests, issueId));
      && (forall i :: 0 <= i < |tail.requests| ==> !tail.requests[i].Put?)
      && (status.None? ==> forall i :: 0 <= i < |tail.requests| ==> tail.requests[i].Get?)
  {
    var transition := StatusRun(remote, h1, issueId, status);
    var get := GetIssueRun(remote, h1 + transition.requests, issueId);
    var tail := Then(transition, get);
    StatusRequestsOnTransitions(remote, h1, issueId, status);
    forall i | |transition.requests| <= i < |tail.requests|
      ensures tail.requests[i].Get?
    {
      assert tail.requests[i] == get.requests[i - |transition.requests|];
    }
  }

  /**
   * A successful update sends the PUT if any, the two transition requests
   * if a status is set, and ends with one GET of the issue.
   */
  lemma UpdateEndsWithRead(remote: Remote, history: seq<Request>, issueId: string, u: IssueUpdate)
    ensures var r := UpdateRun(remote, history, issueId, u);
      r.outcome.Ok? ==>
        |r.requests| == (if UpdatePayload(u) == map[] then 0 else 1) + (if u.status.Some? then 2 else 0) + 1
        && r.requests[|r.requests| - 1] == Get(IssuePath(issueId), map[])
  {
  }

  /** An update with no field set sends nothing but the read back. */
  lemma DefaultUpdateOnlyReads(remote: Remote, history: seq<Request>, issueId: string)
    ensures UpdateRun(remote, history, issueId, DefaultUpdate).requests == [Get(IssuePath(issueId), map[])]
  {
    assert UpdatePayload(DefaultUpdate) == map[];
  }

  /** What `create_issue` sends once the key is known: the transition, if any, then the read back. */
  lemma CreateTail(remote: Remote, h1: seq<Request>, key: string, status: Option<Status>)
    ensures var transition := StatusRun(remote, h1, key, status);
      var rest := Then(transition, GetIssueRun(remote, h1 + transition.requests, key));
      && (forall i :: 0 <= i < |rest.requests| ==> rest.requests[i].path != "/issue")
      && (status.None? ==> forall i :: 0 <= i < |rest.requests| ==> rest.requests[i].Get?)
      && (rest.outcome.Ok? ==>
            && |rest.requests| == (if status.Some? then 3 else 1)
            && rest.requests[|rest.requests| - 1] == Get(IssuePath(key), map[])
            && (status.Some? ==> rest.requests[0] == Get(TransitionsPath(key), map[])))
  {
    var transition := StatusRun(remote, h1, key, status);
    StatusRequestsOnTransitions(remote, h1, key, status);
    TailAfterTransition(transition, GetIssueRun(remote, h1 + transition.requests, key), key, status.Some?);
  }

  /** `CreateTail` over any transition step and read back of the shapes `StatusRun` and `GetIssueRun` promise. */
  lemma TailAfterTransition(transition: Run<()>, get: Run<Issue>, key: string, moves: bool)
    requires !moves ==> transition == Run(Ok(()), [])
    requires moves ==> 1 <= |transition.requests| <= 2 && transition.requests[0] == Get(TransitionsPath(key), map[])
    requires moves && transition.outcome.Ok? ==> |transition.requests| == 2
    requires forall i :: 0 <= i < |transition.requests| ==>
      transition.requests[i].path == TransitionsPath(key) && (transition.requests[i].Get? || transition.requests[i].Post?)
    requires get.requests == [Get(IssuePath(key), map[])]
    ensures var rest := Then(transition, get);
      && (forall i :: 0 <= i < |rest.requests| ==> rest.requests[i].path != "/issue")
      && (!moves ==> forall i :: 0 <= i < |rest.requests| ==> rest.requests[i].Get?)
      && (rest.outcome.Ok? ==>
            && |rest.requests| == (if moves then 3 else 1)
            && rest.requests[|rest.requests| - 1] == Get(IssuePath(key), map[])
            && (moves ==> rest.requests[0] == Get(TransitionsPath(key), map[])))
  {
    var rest := Then(transition, get);
    assert IssuePath(key) != "/issue" && TransitionsPath(key) != "/issue";
    forall i | 0 <= i < |rest.requests|
      ensures rest.requests[i].path != "/issue"
      ensures !moves ==> rest.requests[i].Get?
    {
      if i >= |transition.requests| {
        assert rest.requests[i] == get.requests[i - |transition.requests|];
      }
    }
  }

  /**
   * The requests of `create_issue`: the POST of the fields first; the
   * transition on the returned key only when a status is given; a successful
   * creation ends with one GET of the new key.
   */
  lemma CreateOrder(remote: Remote, history: seq<Request>, title: Option<string>, description: Option<string>,
                    status: Option<Status>, assignee: Option<string>, dueDate: Option<string>)
    ensures var r := CreateRun(remote, history, title, description, status, assignee, dueDate);
      var post := Post("/issue", JObj(map["fields" := JObj(CreatePayload(title, description, assignee, dueDate))]));
      && r.requests[0] == post
      && (forall i :: 0 < i < |r.requests| ==> r.requests[i].path != "/issue")
      && (status.None? ==> forall i :: 0 < i < |r.requests| ==> r.requests[i].Get?)
      && (r.outcome.Ok? ==>
            var key := CreatedKey(JsonResult("/issue", remote(history, post)).value).value;
            && |r.requests| == (if status.Some? then 4 else 2)
            && r.requests[|r.requests| - 1] == Get(IssuePath(key), map[])
            && (status.Some? ==> r.requests[1] == Get(TransitionsPath(key), map[])))
  {
    var post := Post("/issue", JObj(map["fields" := JObj(CreatePayload(title, description, assignee, dueDate))]));
    var data := JsonResult("/issue", remote(history, post));
    if data.Ok? && CreatedKey(data.value).Ok? {
      var key := CreatedKey(data.value).value;
      var h1 := history + [post];
      var transition := StatusRun(remote, h1, key, status);
      var rest := Then(transition, GetIssueRun(remote, h1 + transition.requests, key));
      CreateTail(remote, h1, key, status);
      var r := Run(rest.outcome, [post] + rest.requests);
      assert r == CreateRun(remote, history, title, description, status, assignee, dueDate);
      assert forall i :: 0 < i < |r.requests| ==> r.requests[i] == rest.requests[i - 1];
    }
  }

  /** `delete_issue` on a missing issue completes without an error, as the code is written. */
  lemma DeleteMissingIsSilent(remote: Remote, history: seq<Request>, issueId: string)
    requires remote(history, Delete(IssuePath(issueId))).status == 404
    ensures DeleteRun(remote, history, issueId) == Run(Ok(()), [Delete(IssuePath(issueId))])
  {
  }

  /** `delete_issue` fails exactly when the DELETE answer is a failure other than 404. */
  lemma DeleteFailsOnError(remote: Remote, history: seq<Request>, issueId: string)
    ensures var status := remote(history, Delete(IssuePath(issueId))).status;
      DeleteRun(remote, history, issueId).outcome.Err? <==> 400 <= status < 600 && status != 404
  {
  }
}
