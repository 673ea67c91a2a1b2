/**
 * `JiraClient` as an object: the remote it talks to and the requests it has
 * sent so far. Each operation is written as the source writes it, step by
 * step, and proved to reach the outcome and send the requests that its
 * specification function prescribes.
 */
module Client {
  import opened Wrappers
  import opened Json
  import opened Strings
  import opened Errors
  import opened WorkIssue
  import opened Http
  import opened JiraIssue
  import opened Adf
  import opened Jql
  import opened Transitions
  import opened Search
  import opened Orchestration

  class JiraClient {
    /** The remote side, answering each request in the light of those sent before it. */
    const remote: Remote
    /** Every request sent so far, oldest first. */
    var trace: seq<Request>

    constructor(remote: Remote)
      ensures this.remote == remote && trace == []
    {
      this.remote := remote;
      trace := [];
    }

    /** `_get`. */
    method Get(path: string, params: map<string, Json>) returns (r: Result<Json, Error>)
      modifies this
      ensures r == JsonResult(path, remote(old(trace), Http.Get(path, params)))
      ensures trace == old(trace) + [Http.Get(path, params)]
    {
      var resp := remote(trace, Http.Get(path, params));
      trace := trace + [Http.Get(path, params)];
      r := JsonResult(path, resp);
    }

    /** `_post`. */
    method Post(path: string, body: Json) returns (r: Result<Json, Error>)
      modifies this
      ensures r == JsonResult(path, remote(old(trace), Http.Post(path, body)))
      ensures trace == old(trace) + [Http.Post(path, body)]
    {
      var resp := remote(trace, Http.Post(path, body));
      trace := trace + [Http.Post(path, body)];
      r := JsonResult(path, resp);
    }

    /** `_put`. */
    method Put(path: string, body: Json) returns (r: Result<Json, Error>)
      modifies this
      ensures r == PutResult(path, remote(old(trace), Http.Put(path, body)))
      ensures trace == old(trace) + [Http.Put(path, body)]
    {
      var resp := remote(trace, Http.Put(path, body));
      trace := trace + [Http.Put(path, body)];
      r := PutResult(path, resp);
    }

    /** `_delete`. */
    method Delete(path: string) returns (r: Result<bool, Error>)
      modifies this
      ensures r == DeleteResult(path, remote(old(trace), Http.Delete(path)))
      ensures trace == old(trace) + [Http.Delete(path)]
    {
      var resp := remote(trace, Http.Delete(path));
      trace := trace + [Http.Delete(path)];
      r := DeleteResult(path, resp);
    }

    /** `get_issue`. */
    method GetIssue(issueId: string) returns (r: Result<Issue, Error>)
      modifies this
      ensures r == GetIssueRun(remote, old(trace), issueId).outcome
      ensures trace == old(trace) + GetIssueRun(remote, old(trace), issueId).requests
    {
      var data := Get(IssuePath(issueId), map[]);
      if data.Err? {
        return Err(data.error);
      }
      r := BuildIssue(data.value);
    }

    /**
     * The lookup half of `_apply_status_transition`: index the listed
     * transitions by lower-cased name, then scan the candidates in order and
     * stop at the first available one.
     */
    static method ResolveTransition(data: Json, issueId: string, target: Status) returns (r: Result<Json, Error>)
      ensures r == Resolve(data, issueId, target)
    {
      var listing := TransitionList(data);
      if listing.Err? {
        return Err(listing.error);
      }
      var named := Named(listing.value);
      if named.Err? {
        return Err(named.error);
      }
      var found := FirstAvailable(Candidates(target), ByName(named.value));
      if found.None? {
        return Err(NoTransition(issueId, target, Dedup(Names(named.value))));
      }
      var t := found.value;
      if "id" !in t {
        return Err(KeyMissing("id"));
      }
      r := Ok(t["id"]);
    }

    /** The `for candidate in ...: if candidate.lower() in available: ... break` scan. */
    static method FirstAvailable(cands: seq<string>, available: map<string, map<string, Json>>)
      returns (found: Option<map<string, Json>>)
      ensures found == Select(cands, available)
    {
      found := None;
      var i := 0;
      while i < |cands|
        invariant 0 <= i <= |cands|
        invariant forall j :: 0 <= j < i ==> Lower(cands[j]) !in available
      {
        if Lower(cands[i]) in available {
          found := Some(available[Lower(cands[i])]);
          assert FirstMatch(cands, available) == Some(i);
          return;
        }
        i := i + 1;
      }
    }

    /** The POST of the chosen transition id. */
    method PostTransition(issueId: string, id: Json) returns (r: Result<(), Error>)
      modifies this
      ensures r == PostTransitionRun(remote, old(trace), issueId, id).outcome
      ensures trace == old(trace) + PostTransitionRun(remote, old(trace), issueId, id).requests
    {
      var posted := Post(TransitionsPath(issueId), TransitionBody(id));
      if posted.Err? {
        return Err(posted.error);
      }
      r := Ok(());
    }

    /** `_apply_status_transition`: list the transitions, resolve the one to take, post its id. */
    method ApplyStatusTransition(issueId: string, target: Status) returns (r: Result<(), Error>)
      modifies this
      ensures r == TransitionRun(remote, old(trace), issueId, target).outcome
      ensures trace == old(trace) + TransitionRun(remote, old(trace), issueId, target).requests
    {
      var data := Get(TransitionsPath(issueId), map[]);
      if data.Err? {
        return Err(data.error);
      }
      var id := ResolveTransition(data.value, issueId, target);
      if id.Err? {
        return Err(id.error);
      }
      ghost var h := trace;
      r := PostTransition(issueId, id.value);
      SentInTurn(old(trace), [Http.Get(TransitionsPath(issueId), map[])], PostTransitionRun(remote, h, issueId, id.value).requests);
    }

    /**
     * The inner `for issue in issues` loop of `get_issues`: stop once `max`
     * issues are out, otherwise build and hand out the next one.
     */
    static method ConsumePage(items: seq<Json>, acc: seq<Issue>, max: int) returns (end: PageEnd)
      ensures end == BuildPage(items, acc, max)
    {
      var issues := acc;
      var k := 0;
      while k < |items|
        invariant 0 <= k <= |items|
        invariant BuildPage(items[k..], issues, max) == BuildPage(items, acc, max)
      {
        if |issues| >= max {
          return Quota(issues);
        }
        var built := BuildIssue(items[k]);
        if built.Err? {
          return Failed(issues, built.error);
        }
        assert items[k..][1..] == items[k + 1..];
        issues := issues + [built.value];
        k := k + 1;
      }
      assert items[k..] == [];
      end := Finished(issues);
    }

    /** The pass of the outer loop over a non-empty page: its issues, then the `total` test. */
    static method StepItems(data: map<string, Json>, items: seq<Json>, startAt: int, acc: seq<Issue>, max: int)
      returns (step: StepEnd)
      requires |acc| < max && items != []
      ensures step == ItemsStep(data, items, startAt, acc, max)
    {
      var end := ConsumePage(items, acc, max);
      if end.Failed? {
        return Stop(end.acc, Some(end.error));
      }
      if end.Quota? {
        return Stop(end.acc, None);
      }
      var total := PageTotal(data);
      if total.Err? {
        return Stop(end.acc, Some(total.error));
      }
      if startAt + |items| >= total.value {
        return Stop(end.acc, None);
      }
      step := Continue(end.acc, startAt + |items|);
    }

    /**
     * One pass of the outer `while` loop of `get_issues`: request the page at
     * `startAt`, hand out its issues, and decide whether the search goes on.
     */
    method FetchPage(jql: string, startAt: int, pageSize: int, acc: seq<Issue>, max: int) returns (step: StepEnd)
      requires |acc| < max
      modifies this
      ensures trace == old(trace) + [SearchRequest(jql, startAt, pageSize)]
      ensures step == PageStep(remote(old(trace), SearchRequest(jql, startAt, pageSize)), startAt, acc, max)
      ensures step.Stop? ==>
        SearchFrom(remote, old(trace), jql, startAt, pageSize, max, acc)
          == SearchRun(step.got, step.failure, [SearchRequest(jql, startAt, pageSize)])
      ensures step.Continue? ==>
        SearchFrom(remote, old(trace), jql, startAt, pageSize, max, acc)
          == After([SearchRequest(jql, startAt, pageSize)], SearchFrom(remote, trace, jql, step.next, pageSize, max, step.got))
      ensures step.Continue? ==> |acc| < |step.got| <= max
    {
      SearchFromStep(remote, trace, jql, startAt, pageSize, max, acc);
      var data := Get(SearchPath, SearchRequest(jql, startAt, pageSize).params);
      if data.Err? {
        return Stop(acc, Some(data.error));
      }
      var page := PageItems(data.value);
      if page.Err? {
        return Stop(acc, Some(page.error));
      }
      if page.value == [] {
        return Stop(acc, None);
      }
      step := StepItems(data.value.fields, page.value, startAt, acc, max);
    }

    /** The paging loop of `get_issues` on an already built query. */
    method Search(jql: string, maxResults: int) returns (issues: seq<Issue>, failure: Option<Error>)
      modifies this
      ensures var run := SearchIssues(remote, old(trace), jql, maxResults);
        issues == run.issues && failure == run.failure && trace == old(trace) + run.requests
    {
      var startAt := 0;
      var pageSize := PageSize(maxResults);
      issues := [];
      ghost var goal := SearchIssues(remote, trace, jql, maxResults);
      ghost var h0 := trace;
      while |issues| < maxResults
        invariant After(h0, goal) == After(trace, SearchFrom(remote, trace, jql, startAt, pageSize, maxResults, issues))
        decreases maxResults - |issues|
      {
        ghost var h := trace;
        var step := FetchPage(jql, startAt, pageSize, issues, maxResults);
        if step.Stop? {
          issues, failure := step.got, step.failure;
          return;
        }
        AfterAfter(h, [SearchRequest(jql, startAt, pageSize)],
                   SearchFrom(remote, trace, jql, step.next, pageSize, maxResults, step.got));
        issues := step.got;
        startAt := step.next;
      }
      assert trace + [] == trace;
      failure := None;
    }

    /**
     * `get_issues`, with the generator's output collected: the issues
     * handed out, and the error that ended the iteration if one did.
     */
    method GetIssues(filters: Filters, maxResults: int) returns (issues: seq<Issue>, failure: Option<Error>)
      modifies this
      ensures var run := SearchIssues(remote, old(trace), BuildJql(filters), maxResults);
        issues == run.issues && failure == run.failure && trace == old(trace) + run.requests
    {
      issues, failure := Search(BuildJql(filters), maxResults);
    }

    /** The PUT of `update_issue`, sent only when there are fields to write. */
    method WriteFields(issueId: string, fields: map<string, Json>) returns (r: Result<(), Error>)
      modifies this
      ensures r == WriteRun(remote, old(trace), issueId, fields).outcome
      ensures trace == old(trace) + WriteRun(remote, old(trace), issueId, fields).requests
    {
      if fields == map[] {
        assert trace + [] == trace;
        return Ok(());
      }
      var written := Put(IssuePath(issueId), JObj(map["fields" := JObj(fields)]));
      if written.Err? {
        return Err(written.error);
      }
      r := Ok(());
    }

    /** The transition of a write, run only when a status is given. */
    method MoveTo(issueId: string, status: Option<Status>) returns (r: Result<(), Error>)
      modifies this
      ensures r == StatusRun(remote, old(trace), issueId, status).outcome
      ensures trace == old(trace) + StatusRun(remote, old(trace), issueId, status).requests
    {
      if status.None? {
        assert trace + [] == trace;
        return Ok(());
      }
      r := ApplyStatusTransition(issueId, status.value);
    }

    /**
     * `update_issue`: PUT the mapped fields if any, run the transition if a
     * status is set, read the issue back.
     */
    method UpdateIssue(issueId: string, update: IssueUpdate) returns (r: Result<Issue, Error>)
      modifies this
      ensures r == UpdateRun(remote, old(trace), issueId, update).outcome
      ensures trace == old(trace) + UpdateRun(remote, old(trace), issueId, update).requests
    {
      ghost var h0 := trace;
      var fields := UpdatePayload(update);
      ghost var write := WriteRun(remote, h0, issueId, fields);
      var written := WriteFields(issueId, fields);
      ghost var h1 := trace;
      ghost var moves := StatusRun(remote, h1, issueId, update.status);
      ghost var tail := Then(moves, GetIssueRun(remote, h1 + moves.requests, issueId));
      ThenAfter(h0, write, tail);
      if written.Err? {
        return Err(written.error);
      }
      var moved := MoveTo(issueId, update.status);
      ThenAfter(h1, moves, GetIssueRun(remote, h1 + moves.requests, issueId));
      if moved.Err? {
        return Err(moved.error);
      }
      r := GetIssue(issueId);
    }

    /**
     * `create_issue`: POST the fields, run the transition on the returned key
     * if a status is given, read the new issue back.
     */
    method CreateIssue(title: Option<string>, description: Option<string>, status: Option<Status>,
                       assignee: Option<string>, dueDate: Option<string>) returns (r: Result<Issue, Error>)
      modifies this
      ensures r == CreateRun(remote, old(trace), title, description, status, assignee, dueDate).outcome
      ensures trace == old(trace) + CreateRun(remote, old(trace), title, description, status, assignee, dueDate).requests
    {
      ghost var h0 := trace;
      var fields := CreatePayload(title, description, assignee, dueDate);
      var data := Post("/issue", JObj(map["fields" := JObj(fields)]));
      if data.Err? {
        return Err(data.error);
      }
      var key := CreatedKey(data.value);
      if key.Err? {
        return Err(key.error);
      }
      ghost var h1 := trace;
      ghost var moves := StatusRun(remote, h1, key.value, status);
      ghost var rest := Then(moves, GetIssueRun(remote, h1 + moves.requests, key.value));
      SentInTurn(h0, [Http.Post("/issue", JObj(map["fields" := JObj(fields)]))], rest.requests);
      var moved := MoveTo(key.value, status);
      ThenAfter(h1, moves, GetIssueRun(remote, h1 + moves.requests, key.value));
      if moved.Err? {
        return Err(moved.error);
      }
      r := GetIssue(key.value);
    }

    /** `delete_issue`: the DELETE, whose `False` for a missing issue is dropped. */
    method DeleteIssue(issueId: string) returns (r: Result<(), Error>)
      modifies this
      ensures r == DeleteRun(remote, old(trace), issueId).outcome
      ensures trace == old(trace) + DeleteRun(remote, old(trace), issueId).requests
    {
      var deleted := Delete(IssuePath(issueId));
      if deleted.Err? {
        return Err(deleted.error);
      }
      r := Ok(());
    }
  }
}
