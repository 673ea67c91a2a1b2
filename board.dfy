/**
 * `JiraBoard`: a fixed set of status columns, and a view of the board's
 * issues that the client fetches and this side filters by status. Every
 * other operation is handed to the client unchanged.
 */
module Board {
  import opened Wrappers
  import opened Json
  import opened Errors
  import opened WorkIssue
  import opened Http
  import opened JiraIssue
  import opened Orchestration
  import opened Client

  /** A board column: the status it collects and its display name. */
  datatype BoardColumn = BoardColumn(status: Status, name: string)

  /** The columns every board starts with. */
  const DefaultColumns: seq<BoardColumn> := [
    BoardColumn(Todo, "To Do"),
    BoardColumn(InProgress, "In Progress"),
    BoardColumn(Complete, "Done"),
    BoardColumn(Cancelled, "Cancelled")
  ]

  /** Each status has exactly one default column. */
  lemma DefaultColumnsOnePerStatus(s: Status)
    ensures exists i :: 0 <= i < |DefaultColumns| && DefaultColumns[i].status == s
    ensures forall i, j ::
      (0 <= i < |DefaultColumns| && 0 <= j < |DefaultColumns|
       && DefaultColumns[i].status == s && DefaultColumns[j].status == s) ==> i == j
  {
    match s {
      case Todo => assert DefaultColumns[0].status == s;
      case InProgress => assert DefaultColumns[1].status == s;
      case Complete => assert DefaultColumns[2].status == s;
      case Cancelled => assert DefaultColumns[3].status == s;
    }
  }

  // ---------------------------------------------------------------------
  // list_issues
  // ---------------------------------------------------------------------

  /** The entries of a raw `issues` list that are objects, in order. */
  function ObjectEntries(items: seq<Json>): (r: seq<Json>)
    ensures |r| <= |items|
    ensures forall i :: 0 <= i < |r| ==> r[i].JObj?
    decreases |items|
  {
    if items == [] then []
    else if items[0].JObj? then [items[0]] + ObjectEntries(items[1..])
    else ObjectEntries(items[1..])
  }

  /** An object entry is kept and every kept entry comes from the list. */
  lemma {:induction false} ObjectEntriesMembers(items: seq<Json>)
    ensures forall x :: x in ObjectEntries(items) <==> x in items && x.JObj?
    decreases |items|
  {
    if items != [] {
      ObjectEntriesMembers(items[1..]);
      assert items == [items[0]] + items[1..];
    }
  }

  /**
   * The comprehension building one issue per object entry, in order; the
   * first record that cannot be built aborts the listing with its error.
   */
  function BuildObjects(items: seq<Json>): (r: Result<seq<Issue>, Error>)
    ensures r.Ok? ==> BuiltFrom(r.value, ObjectEntries(items))
    ensures r.Ok? <==> forall i :: 0 <= i < |items| && items[i].JObj? ==> BuildIssue(items[i]).Ok?
    ensures r.Err? ==> r.error == KeyMissing("key") || r.error == TypeMismatch
    decreases |items|
  {
    if items == [] then Ok([])
    else if !items[0].JObj? then
      var r := BuildObjects(items[1..]);
      assert forall i :: 1 <= i < |items| ==> items[i] == items[1..][i - 1];
      r
    else
      match BuildIssue(items[0])
      case Err(e) => Err(e)
      case Ok(issue) =>
        match BuildObjects(items[1..])
        case Err(e) =>
          assert forall i :: 1 <= i < |items| ==> items[i] == items[1..][i - 1];
          Err(e)
        case Ok(rest) =>
          assert forall i :: 1 <= i < |items| ==> items[i] == items[1..][i - 1];
          Ok([issue] + rest)
  }

  /** `[i for i in built if i.status == status]`. */
  function FilterStatus(issues: seq<Issue>, status: Status): (r: seq<Issue>)
    ensures |r| <= |issues|
    ensures forall i :: 0 <= i < |r| ==> r[i].Status() == status
    decreases |issues|
  {
    if issues == [] then []
    else if issues[0].Status() == status then [issues[0]] + FilterStatus(issues[1..], status)
    else FilterStatus(issues[1..], status)
  }

  /** An issue survives the filter exactly when it is listed and has the wanted status. */
  lemma {:induction false} FilterStatusMembers(issues: seq<Issue>, status: Status)
    ensures forall x :: x in FilterStatus(issues, status) <==> x in issues && x.Status() == status
    decreases |issues|
  {
    if issues != [] {
      FilterStatusMembers(issues[1..], status);
      assert issues == [issues[0]] + issues[1..];
    }
  }

  /** Filtering keeps the order: it distributes over concatenation. */
  lemma {:induction false} FilterStatusAppend(a: seq<Issue>, b: seq<Issue>, status: Status)
    ensures FilterStatus(a + b, status) == FilterStatus(a, status) + FilterStatus(b, status)
    decreases |a|
  {
    if a != [] {
      FilterStatusAppend(a[1..], b, status);
      assert (a + b)[1..] == a[1..] + b;
    } else {
      assert a + b == b;
    }
  }

  /** A list whose issues all have the wanted status is returned whole. */
  lemma {:induction false} FilterStatusKeepsMatching(issues: seq<Issue>, status: Status)
    requires forall i :: 0 <= i < |issues| ==> issues[i].Status() == status
    ensures FilterStatus(issues, status) == issues
    decreases |issues|
  {
    if issues != [] {
      FilterStatusKeepsMatching(issues[1..], status);
      assert [issues[0]] + issues[1..] == issues;
    }
  }

  /** The four status filters split a listing: every issue lands in exactly one of them. */
  lemma {:induction false} FilterStatusPartition(issues: seq<Issue>)
    ensures |FilterStatus(issues, Todo)| + |FilterStatus(issues, InProgress)|
      + |FilterStatus(issues, Complete)| + |FilterStatus(issues, Cancelled)| == |issues|
    decreases |issues|
  {
    if issues != [] {
      FilterStatusPartition(issues[1..]);
    }
  }

  /**
   * The body of `list_issues` after the GET: a response that is not an
   * object, or whose `issues` is not a list, lists nothing; otherwise the
   * object entries are built, then kept when their status is the one asked
   * for, if one is.
   */
  function BoardListing(data: Json, status: Option<Status>): (r: Result<seq<Issue>, Error>)
    ensures !data.JObj? ==> r == Ok([])
    ensures data.JObj? && !GetOr(data.fields, "issues", JArr([])).JArr? ==> r == Ok([])
    ensures data.JObj? && GetOr(data.fields, "issues", JArr([])).JArr? ==>
      var built := BuildObjects(GetOr(data.fields, "issues", JArr([])).items);
      && (r.Ok? <==> built.Ok?)
      && (r.Ok? && status.None? ==> r.value == built.value)
      && (r.Ok? && status.Some? ==> r.value == FilterStatus(built.value, status.value))
  {
    if !data.JObj? then Ok([])
    else
      var raw := GetOr(data.fields, "issues", JArr([]));
      if !raw.JArr? then Ok([])
      else
        match BuildObjects(raw.items)
        case Err(e) => Err(e)
        case Ok(built) => Ok(if status.None? then built else FilterStatus(built, status.value))
  }

  /** The name `list_issues` looks up on the client; the client defines only `_build_issue`. */
  const BuildIssueAttribute := "build_issue"

  /**
   * `list_issues` as written: the comprehension evaluates
   * `self._client.build_issue` for the first object entry, and the client
   * has no such attribute, so any object entry raises `AttributeError`. A
   * listing without object entries never reaches the lookup.
   */
  function BoardListingAsWritten(data: Json, status: Option<Status>): (r: Result<seq<Issue>, Error>)
    ensures r.Err? <==> data.JObj? && GetOr(data.fields, "issues", JArr([])).JArr?
                         && ObjectEntries(GetOr(data.fields, "issues", JArr([])).items) != []
    ensures r.Err? ==> r.error == MissingAttribute(BuildIssueAttribute)
    ensures r.Ok? ==> r.value == []
  {
    if !data.JObj? then Ok([])
    else
      var raw := GetOr(data.fields, "issues", JArr([]));
      if !raw.JArr? then Ok([])
      else if ObjectEntries(raw.items) != [] then Err(MissingAttribute(BuildIssueAttribute))
      else Ok([])
  }

  /** A listing with no object entry builds nothing. */
  lemma {:induction false} NoObjectsBuildNothing(items: seq<Json>)
    requires ObjectEntries(items) == []
    ensures BuildObjects(items) == Ok([])
    decreases |items|
  {
    if items != [] {
      NoObjectsBuildNothing(items[1..]);
    }
  }

  /**
   * The listing as written and the intended listing agree exactly when the
   * response holds no object entry: then both list nothing. Otherwise the
   * intended listing builds the entries, or fails on a malformed one with a
   * key or type error, while the code as written fails on the missing
   * attribute.
   */
  lemma AsWrittenDiffers(data: Json, status: Option<Status>)
    ensures BoardListingAsWritten(data, status) == BoardListing(data, status)
      <==> !(data.JObj? && GetOr(data.fields, "issues", JArr([])).JArr?
             && ObjectEntries(GetOr(data.fields, "issues", JArr([])).items) != [])
  {
    if data.JObj? && GetOr(data.fields, "issues", JArr([])).JArr? {
      var items := GetOr(data.fields, "issues", JArr([])).items;
      if ObjectEntries(items) == [] {
        NoObjectsBuildNothing(items);
      }
    }
  }

  /** One issue record with a key and no fields: the intended listing has its issue, the code as written fails. */
  lemma AsWrittenFailsOnOneIssue()
    ensures var data := JObj(map["issues" := JArr([JObj(map["key" := JStr("TEST-1")])])]);
      && BoardListing(data, None) == Ok([Issue("TEST-1", map[])])
      && BoardListingAsWritten(data, None) == Err(MissingAttribute(BuildIssueAttribute))
  {
    var entry := JObj(map["key" := JStr("TEST-1")]);
    var items := [entry];
    assert items[1..] == [];
    assert ObjectEntries(items) == [entry];
    assert BuildIssue(entry) == Ok(Issue("TEST-1", map[]));
    assert BuildObjects(items[1..]) == Ok([]);
    assert [Issue("TEST-1", map[])] + [] == [Issue("TEST-1", map[])];
    assert BuildObjects(items) == Ok([Issue("TEST-1", map[])]);
  }

  /** The path of a board's issue listing. */
  function BoardIssuesPath(boardId: string): string {
    "/board/" + boardId + "/issue"
  }

  /** The `fields` parameter of the listing request. */
  const ListedFields := "summary,description,status,assignee,duedate"

  /** `list_issues`: one GET of the board's issues, then the listing. */
  function ListIssuesRun(remote: Remote, history: seq<Request>, boardId: string, status: Option<Status>): (r: Run<seq<Issue>>)
    ensures r.requests == [Get(BoardIssuesPath(boardId), map["fields" := JStr(ListedFields)])]
  {
    var req := Get(BoardIssuesPath(boardId), map["fields" := JStr(ListedFields)]);
    match JsonResult(BoardIssuesPath(boardId), remote(history, req))
    case Err(e) => Run(Err(e), [req])
    case Ok(data) => Run(BoardListing(data, status), [req])
  }

  /** Every listed issue with a status filter has that status, and no matching built issue is missing. */
  lemma ListedIssuesMatch(data: Json, status: Status)
    requires BoardListing(data, Some(status)).Ok?
    ensures forall x :: x in BoardListing(data, Some(status)).value ==> x.Status() == status
    ensures data.JObj? && GetOr(data.fields, "issues", JArr([])).JArr? ==>
      var built := BuildObjects(GetOr(data.fields, "issues", JArr([])).items).value;
      forall x :: x in built && x.Status() == status ==> x in BoardListing(data, Some(status)).value
  {
    if data.JObj? && GetOr(data.fields, "issues", JArr([])).JArr? {
      FilterStatusMembers(BuildObjects(GetOr(data.fields, "issues", JArr([])).items).value, status);
    }
  }

  /** The message of the `NotImplementedError` raised by `delete_issue`. */
  const DeleteNotImplemented := "delete_issue is not yet implemented"

  /** A board bound to a client. Its fields are set once, at construction. */
  class JiraBoard {
    const boardId: string
    const name: string
    const client: JiraClient
    const columns: seq<BoardColumn>

    /** The dataclass constructor; `columns` defaults to a fresh copy of the default columns. */
    constructor(boardId: string, name: string, client: JiraClient, columns: seq<BoardColumn> := DefaultColumns)
      ensures this.boardId == boardId && this.name == name && this.client == client
      ensures this.columns == columns
    {
      this.boardId := boardId;
      this.name := name;
      this.client := client;
      this.columns := columns;
    }

    /** `columns`: a new list holding the board's columns, so changing it leaves the board alone. */
    method Columns() returns (cols: array<BoardColumn>)
      ensures fresh(cols)
      ensures cols[..] == columns
    {
      cols := new BoardColumn[|columns|](i requires 0 <= i < |columns| => columns[i]);
    }

    /** `list_issues`: the client's GET, then the listing filtered on this side. */
    method ListIssues(status: Option<Status>) returns (r: Result<seq<Issue>, Error>)
      modifies client
      ensures r == ListIssuesRun(client.remote, old(client.trace), boardId, status).outcome
      ensures client.trace == old(client.trace) + ListIssuesRun(client.remote, old(client.trace), boardId, status).requests
    {
      var data := client.Get(BoardIssuesPath(boardId), map["fields" := JStr(ListedFields)]);
      if data.Err? {
        return Err(data.error);
      }
      r := BoardListing(data.value, status);
    }

    /** `get_issue`, handed to the client. */
    method GetIssue(issueId: string) returns (r: Result<Issue, Error>)
      modifies client
      ensures r == GetIssueRun(client.remote, old(client.trace), issueId).outcome
      ensures client.trace == old(client.trace) + GetIssueRun(client.remote, old(client.trace), issueId).requests
    {
      r := client.GetIssue(issueId);
    }

    /** `create_issue`, handed to the client with an empty description and TODO by default. */
    method CreateIssue(title: string, description: string := "", status: Status := Todo) returns (r: Result<Issue, Error>)
      modifies client
      ensures var run := CreateRun(client.remote, old(client.trace), Some(title), Some(description), Some(status), None, None);
        r == run.outcome && client.trace == old(client.trace) + run.requests
    {
      r := client.CreateIssue(Some(title), Some(description), Some(status), None, None);
    }

    /** `update_issue`, handed to the client. */
    method UpdateIssue(issueId: string, update: IssueUpdate) returns (r: Result<Issue, Error>)
      modifies client
      ensures r == UpdateRun(client.remote, old(client.trace), issueId, update).outcome
      ensures client.trace == old(client.trace) + UpdateRun(client.remote, old(client.trace), issueId, update).requests
    {
      r := client.UpdateIssue(issueId, update);
    }

    /** `delete_issue`: always `NotImplementedError`, without touching the client. */
    method DeleteIssue(issueId: string) returns (r: Result<(), Error>)
      ensures r == Err(NotImplemented(DeleteNotImplemented))
    {
      r := Err(NotImplemented(DeleteNotImplemented));
    }
  }
}
