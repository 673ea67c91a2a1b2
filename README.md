# Jira adapter of the work-management client, in Dafny

This project models the Jira implementation of the tracker-agnostic
work-management client. The model covers:

- `JiraClient`, with its query builder, paging search loop, status transitions,
  create/update/delete orchestration and HTTP status handling;
- the `JiraIssue` adapter, which reads Atlassian Document Format (ADF) text
  and normalises statuses;
- the `JiraBoard` view;
- the `Status` enumeration and `IssueUpdate` value of the tracker-agnostic
  interface.

The remote Jira instance is abstracted as an oracle. A `Remote` is a function
from the requests sent so far and the next request to a response (a status
code and a decoded JSON body). Every client operation has a pure
specification function that gives:

- the outcome it reaches: a value, or an `Error` naming the Python exception;
- the requests it sends, in order.

The class `Client.JiraClient` holds the remote and the trace of requests
sent. Its methods follow the Python code step by step. Each method is proved
to return that outcome and to extend the trace by exactly those requests.
The lemmas about the specification functions state the properties:

- no JQL injection (the built query parses back to exactly the filter clauses);
- search bounds and stop rules;
- which transition is chosen;
- the order of PUT/POST, transition and read-back;
- the ADF round trip;
- the fallbacks of the issue properties;
- the board's filtering.

Modules, one per file:

- `Wrappers`, `Json`, `Errors`, `Strings`: shared values. These are
  `Option`/`Result`, decoded JSON with Python truthiness, the raised errors
  by kind, and ASCII `lower()` and `join`.
- `Http`: `_raise_for_status`, `_get`/`_post`, `_put` and `_delete` on a
  response.
- `WorkIssue`: `Status`, `IssueUpdate` and `set_fields`.
- `JiraIssue`: `_JIRA_STATUS_MAP`, `_normalize_status`, `_extract_adf_text`,
  the `JiraIssue` properties, and `_build_issue` with the `get_issue` factory.
- `Adf`: `_text_to_adf`.
- `Jql`: `sanitize_input`, the clause list and the query string, with a
  reference parser.
- `Transitions`: `_STATUS_TO_JIRA_TRANSITION` and `_apply_status_transition`.
- `Search`: the paging loop of `get_issues`.
- `Orchestration`: `get_issue`, `update_issue`, `create_issue` and
  `delete_issue` as specification functions.
- `Client`: the `JiraClient` class.
- `Board`: `JiraBoard`.
- `Config`: the missing-variable check of `get_client`.

Where the docstrings and the code disagree, the model follows the code:

- `delete_issue` discards the `False` that `_delete` returns on 404, so a
  missing issue is not reported.
- `_extract_adf_text` joins the texts of all non-empty siblings with a
  newline, inline text nodes included.
- `_post` decodes the response body even on 204.
- The board's listing GET goes through the client's `_get`, whose prefix is
  the platform API's (`/rest/api/3`), not the agile API of the docstring.

`JiraBoard.list_issues` calls `build_issue` on the client, which defines
only `_build_issue` (see "## Findings"). The board's listing is modelled both
as written and as evidently intended, and the board uses the intended one.

## Model

| member | source | states |
|---|---|---|
| `Http.StatusClasses` | components/jira_client_impl/src/jira_client_impl/jira_impl.py:144-153 | 404 gives not-found, checked before the generic failure. Any other code from 400 to 599 (where `requests` reports the response as not ok) gives an API error with that code. Below 400 and from 600 on nothing is raised. The three classes cover every code and exclude one another. |
| `Http.DeleteClassifies` | components/jira_client_impl/src/jira_client_impl/jira_impl.py:137-142 | `_delete` answers `false` exactly on 404 and never raises for it. It fails exactly where the status check fails on another code, and answers `true` otherwise. |
| `Http.PutNoContent` | components/jira_client_impl/src/jira_client_impl/jira_impl.py:119-135 | A 204 answer to a PUT gives `{}` whatever its body. A body-less 204 fails the decoding that `_get`/`_post` perform. Any other code is handled by `_put` exactly as by `_post`. |
| `WorkIssue.Value` | components/work_mgmt_client_interface/src/work_mgmt_client_interface/issue.py:8-12 | Each status has one of the four string values `todo`, `in_progress`, `complete`, `cancelled`. |
| `WorkIssue.ValueInjective` | components/work_mgmt_client_interface/src/work_mgmt_client_interface/issue.py:8-12 | Distinct statuses have distinct values. |
| `WorkIssue.SetFields` | components/work_mgmt_client_interface/src/work_mgmt_client_interface/issue.py:22-31 | The result's keys are dataclass field names. A field is a key exactly when its value is not None (an empty string counts as set), and it maps to that value. |
| `WorkIssue.SetFieldsEmptyIffDefault` | components/work_mgmt_client_interface/src/work_mgmt_client_interface/issue.py:22-31 | Nothing is reported as set exactly for the default `IssueUpdate()`. |
| `JiraIssue.NormalizeCaseInsensitive` | components/jira_client_impl/src/jira_client_impl/jira_issue.py:34-37 | Normalisation gives the same status for a name and its lower-cased form. |
| `JiraIssue.NormalizePreimage` | components/jira_client_impl/src/jira_client_impl/jira_issue.py:10-37 | A missing name gives TODO. Each other status comes from exactly its listed synonyms, in any case. Everything else, empty and unknown names included, gives TODO, so normalisation never fails. |
| `JiraIssue.NonEmpty` | components/jira_client_impl/src/jira_client_impl/jira_issue.py:119 | Every non-empty part survives `filter(None, parts)`, and nothing else does. |
| `JiraIssue.NonEmptyAppend` | components/jira_client_impl/src/jira_client_impl/jira_issue.py:119 | A single part is kept exactly when it is non-empty, and filtering distributes over concatenation, so the kept parts keep their order and their repeats. |
| `JiraIssue.WellFormedAdfReads` | components/jira_client_impl/src/jira_client_impl/jira_issue.py:112-119 | Reading an ADF tree whose text values are strings and whose child lists are arrays never fails. |
| `JiraIssue.DescriptionSources` | components/jira_client_impl/src/jira_client_impl/jira_issue.py:72-83 | A missing or null description reads as `""`. A plain string is returned unchanged. An object is read through the ADF reader, without failing when it is well formed. |
| `JiraIssue.EmptyIssueDefaults` | components/jira_client_impl/src/jira_client_impl/jira_issue.py:61-105 | An issue over an empty `fields` object keeps its key as id and has title `""`, description `""`, status TODO, no assignee and no due date. |
| `JiraIssue.StatusFallsBackToTodo` | components/jira_client_impl/src/jira_client_impl/jira_issue.py:85-91 | A missing or non-object `status`, or one without a name, reads as TODO. |
| `JiraIssue.AssigneePreference` | components/jira_client_impl/src/jira_client_impl/jira_issue.py:93-100 | The assignee is the non-empty e-mail address if there is one, else the non-empty display name. It is never `""`, and absent unless the raw assignee is an object. |
| `JiraIssue.DueDateEmptyIsAbsent` | components/jira_client_impl/src/jira_client_impl/jira_issue.py:102-105 | A due date is reported exactly when `duedate` is a non-empty string, so an empty one reads as absent. |
| `JiraIssue.TwoTextNodesJoinWithNewline` | components/jira_client_impl/src/jira_client_impl/jira_issue.py:112-119 | A document whose paragraph holds the text nodes "Hello " and "World" reads as "Hello \nWorld". |
| `JiraIssue.ParagraphOfTwo` | components/jira_client_impl/src/jira_client_impl/jira_issue.py:116-119 | A node with two children whose texts are non-empty reads as the two texts joined by one newline. |
| `JiraIssue.BuildIssue` | components/jira_client_impl/src/jira_client_impl/jira_impl.py:155-156 | The issue's id is the record's `key` and its raw data is `fields`, an empty object when absent. A missing key is a `KeyError`, and the only other failure is a type error. In the model a record builds exactly when it is an object with a string `key` and an object `fields` (stricter than the source, see "## Left out"). |
| `Adf.TextToAdf` | components/jira_client_impl/src/jira_client_impl/jira_impl.py:360-376 | A non-string input fails with "Input must be a string". A string, empty or multi-line, gives a well-formed document with exactly the keys `type` (`"doc"`), `version` (1) and `content`, whose one paragraph holds one text node. Reading it back gives the string unchanged. |
| `Adf.AdfReadsBack` | components/jira_client_impl/src/jira_client_impl/jira_issue.py:112-119 | The paragraph and the document built from a text read back as that text, for every text. |
| `Adf.DescriptionRoundTrip` | components/jira_client_impl/src/jira_client_impl/jira_issue.py:72-83 | An issue whose description is the ADF document built from a text reports that text as its description. |
| `Jql.SanitizeLength` | components/jira_client_impl/src/jira_client_impl/jira_impl.py:44-89 | The sanitised string is longer than the input by exactly the number of special characters. |
| `Jql.SanitizeIdentity` | components/jira_client_impl/src/jira_client_impl/jira_impl.py:44-89 | Sanitising leaves a string unchanged exactly when it has no special character. |
| `Jql.UnescapeSanitize` | components/jira_client_impl/src/jira_client_impl/jira_impl.py:44-89 | Removing each inserted backslash recovers the input. |
| `Jql.SanitizeQuoteExample` | components/jira_client_impl/src/jira_client_impl/jira_impl.py:88-89 | A double quote between letters gets exactly one backslash. |
| `Jql.StatusLiteralRoundTrip` | components/jira_client_impl/src/jira_client_impl/jira_impl.py:37-42 | Each status's fixed JQL literal reads back as that status, so the four literals are distinguishable. |
| `Jql.ClauseList` | components/jira_client_impl/src/jira_client_impl/jira_impl.py:182-203 | There is at least one clause. The list is the lone bounding clause exactly when no filter is truthy, and the bounding clause never appears beside a filter clause. Clauses appear in the order title, description, status, due date, assignee. A filter clause is present exactly when its filter calls for it. |
| `Jql.ClauseListMembers` | components/jira_client_impl/src/jira_client_impl/jira_impl.py:183-198 | Each free-text value appears in its clause exactly when that filter is truthy. The status clause appears exactly when a status is given. |
| `Jql.ClauseRoundTrip` | components/jira_client_impl/src/jira_client_impl/jira_impl.py:183-198 | Every rendered clause, sanitised and single-quoted where it carries free text, reads back as itself whatever follows it. |
| `Jql.JqlRoundTrip` | components/jira_client_impl/src/jira_client_impl/jira_impl.py:182-204 | No injection: the query parses back to exactly the clauses the filters call for, with each value intact. The query ends with ` ORDER BY updated DESC`. |
| `Jql.NoFilterQuery` | components/jira_client_impl/src/jira_client_impl/jira_impl.py:202-204 | With no truthy filter the query is `project IS NOT EMPTY ORDER BY updated DESC`. |
| `Transitions.CandidatesLower` | components/jira_client_impl/src/jira_client_impl/jira_impl.py:48-79 | The candidate names are already lower case, so `candidate.lower()` leaves them unchanged. |
| `Transitions.TransitionList` | components/jira_client_impl/src/jira_client_impl/jira_impl.py:335 | A missing `transitions` list is empty and a list gives its items. A non-object listing fails. |
| `Transitions.Named` | components/jira_client_impl/src/jira_client_impl/jira_impl.py:338 | Each transition is paired with its lower-cased name, in order. Pairing fails exactly when some entry is not an object or has a non-string name. |
| `Transitions.ByName` | components/jira_client_impl/src/jira_client_impl/jira_impl.py:338 | The index has exactly the listed names as keys. A name's entry is its last transition in the listing. |
| `Transitions.DedupSpec` | components/jira_client_impl/src/jira_client_impl/jira_impl.py:348-351 | The names reported in the error are exactly the available names, each once. |
| `Transitions.FirstMatch` | components/jira_client_impl/src/jira_client_impl/jira_impl.py:341-345 | The chosen candidate is available and no earlier candidate is. Nothing is chosen exactly when no candidate is available. |
| `Transitions.PostTransitionRun` | components/jira_client_impl/src/jira_client_impl/jira_impl.py:353 | One POST to the issue's transitions carrying the chosen id. |
| `Transitions.TransitionRun` | components/jira_client_impl/src/jira_client_impl/jira_impl.py:324-353 | The listing GET comes first and at most one POST follows it, to the same resource. Success needs that POST. |
| `Transitions.TransitionRequests` | components/jira_client_impl/src/jira_client_impl/jira_impl.py:334-353 | The POST is sent exactly when the listing is read and resolved, and it carries the resolved id. Otherwise nothing is posted. |
| `Transitions.ResolvePicksFirstCandidate` | components/jira_client_impl/src/jira_client_impl/jira_impl.py:338-353 | The id posted is the one named by the earliest available candidate. Among transitions sharing that lower-cased name, the last listed wins. A chosen transition without an id is a `KeyError`. |
| `Transitions.ResolveNoMatch` | components/jira_client_impl/src/jira_client_impl/jira_impl.py:341-351 | When no candidate is available the result is the no-transition error for that issue and target. It lists the available names once each, in the order first listed, and every available name is among them. |
| `Transitions.StartProgressExample` | components/jira_client_impl/src/jira_client_impl/jira_impl.py:338-353 | With "Start Progress" (11) and "Done" (21) available, IN_PROGRESS resolves to id 11. |
| `Transitions.NoCompleteExample` | components/jira_client_impl/src/jira_client_impl/jira_impl.py:347-351 | With only "Start Progress" and "To Do" available, COMPLETE fails with the no-transition error naming both. |
| `Orchestration.GetIssueRun` | components/jira_client_impl/src/jira_client_impl/jira_impl.py:162-166 | `get_issue` sends exactly one GET of the issue. |
| `Orchestration.GetIssueOutcome` | components/jira_client_impl/src/jira_client_impl/jira_impl.py:144-166 | A 404 answer gives the not-found error for the issue's path. Any other failing code gives the API error with that code. A successful answer gives the issue built from its body, or the decoding error when it has none. |
| `Orchestration.Then` | components/jira_client_impl/src/jira_client_impl/jira_impl.py:300-307 | A later step runs, and sends its requests, only when the earlier one succeeded. |
| `Orchestration.UpdatePayload` | components/jira_client_impl/src/jira_client_impl/jira_impl.py:287-297 | The PUT fields hold exactly the set non-status fields under their Jira names. Title becomes `summary`, description an ADF document that reads back as the text, assignee `{"emailAddress": v}`, due date `duedate`. The payload is empty exactly when none of them is set. |
| `Orchestration.WriteRun` | components/jira_client_impl/src/jira_client_impl/jira_impl.py:300-301 | An empty payload sends nothing and succeeds. Otherwise there is one PUT of `{"fields": ...}` to the issue. |
| `Orchestration.StatusRun` | components/jira_client_impl/src/jira_client_impl/jira_impl.py:304-305 | No status means no request. A status means the transitions GET and, on success, its POST. |
| `Orchestration.StatusRequestsOnTransitions` | components/jira_client_impl/src/jira_client_impl/jira_impl.py:334-353 | Every request of the transition step is a GET or POST of the issue's transitions. |
| `Orchestration.UpdateWritesFirst` | components/jira_client_impl/src/jira_client_impl/jira_impl.py:287-307 | A PUT is sent only as the first request, and only when the payload is non-empty. Without a status no POST is sent. |
| `Orchestration.UpdateEndsWithRead` | components/jira_client_impl/src/jira_client_impl/jira_impl.py:300-307 | A successful update sends the PUT if any, two transition requests if a status is set, and ends with one GET of the issue. |
| `Orchestration.DefaultUpdateOnlyReads` | components/jira_client_impl/src/jira_client_impl/jira_impl.py:287-307 | `IssueUpdate()` sends nothing but the read-back GET. |
| `Orchestration.CreatePayload` | components/jira_client_impl/src/jira_client_impl/jira_impl.py:247-257 | The POST fields always hold `summary` (null when omitted) and `issuetype {"name": "Issue"}`. Description (as `_text_to_adf` of the text, which reads back as the text), assignee and due date are present exactly when truthy, and no other key is. |
| `Orchestration.CreateTail` | components/jira_client_impl/src/jira_client_impl/jira_impl.py:264-267 | After the POST come only the transition (when a status is given) and the read-back of the new key. None of them targets `/issue`. |
| `Orchestration.CreateOrder` | components/jira_client_impl/src/jira_client_impl/jira_impl.py:247-267 | The POST of the fields is first and the only request to `/issue`. Without a status only GETs follow. A successful creation sends 2 or 4 requests, the transitions GET second when a status is given, and ends with one GET of the returned key. |
| `Orchestration.DeleteMissingIsSilent` | components/jira_client_impl/src/jira_client_impl/jira_impl.py:309-317 | Deleting a missing issue (404) completes without error after one DELETE. |
| `Orchestration.DeleteFailsOnError` | components/jira_client_impl/src/jira_client_impl/jira_impl.py:137-142 | `delete_issue` fails exactly when the answer is a failure other than 404 (a code from 400 to 599). |
| `Search.PageSize` | components/jira_client_impl/src/jira_client_impl/jira_impl.py:207 | The page size is `max_results` capped at 100. |
| `Search.PageItems` | components/jira_client_impl/src/jira_client_impl/jira_impl.py:218-220 | A missing or falsy `issues` is an empty page. A non-empty page is the response's `issues` list. A non-object response fails. |
| `Search.PageTotal` | components/jira_client_impl/src/jira_client_impl/jira_impl.py:230 | A missing total counts as 0 and a numeric total is taken as is. |
| `Search.BuildPage` | components/jira_client_impl/src/jira_client_impl/jira_impl.py:223-227 | The inner loop hands out issues built in order from a prefix of the page, never beyond the quota. It finishes the page, or stops on the quota, or stops at the first record that cannot be built. |
| `Search.PageStep` | components/jira_client_impl/src/jira_client_impl/jira_impl.py:213-231 | A pass hands out, in order, issues built from a prefix of its page and stays within the quota. It goes on only after handing out a whole non-empty page, at the offset advanced by the page's length. |
| `Search.PageStepContinues` | components/jira_client_impl/src/jira_client_impl/jira_impl.py:218-231 | A pass goes on exactly when the page is a non-empty list, all its issues are handed out, and the new offset is still below the reported total. |
| `Search.SearchConcatenatesPages` | components/jira_client_impl/src/jira_client_impl/jira_impl.py:213-231 | The issues handed out are built in order from the concatenated items of the pages served. Without a failure they are exactly the first `max_results` of them, or all when there are fewer. |
| `Search.SearchBound` | components/jira_client_impl/src/jira_client_impl/jira_impl.py:213-227 | At most `max_results` issues come out, and none when it is not positive. |
| `Search.NoQuotaNoRequest` | components/jira_client_impl/src/jira_client_impl/jira_impl.py:213 | A non-positive `max_results` sends no request. |
| `Search.SearchRequestsAdvance` | components/jira_client_impl/src/jira_client_impl/jira_impl.py:213-231 | Every request has the same query and page size. The first starts at 0, and each starts where the previous non-empty page ended. There are at most `max_results` requests, and at most one more than the pages used up. |
| `Search.MissingTotalStops` | components/jira_client_impl/src/jira_client_impl/jira_impl.py:229-231 | A first page without `total` ends the search after that one request. |
| `Search.TwoPageExample` | components/jira_client_impl/src/jira_client_impl/jira_impl.py:213-231 | Pages of two and one issues with total 3 and `max_results=5` give the three issues from exactly two requests, at offsets 0 and 2. |
| `Client.JiraClient.constructor` | components/jira_client_impl/src/jira_client_impl/jira_impl.py:105-110 | A new client talks to the given remote and has sent nothing. |
| `Client.JiraClient.Get` | components/jira_client_impl/src/jira_client_impl/jira_impl.py:119-122 | One GET is appended to the trace, and its answer is status-checked and decoded. |
| `Client.JiraClient.Post` | components/jira_client_impl/src/jira_client_impl/jira_impl.py:124-127 | One POST is appended to the trace, and its answer is status-checked and decoded. |
| `Client.JiraClient.Put` | components/jira_client_impl/src/jira_client_impl/jira_impl.py:129-135 | One PUT is appended to the trace, and its answer is status-checked, with 204 giving `{}`. |
| `Client.JiraClient.Delete` | components/jira_client_impl/src/jira_client_impl/jira_impl.py:137-142 | One DELETE is appended to the trace, and its answer is classified as `_delete` does. |
| `Client.JiraClient.GetIssue` | components/jira_client_impl/src/jira_client_impl/jira_impl.py:162-166 | Reaches the `get_issue` outcome and sends its one request. |
| `Client.JiraClient.ResolveTransition` | components/jira_client_impl/src/jira_client_impl/jira_impl.py:335-353 | The lookup reaches the same id or error as the resolution that the transition properties above are proved of. |
| `Client.JiraClient.FirstAvailable` | components/jira_client_impl/src/jira_client_impl/jira_impl.py:341-345 | The `for`/`break` scan finds the transition of the first available candidate, or none. |
| `Client.JiraClient.PostTransition` | components/jira_client_impl/src/jira_client_impl/jira_impl.py:353 | Sends the transition POST and reports its failure. |
| `Client.JiraClient.ApplyStatusTransition` | components/jira_client_impl/src/jira_client_impl/jira_impl.py:324-353 | Reaches the transition outcome and sends its requests: the listing GET, then the POST only when resolution succeeds. |
| `Client.JiraClient.ConsumePage` | components/jira_client_impl/src/jira_client_impl/jira_impl.py:223-227 | The inner loop ends as the page specification says: finished, at the quota, or at a failed build. |
| `Client.JiraClient.StepItems` | components/jira_client_impl/src/jira_client_impl/jira_impl.py:223-231 | The inner loop and the total test over a non-empty page give the pass's end. |
| `Client.JiraClient.FetchPage` | components/jira_client_impl/src/jira_client_impl/jira_impl.py:214-231 | One pass sends one search request and ends as the pass specification says. The remaining search is the specification's from the new offset. A pass that goes on has handed out at least one issue. |
| `Client.JiraClient.Search` | components/jira_client_impl/src/jira_client_impl/jira_impl.py:206-231 | The paging loop hands out the issues, reports the failure that ended it, and sends the requests of the search specification. |
| `Client.JiraClient.GetIssues` | components/jira_client_impl/src/jira_client_impl/jira_impl.py:168-231 | `get_issues` is the search on the built query. |
| `Client.JiraClient.WriteFields` | components/jira_client_impl/src/jira_client_impl/jira_impl.py:300-301 | Sends the PUT only when the payload is non-empty. |
| `Client.JiraClient.MoveTo` | components/jira_client_impl/src/jira_client_impl/jira_impl.py:304-305 | Runs the transition only when a status is given. |
| `Client.JiraClient.UpdateIssue` | components/jira_client_impl/src/jira_client_impl/jira_impl.py:269-307 | Reaches the update outcome and sends its requests in order: PUT, transition, read-back. |
| `Client.JiraClient.CreateIssue` | components/jira_client_impl/src/jira_client_impl/jira_impl.py:233-267 | Reaches the create outcome and sends its requests in order: POST, transition on the new key, read-back. |
| `Client.JiraClient.DeleteIssue` | components/jira_client_impl/src/jira_client_impl/jira_impl.py:309-317 | Reaches the delete outcome with one DELETE, dropping `_delete`'s `False`. |
| `Board.DefaultColumnsOnePerStatus` | components/jira_client_impl/src/jira_client_impl/jira_board.py:21-28 | The default columns have exactly one column per status. |
| `Board.ObjectEntries` | components/jira_client_impl/src/jira_client_impl/jira_board.py:63-65 | Only object entries are kept. |
| `Board.ObjectEntriesMembers` | components/jira_client_impl/src/jira_client_impl/jira_board.py:63-65 | An entry is kept exactly when it is an object of the raw list. |
| `Board.BuildObjects` | components/jira_client_impl/src/jira_client_impl/jira_board.py:63-65 | The built issues come one by one, in order, from the object entries. Building succeeds exactly when every object entry builds. |
| `Board.FilterStatus` | components/jira_client_impl/src/jira_client_impl/jira_board.py:67-69 | Every issue kept has the wanted status. |
| `Board.FilterStatusMembers` | components/jira_client_impl/src/jira_client_impl/jira_board.py:67-69 | An issue is kept exactly when it is listed and has the wanted status. |
| `Board.FilterStatusAppend` | components/jira_client_impl/src/jira_client_impl/jira_board.py:67-69 | The filter keeps the original order: it distributes over concatenation. |
| `Board.FilterStatusKeepsMatching` | components/jira_client_impl/src/jira_client_impl/jira_board.py:67-69 | A listing whose issues all have the status is returned whole. |
| `Board.FilterStatusPartition` | components/jira_client_impl/src/jira_client_impl/jira_board.py:67-69 | The four status filters split a listing: their sizes add up to its size. |
| `Board.BoardListing` | components/jira_client_impl/src/jira_client_impl/jira_board.py:55-69 | The evidently intended listing. A non-object response or a non-list `issues` lists nothing. Otherwise the result is every built issue without a status, or the built issues filtered by the status. |
| `Board.BoardListingAsWritten` | components/jira_client_impl/src/jira_client_impl/jira_board.py:55-69 | The listing as written. It fails on the missing `build_issue` attribute exactly when the `issues` list holds an object entry, and lists nothing otherwise. |
| `Board.AsWrittenDiffers` | components/jira_client_impl/src/jira_client_impl/jira_board.py:63-65 | The listing as written equals the intended one exactly when the response holds no object entry. |
| `Board.AsWrittenFailsOnOneIssue` | components/jira_client_impl/src/jira_client_impl/jira_board.py:63-65 | A response holding one record `{"key": "TEST-1"}` lists that issue as intended, and fails with the missing attribute as written. |
| `Board.ListIssuesRun` | components/jira_client_impl/src/jira_client_impl/jira_board.py:51-54 | The listing sends exactly one GET, to `/board/{id}/issue` with the five listed fields. |
| `Board.ListedIssuesMatch` | components/jira_client_impl/src/jira_client_impl/jira_board.py:67-69 | With a status filter, every listed issue has that status and no built issue with it is missing. |
| `Board.JiraBoard.constructor` | components/jira_client_impl/src/jira_client_impl/jira_board.py:17-28 | A board keeps its id, name, client and the columns it is given, which default to the four default columns. |
| `Board.JiraBoard.Columns` | components/jira_client_impl/src/jira_client_impl/jira_board.py:40-42 | The columns come back in a new array, so changing it leaves the board unchanged. |
| `Board.JiraBoard.ListIssues` | components/jira_client_impl/src/jira_client_impl/jira_board.py:44-69 | Reaches the listing outcome and sends its one request through the client. |
| `Board.JiraBoard.GetIssue` | components/jira_client_impl/src/jira_client_impl/jira_board.py:71-73 | Exactly the client's `get_issue`. |
| `Board.JiraBoard.CreateIssue` | components/jira_client_impl/src/jira_client_impl/jira_board.py:75-87 | The client's `create_issue` with the given title, with description `""` and status TODO as defaults, and nothing else. |
| `Board.JiraBoard.UpdateIssue` | components/jira_client_impl/src/jira_client_impl/jira_board.py:89-91 | Exactly the client's `update_issue`. |
| `Board.JiraBoard.DeleteIssue` | components/jira_client_impl/src/jira_client_impl/jira_board.py:93-97 | Always the not-implemented error, and the client is not touched. |
| `Config.MissingVariables` | components/jira_client_impl/src/jira_client_impl/jira_impl.py:407-411 | At most the three variable names are reported. |
| `Config.MissingVariablesSpec` | components/jira_client_impl/src/jira_client_impl/jira_impl.py:407-416 | A variable is reported exactly when its value is empty. Nothing is reported, so a client is built, exactly when all three are set. |
| `Config.MissingVariablesOrdered` | components/jira_client_impl/src/jira_client_impl/jira_impl.py:407-411 | The reported names keep the order base URL, user e-mail, API token. |

## Findings

| source | as written | input that shows it | evidently intended | confidence | as-written member | corrected member |
|---|---|---|---|---|---|---|
| components/jira_client_impl/src/jira_client_impl/jira_board.py:63-65 | `list_issues` calls `self._client.build_issue(i)`, but `JiraClient` defines only `_build_issue`, so any object entry raises `AttributeError` | a board response `{"issues": [{"key": "TEST-1"}]}` | build each object entry with the client's `_build_issue` | high (not executed) | `Board.BoardListingAsWritten`, `Board.AsWrittenFailsOnOneIssue` | `Board.BoardListing`, `Board.ListedIssuesMatch` |

## Left out

- HTTP transport: the session, basic auth, headers, URL assembly (`_url`, the `/rest/api/3` prefix, `base_url.rstrip("/")`) and JSON decoding. Requests carry paths relative to the API root. A response carries its status code and its decoded body, or none when the body is not JSON.
- `get_client`: reading the environment, the interactive `input`/`getpass` prompts and the construction of the client. Only the missing-variable check is modelled, over the three values as parameters.
- The `print` calls in `get_issues`.
- Exception messages: errors are modelled by kind with their key data (path, status code, target and available names), not as message text.
- The generator's laziness: `get_issues` is modelled with its output collected, and the error that ends an iteration is returned beside the issues already handed out.
- `lower()` maps only ASCII letters, so non-ASCII case folding is not modelled.
- JSON numbers are integers. Floating-point values (a fractional `total`, for one) are not modelled.
- Values of unexpected type in the issue properties are read as absent (`""` or None) rather than returned as is or raising. This covers a non-string `summary`, `duedate`, `emailAddress`, `displayName` or status name, and a truthy non-object `assignee`.
- `JiraIssue.ExtractAdfText`: a `text` node whose truthy text is not a string is a type error, and a falsy one reads as `""`. Python returns such a value as is at the top level and fails only when joining it.
- `_apply_status_transition` computes a `target_name` that it never uses; it is not modelled.
- The transitions GET passes no parameters; it is modelled with an empty parameter map.
- The stored `base_url` of `JiraIssue`, which no property reads.
- `JiraIssue.BuildIssue` and `Orchestration.CreatedKey`: a `key` that is not a string is a type error in the model. The source takes it as is: `_build_issue` uses it as the issue id, and `create_issue` formats it into the transition and issue paths. Modelling that would need Python's `str` of every JSON value.
- `JiraIssue.BuildIssue`: a `fields` value that is present but not an object is a type error at build time. The source builds the issue and fails only when a property reads it. So in the model `get_issue` fails, and the issue search and the board listing stop at such a record.
- `Board.JiraBoard.constructor`: the columns are a value. The dataclass keeps the caller's list itself, so a caller that later changes that list changes the board's columns. That aliasing is not modelled.
- The abstract `Issue` class, its `__repr__`, and the abstract `build_issue` of the interface, which only raises `NotImplementedError`.
