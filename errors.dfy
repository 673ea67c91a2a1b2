/** The errors the adapter raises, by kind; message texts are not modelled. */
module Errors {
  import opened Json
  import WorkIssue

  datatype Error =
    /** `IssueNotFoundError`: the remote answered 404 for `path`. */
    | NotFound(path: string)
    /** `JiraError("Jira API error ...")`: any other status code from 400 to 599. */
    | ApiError(status: int)
    /** `JiraError("No transition to ...")`: no candidate transition is available. */
    | NoTransition(issueId: string, target: WorkIssue.Status, available: seq<string>)
    /** `JiraError("Input must be a string")`. */
    | InvalidInput(message: string)
    /** The response body is not JSON (`response.json()` raises). */
    | BadJson
    /** A Python `TypeError` or `AttributeError` on a value of unexpected type. */
    | TypeMismatch
    /** A Python `KeyError` on a missing key. */
    | KeyMissing(key: string)
    /** A Python `AttributeError`: the object has no attribute `name`. */
    | MissingAttribute(name: string)
    /** `NotImplementedError`. */
    | NotImplemented(message: string)
}
