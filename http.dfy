/**
 * The client's HTTP helpers `_get`, `_post`, `_put`, `_delete` and
 * `_raise_for_status`, with the transport abstracted away: a request is a
 * value, the remote is a function from the requests sent so far and the
 * next request to its response, and every operation is specified by the
 * outcome it reaches and the requests it sends.
 */
module Http {
  import opened Wrappers
  import opened Json
  import opened Errors

  /** One request to the REST API; `path` is relative to the API root. */
  datatype Request =
    | Get(path: string, params: map<string, Json>)
    | Post(path: string, body: Json)
    | Put(path: string, body: Json)
    | Delete(path: string)

  /** A response: its status code and its body decoded as JSON, `None` when the body is not JSON. */
  datatype Response = Response(status: int, body: Option<Json>)

  /** The remote side: its answer to a request, given every request sent before it. */
  type Remote = (seq<Request>, Request) -> Response

  /** What an operation reaches and the requests it sends on the way, in order. */
  datatype Run<T> = Run(outcome: Result<T, Error>, requests: seq<Request>)

  /** Requests sent in two batches after `history` read as one batch. */
  lemma SentInTurn(history: seq<Request>, first: seq<Request>, second: seq<Request>)
    ensures history + (first + second) == (history + first) + second
  {
  }

  /**
   * `requests.Response.ok`: `raise_for_status` objects only to the client
   * errors 400-499 and the server errors 500-599, so any other code is ok.
   */
  predicate IsOk(status: int) {
    !(400 <= status < 600)
  }

  /** `_raise_for_status`: 404 is tested before the generic failure case. */
  function RaiseForStatus(path: string, resp: Response): Result<(), Error> {
    if resp.status == 404 then Err(NotFound(path))
    else if !IsOk(resp.status) then Err(ApiError(resp.status))
    else Ok(())
  }

  /** `response.json()`. */
  function ReadJson(resp: Response): Result<Json, Error> {
    if resp.body.Some? then Ok(resp.body.value) else Err(BadJson)
  }

  /** `_get` and `_post`: the status check, then the decoded body. */
  function JsonResult(path: string, resp: Response): Result<Json, Error> {
    match RaiseForStatus(path, resp)
    case Err(e) => Err(e)
    case Ok(_) => ReadJson(resp)
  }

  /** `_put`: like `_post`, except that 204 No Content gives an empty object. */
  function PutResult(path: string, resp: Response): Result<Json, Error> {
    match RaiseForStatus(path, resp)
    case Err(e) => Err(e)
    case Ok(_) => if resp.status == 204 then Ok(JObj(map[])) else ReadJson(resp)
  }

  /** `_delete`: 404 gives `false` without raising; otherwise the status check, then `true`. */
  function DeleteResult(path: string, resp: Response): Result<bool, Error> {
    if resp.status == 404 then Ok(false)
    else
      match RaiseForStatus(path, resp)
      case Err(e) => Err(e)
      case Ok(_) => Ok(true)
  }

  /**
   * The three classes of `_raise_for_status`: not found, any other failure,
   * success. They cover every status code and exclude one another.
   */
  lemma StatusClasses(path: string, resp: Response)
    ensures RaiseForStatus(path, resp) == Err(NotFound(path)) <==> resp.status == 404
    ensures (exists c :: RaiseForStatus(path, resp) == Err(ApiError(c)))
        <==> 400 <= resp.status < 600 && resp.status != 404
    ensures RaiseForStatus(path, resp).Ok? <==> resp.status < 400 || resp.status >= 600
    ensures RaiseForStatus(path, resp).Err? ==>
      RaiseForStatus(path, resp).error.NotFound? || RaiseForStatus(path, resp).error == ApiError(resp.status)
  {
    if 400 <= resp.status < 600 && resp.status != 404 {
      assert RaiseForStatus(path, resp) == Err(ApiError(resp.status));
    }
  }

  /**
   * `_delete` reports 404 as `false`, fails exactly where the status check
   * fails on any other code, and answers `true` otherwise.
   */
  lemma DeleteClassifies(path: string, resp: Response)
    ensures DeleteResult(path, resp) == Ok(false) <==> resp.status == 404
    ensures DeleteResult(path, resp) == Ok(true) <==> RaiseForStatus(path, resp).Ok?
    ensures DeleteResult(path, resp).Err? <==> resp.status != 404 && RaiseForStatus(path, resp).Err?
    ensures DeleteResult(path, resp).Err? ==> DeleteResult(path, resp).error == ApiError(resp.status)
  {
  }

  /**
   * A 204 answer to a PUT gives `{}` whatever its body; a 204 with an empty
   * body fails the `response.json()` that `_get` and `_post` perform. Any
   * other code is handled by `_put` as by `_post`.
   */
  lemma PutNoContent(path: string, resp: Response)
    ensures resp.status == 204 ==> PutResult(path, resp) == Ok(JObj(map[]))
    ensures resp.status == 204 && resp.body.None? ==> JsonResult(path, resp) == Err(BadJson)
    ensures resp.status != 204 ==> PutResult(path, resp) == JsonResult(path, resp)
  {
  }
}
