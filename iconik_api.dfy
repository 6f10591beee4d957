/**
 * The iconik API facade (internal/api/iconik): seven calls, each one HTTP
 * request through a requester, a triage of the answer's status code, a
 * bounded retry of the same call for the statuses that may pass, and the
 * decoding of the body.
 *
 * The requester is an oracle: `requester(req, k)` is its answer to the
 * k-th sending of `req` within one call (0 for the first sending, 1, 2, ...
 * for the retries). What internal/api/request.go promises about its answers
 * is the predicate `FollowsRequestContract`, assumed where a lemma needs it.
 * Decoding a body into a DTO is a parameter `decode`.
 */
module IconikApi {
  import opened Wrappers
  import Text

  /** The requester's only error (internal/core/domain/errors.go). */
  const ErrInternalError: Error := "there was an internal error"
  /** The two header errors the facade tests for; the domain package shown defines neither, so their text is a stand-in. */
  const ErrTransformingHeaderValue: Error := "error transforming header value"
  const ErrTransformingHeaderKey: Error := "error transforming header key"

  const StatusOK := 200
  const StatusNoContent := 204
  const StatusTooManyRequests := 429
  const StatusInternalServerError := 500
  const StatusServiceUnavailable := 503
  const StatusGatewayTimeout := 504

  /** The query parameter carrying the page size of a search. */
  const PerPage := "per_page"

  datatype HttpMethod = Get | Post | Put | Patch | Delete

  datatype Request = Request(verb: HttpMethod, url: string, headers: map<string, string>,
                             query: map<string, string>, payload: string)

  /** What `Requester.Do` returns: the body, the status code when there is one, and the error. */
  datatype Response = Response(body: string, status: Option<int>, err: MaybeError)

  type Requester = (Request, nat) -> Response

  /**
   * The requester's contract: it answers either with a status and no error,
   * or with the internal error, no status and no body; a DELETE answered
   * 204 has no body.
   */
  predicate FollowsRequestContract(req: Request, resp: Response)
  {
    (resp.status.None? <==> resp.err.Some?) &&
    (resp.err.Some? ==> resp.err == Some(ErrInternalError) && resp.body == "") &&
    (req.verb == Delete && resp.status == Some(StatusNoContent) ==> resp.body == "")
  }

  /** The settings a facade call reads: base URL, headers, retry attempts, retry delay and page size. */
  datatype Config = Config(url: string, headers: map<string, string>, attempts: nat, delay: nat, perPage: int)

  /** The facade: its settings and its requester. */
  datatype Api = Api(cfg: Config, req: Requester)

  /** The status triage of a first answer, with the delay of the retry when there is one. */
  datatype Triage = HeaderFailure | NoStatus | Retry(delay: nat) | Unexpected | Success

  /** The statuses that may pass when the call is made again. */
  predicate Retryable(status: int)
  {
    status == StatusTooManyRequests || status == StatusInternalServerError ||
    status == StatusServiceUnavailable || status == StatusGatewayTimeout
  }

  /** The `switch` every facade call makes on its first answer; `opDelay` is the configured retry delay. */
  function Classify(resp: Response, opDelay: nat): Triage
  {
    if resp.err == Some(ErrTransformingHeaderValue) || resp.err == Some(ErrTransformingHeaderKey) then HeaderFailure
    else if resp.status.None? then NoStatus
    else if Retryable(resp.status.value) then
      Retry(if resp.status.value != StatusTooManyRequests then 0 else opDelay)
    else if resp.status.value != StatusOK then Unexpected
    else Success
  }

  /**
   * The triage in both directions: header errors come first, then a
   * missing status; only 429, 500, 503 and 504 are retried, with the
   * configured delay for 429 and none for the others; every other status
   * but 200 is unexpected.
   */
  lemma ClassifyCases(resp: Response, opDelay: nat)
    ensures var t := Classify(resp, opDelay);
      (t == HeaderFailure <==> resp.err == Some(ErrTransformingHeaderValue) || resp.err == Some(ErrTransformingHeaderKey)) &&
      (t == NoStatus <==> t != HeaderFailure && resp.status.None?) &&
      (t.Retry? <==> t != HeaderFailure && resp.status.Some? && Retryable(resp.status.value)) &&
      (t.Retry? ==> (t.delay == opDelay <==> resp.status.value == StatusTooManyRequests || opDelay == 0)) &&
      (t.Retry? && resp.status.value != StatusTooManyRequests ==> t.delay == 0) &&
      (t == Unexpected <==> t != HeaderFailure && resp.status.Some? && !Retryable(resp.status.value) &&
                            resp.status.value != StatusOK) &&
      (t == Success <==> t != HeaderFailure && resp.status == Some(StatusOK))
  {
  }

  /** An answer that keeps the requester's contract never carries a header error, and lacks a status exactly when it carries an error. */
  lemma ContractTriage(req: Request, resp: Response, opDelay: nat)
    requires FollowsRequestContract(req, resp)
    ensures Classify(resp, opDelay) != HeaderFailure
    ensures Classify(resp, opDelay) == NoStatus <==> resp.err.Some?
  {
  }

  /**
   * `retry.Do(f, Attempts(attempts))` after `k` calls of `f` that failed,
   * `current` being what the last one left behind: `f` sends `req` again
   * until it returns no error or `attempts` calls were made.
   */
  function Retried(requester: Requester, req: Request, attempts: nat, k: nat, current: Response): Response
    decreases attempts - k
  {
    if k >= attempts then current
    else
      var next := requester(req, k + 1);
      if next.err.None? then next else Retried(requester, req, attempts, k + 1, next)
  }

  /**
   * What the retries leave behind is the answer to the `n`-th sending: the
   * first one without error, or the last one allowed; when no retry is
   * allowed it is the answer the retries started from.
   */
  lemma {:induction false} RetriedFinds(requester: Requester, req: Request, attempts: nat, k: nat, current: Response)
    returns (n: nat)
    requires k <= attempts
    ensures k <= n <= attempts && (n == k <==> k == attempts)
    ensures Retried(requester, req, attempts, k, current) == if n == k then current else requester(req, n)
    ensures forall j :: k < j < n ==> requester(req, j).err.Some?
    ensures n < attempts ==> requester(req, n).err.None?
    decreases attempts - k
  {
    if k == attempts {
      n := k;
    } else {
      var next := requester(req, k + 1);
      if next.err.None? {
        n := k + 1;
      } else {
        n := RetriedFinds(requester, req, attempts, k + 1, next);
      }
    }
  }

  /** The retries end without error when any sending they are allowed answers without error. */
  lemma RetrySucceedsIfAnySendingDoes(requester: Requester, req: Request, attempts: nat, current: Response, j: nat)
    requires 0 < j <= attempts && requester(req, j).err.None?
    ensures Retried(requester, req, attempts, 0, current).err.None?
  {
    var n := RetriedFinds(requester, req, attempts, 0, current);
    assert !(0 < j < n);
  }

  /** The retry block: `f` resends `req` and overwrites the captured answer, up to `attempts` times, stopping at the first answer without error. */
  method RetryDo(requester: Requester, req: Request, attempts: nat, initial: Response) returns (resp: Response)
    ensures resp == Retried(requester, req, attempts, 0, initial)
  {
    resp := initial;
    var n := 0;
    while n < attempts
      invariant n <= attempts
      invariant Retried(requester, req, attempts, n, resp) == Retried(requester, req, attempts, 0, initial)
      decreases attempts - n
    {
      resp := requester(req, n + 1);
      n := n + 1;
      if resp.err.None? {
        return;
      }
    }
  }

  /** The end of every call: the captured error if there is one, else the decoded body or the decoding error. */
  function Decoded<T>(resp: Response, decode: string -> Result<T>): Reply<Option<T>, Error>
  {
    if resp.err.Some? then Reply(None, resp.err)
    else match decode(resp.body)
      case Ok(v) => Reply(Some(v), None)
      case Err(e) => Reply(None, Some(e))
  }

  /**
   * A facade call: `first` sent once and triaged; header errors, a missing
   * status and an unexpected status end the call with an empty DTO and the
   * request's error; a retryable status sends `again` up to the configured
   * number of times; then only the error is checked before decoding.
   */
  function CallOutcome<T>(requester: Requester, cfg: Config, first: Request, again: Request,
                          decode: string -> Result<T>): Reply<Option<T>, Error>
  {
    var r0 := requester(first, 0);
    match Classify(r0, cfg.delay)
    case HeaderFailure => Reply(None, r0.err)
    case NoStatus => Reply(None, r0.err)
    case Unexpected => Reply(None, r0.err)
    case Retry(_) => Decoded(Retried(requester, again, cfg.attempts, 0, r0), decode)
    case Success => Decoded(r0, decode)
  }

  /** The triage, retry and decoding shared by the seven facade calls. */
  method Call<T>(requester: Requester, cfg: Config, first: Request, again: Request, decode: string -> Result<T>)
    returns (dto: Option<T>, err: MaybeError)
    ensures Reply(dto, err) == CallOutcome(requester, cfg, first, again, decode)
  {
    var resp := requester(first, 0);
    match Classify(resp, cfg.delay) {
      case HeaderFailure =>
        return None, resp.err;
      case NoStatus =>
        return None, resp.err;
      case Unexpected =>
        return None, resp.err;
      case Retry(_) =>
        resp := RetryDo(requester, again, cfg.attempts, resp);
      case Success =>
    }
    if resp.err.Some? {
      return None, resp.err;
    }
    var res := decode(resp.body);
    if res.Err? {
      return None, Some(res.error);
    }
    return Some(res.value), None;
  }

  /**
   * A call returns a DTO exactly when its first answer had status 200, or a
   * retryable status and the retries ended without error, and the body
   * left behind decodes; the DTO is the decoded body. A header error, a
   * missing status or an unexpected status ends the call with the first
   * answer's error; past the triage, a call without a DTO reports an error.
   */
  lemma CallSucceeds<T>(requester: Requester, cfg: Config, first: Request, again: Request, decode: string -> Result<T>)
    ensures var r0 := requester(first, 0);
      var last := if Classify(r0, cfg.delay).Retry? then Retried(requester, again, cfg.attempts, 0, r0) else r0;
      var o := CallOutcome(requester, cfg, first, again, decode);
      (o.value.Some? <==>
         (Classify(r0, cfg.delay) == Success || Classify(r0, cfg.delay).Retry?) &&
         last.err.None? && decode(last.body).Ok?) &&
      (o.value.Some? ==> o.value.value == decode(last.body).value && o.err.None?) &&
      (Classify(r0, cfg.delay) in {HeaderFailure, NoStatus, Unexpected} ==> o == Reply(None, r0.err)) &&
      (o.value.None? && (Classify(r0, cfg.delay) == Success || Classify(r0, cfg.delay).Retry?) ==> o.err.Some?)
  {
  }

  /**
   * Under the requester's contract an unexpected first status (a 401, a
   * 404) ends the call with an empty DTO and no error: the caller cannot
   * tell it from an empty answer.
   */
  lemma UnexpectedStatusIsSilent<T>(requester: Requester, cfg: Config, first: Request, again: Request,
                                    decode: string -> Result<T>)
    requires FollowsRequestContract(first, requester(first, 0))
    requires Classify(requester(first, 0), cfg.delay) == Unexpected
    ensures CallOutcome(requester, cfg, first, again, decode) == Reply(None, None)
  {
  }

  /** A first answer 404 from a requester keeping its contract: the call reports neither a DTO nor an error. */
  lemma NotFoundIsSilent<T>(cfg: Config, first: Request, again: Request, decode: string -> Result<T>)
    ensures var requester := (req: Request, k: nat) => Response("", Some(404), None);
      FollowsRequestContract(first, requester(first, 0)) &&
      CallOutcome(requester, cfg, first, again, decode) == Reply(None, None)
  {
    var requester := (req: Request, k: nat) => Response("", Some(404), None);
    assert Classify(requester(first, 0), cfg.delay) == Unexpected;
  }

  /**
   * After a retry only the error is checked: when the first retry answers
   * without error, its body is decoded as a success whatever its status,
   * a 500 included.
   */
  lemma RetriedStatusIgnored<T>(requester: Requester, cfg: Config, first: Request, again: Request,
                                decode: string -> Result<T>)
    requires Classify(requester(first, 0), cfg.delay).Retry? && cfg.attempts >= 1
    requires requester(again, 1).err.None?
    ensures CallOutcome(requester, cfg, first, again, decode) == Decoded(requester(again, 1), decode)
  {
  }

  /**
   * The triage and retry with every status checked: an unexpected first
   * status is an error, and the answer the retries leave behind is decoded
   * only when its status is 200.
   */
  function CheckedOutcome<T>(requester: Requester, cfg: Config, first: Request, again: Request,
                             decode: string -> Result<T>): Reply<Option<T>, Error>
  {
    var r0 := requester(first, 0);
    match Classify(r0, cfg.delay)
    case HeaderFailure => Reply(None, r0.err)
    case NoStatus => Reply(None, r0.err)
    case Unexpected => Reply(None, Some("status code unexpected: " + Text.Itoa(r0.status.value)))
    case Retry(_) =>
      var last := Retried(requester, again, cfg.attempts, 0, r0);
      if last.err.None? && last.status != Some(StatusOK) then Reply(None, Some("status code unexpected after retry"))
      else Decoded(last, decode)
    case Success => Decoded(r0, decode)
  }

  /**
   * With every status checked, a DTO comes only from an answer with status
   * 200, and under the requester's contract a call without a DTO always
   * reports an error.
   */
  lemma CheckedOutcomeIsSound<T>(requester: Requester, cfg: Config, first: Request, again: Request,
                                 decode: string -> Result<T>)
    requires FollowsRequestContract(first, requester(first, 0))
    ensures var r0 := requester(first, 0);
      var last := if Classify(r0, cfg.delay).Retry? then Retried(requester, again, cfg.attempts, 0, r0) else r0;
      var o := CheckedOutcome(requester, cfg, first, again, decode);
      (o.value.Some? ==> last.status == Some(StatusOK) && o.value == Some(decode(last.body).value) && o.err.None?) &&
      (o.value.None? ==> o.err.Some?)
  {
  }

  /** The seven facade calls, with the arguments each takes. */
  datatype Operation =
    | GetCollectionContents(path: string, collectionID: string, queryParams: map<string, string>)
    | GetCollection(path: string, collectionID: string)
    | GetAsset(path: string, assetID: string)
    | PatchAsset(path: string, assetID: string, payload: string)
    | GetMetadataView(path: string, viewID: string)
    | UpdateMetadataInAsset(path: string, viewID: string, assetID: string, payload: string)
    | Search(path: string, payload: string)

  /** The request a call sends first. */
  function FirstRequest(cfg: Config, op: Operation): Request
  {
    match op
    case GetCollectionContents(path, id, query) =>
      Request(Get, cfg.url + path + id + "/contents/", cfg.headers, query, "")
    case GetCollection(path, id) => Request(Get, cfg.url + path + id + "/", cfg.headers, map[], "")
    case GetAsset(path, id) => Request(Get, cfg.url + path + "/" + id + "/", cfg.headers, map[], "")
    case PatchAsset(path, id, payload) => Request(Patch, cfg.url + path + "/" + id + "/", cfg.headers, map[], payload)
    case GetMetadataView(path, viewID) => Request(Get, cfg.url + path + "/" + viewID + "/", cfg.headers, map[], "")
    case UpdateMetadataInAsset(path, viewID, assetID, payload) =>
      Request(Put, cfg.url + path + "/" + assetID + "/views/" + viewID + "/", cfg.headers, map[], payload)
    case Search(path, payload) =>
      Request(Post, cfg.url + path, cfg.headers, map[PerPage := Text.Itoa(cfg.perPage)], payload)
  }

  /** The request a call's retries send: the first request again, except for `GetAsset`, whose retries leave out the asset ID. */
  function RetryRequest(cfg: Config, op: Operation): Request
  {
    match op
    case GetAsset(path, id) => Request(Get, cfg.url + path, cfg.headers, map[], "")
    case _ => FirstRequest(cfg, op)
  }

  /**
   * Every call but `GetAsset` resends exactly its first request; the
   * retries of `GetAsset` go to another URL, the one without the asset ID.
   */
  lemma RetryResendsFirstRequest(cfg: Config, op: Operation)
    ensures !op.GetAsset? ==> RetryRequest(cfg, op) == FirstRequest(cfg, op)
    ensures op.GetAsset? ==>
      RetryRequest(cfg, op) != FirstRequest(cfg, op) &&
      RetryRequest(cfg, op).url == cfg.url + op.path &&
      RetryRequest(cfg, op) == FirstRequest(cfg, op).(url := cfg.url + op.path)
  {
    if op.GetAsset? {
      assert |RetryRequest(cfg, op).url| < |FirstRequest(cfg, op).url|;
    }
  }

  /** The retry request as intended: the first request of every call, `GetAsset` included. */
  function IntendedRetryRequest(cfg: Config, op: Operation): (r: Request)
    ensures r.verb == FirstRequest(cfg, op).verb
  {
    match op
    case GetAsset(path, id) => Request(Get, cfg.url + path + "/" + id + "/", cfg.headers, map[], "")
    case _ => RetryRequest(cfg, op)
  }

  /** The intended retries resend the first request of every call, so a retried `GetAsset` still names its asset. */
  lemma IntendedRetryResendsFirstRequest(cfg: Config, op: Operation)
    ensures IntendedRetryRequest(cfg, op) == FirstRequest(cfg, op)
    ensures op.GetAsset? ==> IntendedRetryRequest(cfg, op).url == cfg.url + op.path + "/" + op.assetID + "/"
  {
  }

  /**
   * With the intended retries, a `GetAsset` answered 429 and then 200 at the
   * asset's own URL returns that asset's decoded body, whatever the bare
   * assets URL would answer.
   */
  lemma IntendedRetryFindsAsset<T>(a: Api, path: string, id: string, decode: string -> Result<T>)
    requires a.cfg.attempts >= 1
    requires var asset := Request(Get, a.cfg.url + path + "/" + id + "/", a.cfg.headers, map[], "");
      a.req(asset, 0) == Response("", Some(StatusTooManyRequests), None) &&
      a.req(asset, 1).status == Some(StatusOK) && a.req(asset, 1).err.None?
    ensures var asset := Request(Get, a.cfg.url + path + "/" + id + "/", a.cfg.headers, map[], "");
      CallOutcome(a.req, a.cfg, FirstRequest(a.cfg, GetAsset(path, id)), IntendedRetryRequest(a.cfg, GetAsset(path, id)), decode)
        == Decoded(a.req(asset, 1), decode)
  {
  }

  /** The call of an operation: its first request, its retry request and its decoding. */
  function Outcome<T>(a: Api, op: Operation, decode: string -> Result<T>): Reply<Option<T>, Error>
  {
    CallOutcome(a.req, a.cfg, FirstRequest(a.cfg, op), RetryRequest(a.cfg, op), decode)
  }

  /** `GetCollectionContents(path, collectionID, queryParams)`: GET of the contents URL of a collection, with the query. */
  method GetCollectionContentsCall<T>(a: Api, path: string, collectionID: string, queryParams: map<string, string>,
                                      decode: string -> Result<T>)
    returns (dto: Option<T>, err: MaybeError)
    ensures Reply(dto, err) == Outcome(a, GetCollectionContents(path, collectionID, queryParams), decode)
  {
    var url := a.cfg.url + path + collectionID + "/contents/";
    var req := Request(Get, url, a.cfg.headers, queryParams, "");
    dto, err := Call(a.req, a.cfg, req, req, decode);
  }

  /** `GetCollection(path, collectionID)`: GET of the collection URL, without query. */
  method GetCollectionCall<T>(a: Api, path: string, collectionID: string, decode: string -> Result<T>)
    returns (dto: Option<T>, err: MaybeError)
    ensures Reply(dto, err) == Outcome(a, GetCollection(path, collectionID), decode)
  {
    var req := Request(Get, a.cfg.url + path + collectionID + "/", a.cfg.headers, map[], "");
    dto, err := Call(a.req, a.cfg, req, req, decode);
  }

  /** `GetAsset(path, assetID)`: GET of the asset URL; the retries GET the URL without the asset ID. */
  method GetAssetCall<T>(a: Api, path: string, assetID: string, decode: string -> Result<T>)
    returns (dto: Option<T>, err: MaybeError)
    ensures Reply(dto, err) == Outcome(a, GetAsset(path, assetID), decode)
  {
    var first := Request(Get, a.cfg.url + path + "/" + assetID + "/", a.cfg.headers, map[], "");
    var again := Request(Get, a.cfg.url + path, a.cfg.headers, map[], "");
    dto, err := Call(a.req, a.cfg, first, again, decode);
  }

  /** `PatchAsset(path, assetID, payload)`: PATCH of the asset URL with the payload, on every sending. */
  method PatchAssetCall<T>(a: Api, path: string, assetID: string, payload: string, decode: string -> Result<T>)
    returns (dto: Option<T>, err: MaybeError)
    ensures Reply(dto, err) == Outcome(a, PatchAsset(path, assetID, payload), decode)
  {
    var req := Request(Patch, a.cfg.url + path + "/" + assetID + "/", a.cfg.headers, map[], payload);
    dto, err := Call(a.req, a.cfg, req, req, decode);
  }

  /** `GetMetadataView(path, viewID)`: GET of the view URL. */
  method GetMetadataViewCall<T>(a: Api, path: string, viewID: string, decode: string -> Result<T>)
    returns (dto: Option<T>, err: MaybeError)
    ensures Reply(dto, err) == Outcome(a, GetMetadataView(path, viewID), decode)
  {
    var req := Request(Get, a.cfg.url + path + "/" + viewID + "/", a.cfg.headers, map[], "");
    dto, err := Call(a.req, a.cfg, req, req, decode);
  }

  /** `UpdateMetadataInAsset(path, viewID, assetID, payload)`: PUT of the payload to the asset's view URL, on every sending. */
  method UpdateMetadataInAssetCall<T>(a: Api, path: string, viewID: string, assetID: string, payload: string,
                                      decode: string -> Result<T>)
    returns (dto: Option<T>, err: MaybeError)
    ensures Reply(dto, err) == Outcome(a, UpdateMetadataInAsset(path, viewID, assetID, payload), decode)
  {
    var req := Request(Put, a.cfg.url + path + "/" + assetID + "/views/" + viewID + "/", a.cfg.headers, map[], payload);
    dto, err := Call(a.req, a.cfg, req, req, decode);
  }

  /** `Search(path, payload)`: POST of the payload to the search URL, with the page size as `per_page`, on every sending. */
  method SearchCall<T>(a: Api, path: string, payload: string, decode: string -> Result<T>)
    returns (dto: Option<T>, err: MaybeError)
    ensures Reply(dto, err) == Outcome(a, Search(path, payload), decode)
  {
    var queryParams := map[PerPage := Text.Itoa(a.cfg.perPage)];
    var req := Request(Post, a.cfg.url + path, a.cfg.headers, queryParams, payload);
    dto, err := Call(a.req, a.cfg, req, req, decode);
  }

  /**
   * A 429 answered 200 by the first retry: one retry, with the configured
   * delay, and the call returns the retry's decoded body.
   */
  lemma TooManyRequestsThenOk<T>(a: Api, op: Operation, decode: string -> Result<T>)
    requires a.cfg.attempts >= 1
    requires a.req(FirstRequest(a.cfg, op), 0) == Response("", Some(StatusTooManyRequests), None)
    requires a.req(RetryRequest(a.cfg, op), 1).status == Some(StatusOK) && a.req(RetryRequest(a.cfg, op), 1).err.None?
    ensures Classify(a.req(FirstRequest(a.cfg, op), 0), a.cfg.delay) == Retry(a.cfg.delay)
    ensures Outcome(a, op, decode) == Decoded(a.req(RetryRequest(a.cfg, op), 1), decode)
  {
  }
}
