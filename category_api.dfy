/**
 * The category REST client: a client bound to `<base>/Category` with a
 * timeout, a request interceptor that adds the bearer token, a response
 * interceptor that rewrites connection-refused and CORS failures, an error
 * normaliser, and the five calls (list, get by name, create, update,
 * delete), each of which reports failures as a response with
 * `success = false` instead of throwing.
 */
module CategoryApi {
  import opened Wrappers
  import opened Strings

  /** The category record the server stores. */
  datatype Category = Category(
    categoryName: string,
    bColor: int,
    catStatus: Option<string>,
    ageVerification: bool,
    position: int,
    showPOS: string,
    ageVerification2: bool,
    isSync: bool)

  /** The server's envelope; a normalised failure carries no data (`null`). */
  datatype ApiResponse<T> = ApiResponse(success: bool, message: string, data: Option<T>)

  const ConnectionRefusedMessage := "Unable to connect to the server. Please check if the server is running."
  const CorsMessage := "CORS error: Please check if the backend server has CORS properly configured."
  const NoResponseMessage := "No response received from server"
  const GenericMessage := "An error occurred"

  /** `` `${VITE_API_BASE_URL}/Category` ``: an unset variable is rendered as the text "undefined". */
  function BaseUrl(envBase: Option<string>): (r: string)
    ensures |r| >= 9 && r[|r| - 9..] == "/Category"
    ensures envBase.Some? ==> r == envBase.value + "/Category"
  {
    (if envBase.Some? then envBase.value else "undefined") + "/Category"
  }

  /**
   * `Number(VITE_API_TIMEOUT) || 5000`. `parsed` is what `Number` makes of
   * the variable, `None` standing for NaN (unset or not a number): NaN and
   * zero are falsy and fall back to 5000 ms.
   */
  function ApiTimeout(parsed: Option<real>): (r: real)
    ensures r != 0.0
    ensures parsed.Some? && parsed.value != 0.0 ==> r == parsed.value
    ensures parsed.None? || parsed.value == 0.0 ==> r == 5000.0
  {
    if parsed.Some? && parsed.value != 0.0 then parsed.value else 5000.0
  }

  /** The request interceptor's effect on the headers: a non-empty stored token is sent as `Bearer <token>`. */
  function WithAuthorization(headers: map<string, string>, token: Option<string>): (r: map<string, string>)
    ensures token.Some? && token.value != "" ==> "Authorization" in r && r["Authorization"] == "Bearer " + token.value
    ensures token.None? || token.value == "" ==> r == headers
    ensures forall k :: k != "Authorization" ==> (k in r <==> k in headers) && (k in r ==> r[k] == headers[k])
  {
    if token.Some? && token.value != "" then headers["Authorization" := "Bearer " + token.value] else headers
  }

  /** Running the interceptor again with the same token changes nothing more. */
  lemma WithAuthorizationIdempotent(headers: map<string, string>, token: Option<string>)
    ensures WithAuthorization(WithAuthorization(headers, token), token) == WithAuthorization(headers, token)
  {
  }

  /** A request's configuration, whose headers the request interceptor updates in place. */
  class RequestConfig {
    var headers: map<string, string>

    /** The client's default headers. */
    constructor ()
      ensures headers == map["Content-Type" := "application/json"]
    {
      headers := map["Content-Type" := "application/json"];
    }

    /** `token` is what `localStorage.getItem("authToken")` returns. */
    method InterceptRequest(token: Option<string>)
      modifies this
      ensures headers == WithAuthorization(old(headers), token)
    {
      if token.Some? && token.value != "" {
        headers := headers["Authorization" := "Bearer " + token.value];
      }
    }
  }

  /** The part of a failed response's body the client reads: `data?.message`. */
  datatype ErrorBody = ErrorBody(message: Option<string>)

  /**
   * An error as the HTTP layer raises it: an error code, a message, the
   * server's response if one arrived (`None` also when it had no body) and
   * whether a request was sent.
   */
  datatype HttpError = HttpError(code: Option<string>, message: Option<string>, response: Option<Option<ErrorBody>>, requestSent: bool)

  /** What the response interceptor rejects with: the error itself, or a plain `{ success: false, message }`. */
  datatype Rejection = Passed(error: HttpError) | Replaced(message: string)

  predicate MentionsCors(message: Option<string>) {
    message.Some? && Contains(message.value, "CORS")
  }

  /** The response interceptor's error branch: connection refused first, then CORS, else unchanged. */
  function InterceptResponseError(e: HttpError): (r: Rejection)
    ensures e.code == Some("ECONNREFUSED") ==> r == Replaced(ConnectionRefusedMessage)
    ensures e.code != Some("ECONNREFUSED") && MentionsCors(e.message) ==> r == Replaced(CorsMessage)
    ensures e.code != Some("ECONNREFUSED") && !MentionsCors(e.message) ==> r == Passed(e)
  {
    if e.code == Some("ECONNREFUSED") then Replaced(ConnectionRefusedMessage)
    else if MentionsCors(e.message) then Replaced(CorsMessage)
    else Passed(e)
  }

  /**
   * `handleApiError`: a response's own message, else the CORS or
   * no-response message when only a request went out, else the error's
   * message; a replaced rejection has neither response nor request. Every
   * result reports failure, carries no data and has a non-empty message.
   */
  function HandleApiError<T>(rejection: Rejection): (r: ApiResponse<T>)
    ensures !r.success && r.data.None? && r.message != ""
    ensures rejection.Replaced? && rejection.message != "" ==> r.message == rejection.message
  {
    var message :=
      match rejection
      case Replaced(m) => OrElse(Some(m), GenericMessage)
      case Passed(e) =>
        if e.response.Some? then
          OrElse(if e.response.value.Some? then e.response.value.value.message else None, GenericMessage)
        else if e.requestSent then
          (if MentionsCors(e.message) then CorsMessage else NoResponseMessage)
        else OrElse(e.message, GenericMessage);
    ApiResponse(false, message, None)
  }

  /** The outcome of one round trip: the server's envelope, or an error. */
  datatype Outcome<T> = Delivered(body: ApiResponse<T>) | Failed(error: HttpError)

  /** `try { return (await call).data } catch (error) { return handleApiError(error) }`, behind the interceptor. */
  function Settle<T>(outcome: Outcome<T>): (r: ApiResponse<T>)
    ensures outcome.Delivered? ==> r == outcome.body
    ensures outcome.Failed? ==> !r.success && r.data.None? && r.message != ""
  {
    match outcome
    case Delivered(body) => body
    case Failed(e) => HandleApiError(InterceptResponseError(e))
  }

  /** A refused connection always reads as such, whatever else the error holds. */
  lemma ConnectionRefusedWins<T>(e: HttpError)
    requires e.code == Some("ECONNREFUSED")
    ensures Settle<T>(Failed(e)).message == ConnectionRefusedMessage
  {
  }

  /** A CORS failure reads as such even when the server's response arrived. */
  lemma CorsWinsOverResponse<T>(e: HttpError)
    requires e.code != Some("ECONNREFUSED") && MentionsCors(e.message)
    ensures Settle<T>(Failed(e)).message == CorsMessage
  {
  }

  /** Otherwise a server response's message is shown, or the generic text when it has none. */
  lemma ResponseMessageShown<T>(e: HttpError)
    requires e.code != Some("ECONNREFUSED") && !MentionsCors(e.message) && e.response.Some?
    ensures var m := if e.response.value.Some? then e.response.value.value.message else None;
      Settle<T>(Failed(e)).message == OrElse(m, GenericMessage)
  {
  }

  /**
   * Behind the interceptor, `handleApiError`'s own CORS branch is never
   * taken: every error whose message mentions CORS has been replaced by then.
   */
  lemma HandlerCorsBranchUnreachable(e: HttpError)
    ensures var r := InterceptResponseError(e);
      !(r.Passed? && r.error.response.None? && r.error.requestSent && MentionsCors(r.error.message))
  {
  }

  /** With no response, an error only reaches the user unchanged when no request went out. */
  lemma NoResponseCases<T>(e: HttpError)
    requires e.code != Some("ECONNREFUSED") && !MentionsCors(e.message) && e.response.None?
    ensures e.requestSent ==> Settle<T>(Failed(e)).message == NoResponseMessage
    ensures !e.requestSent ==> Settle<T>(Failed(e)).message == OrElse(e.message, GenericMessage)
  {
  }

  datatype HttpMethod = GET | POST | PUT | DELETE

  /** A request relative to the base URL; the category name goes into the path as it is, not encoded. */
  datatype HttpRequest = HttpRequest(verb: HttpMethod, path: string, body: Option<Category>)

  /** The request a call sends and the response it resolves to. */
  datatype Call<T> = Call(request: HttpRequest, response: ApiResponse<T>)

  /** `getCategories`: `GET /`. */
  function GetCategories(outcome: Outcome<seq<Category>>): (r: Call<seq<Category>>)
    ensures r.request == HttpRequest(GET, "/", None)
    ensures r.response == Settle(outcome)
  {
    Call(HttpRequest(GET, "/", None), Settle(outcome))
  }

  /** `getCategoryByName`: `GET /<name>`. */
  function GetCategoryByName(name: string, outcome: Outcome<Category>): (r: Call<Category>)
    ensures r.request == HttpRequest(GET, "/" + name, None)
    ensures r.response == Settle(outcome)
  {
    Call(HttpRequest(GET, "/" + name, None), Settle(outcome))
  }

  /** `createCategory`: `POST /` with the record as body. */
  function CreateCategory(category: Category, outcome: Outcome<string>): (r: Call<string>)
    ensures r.request == HttpRequest(POST, "/", Some(category))
    ensures r.response == Settle(outcome)
  {
    Call(HttpRequest(POST, "/", Some(category)), Settle(outcome))
  }

  /** `updateCategory`: `PUT /<name>` with the record as body. */
  function UpdateCategory(name: string, category: Category, outcome: Outcome<string>): (r: Call<string>)
    ensures r.request == HttpRequest(PUT, "/" + name, Some(category))
    ensures r.response == Settle(outcome)
  {
    Call(HttpRequest(PUT, "/" + name, Some(category)), Settle(outcome))
  }

  /** `deleteCategory`: `DELETE /<name>`. */
  function DeleteCategory(name: string, outcome: Outcome<string>): (r: Call<string>)
    ensures r.request == HttpRequest(DELETE, "/" + name, None)
    ensures r.response == Settle(outcome)
  {
    Call(HttpRequest(DELETE, "/" + name, None), Settle(outcome))
  }

  /** The name-addressed calls put the name, unencoded, after the leading slash: distinct names address distinct paths. */
  lemma NamedPathsDistinct(a: string, b: string, o: Outcome<Category>, o': Outcome<string>)
    ensures GetCategoryByName(a, o).request.path[1..] == a
    ensures DeleteCategory(a, o').request.path[1..] == a
    ensures a != b ==> GetCategoryByName(a, o).request.path != GetCategoryByName(b, o).request.path
  {
    assert ("/" + a)[1..] == a;
    assert ("/" + b)[1..] == b;
  }

  /** No call ever throws: a failure is a response with `success = false` and no data. */
  lemma CallsNeverThrow(name: string, c: Category, e: HttpError)
    ensures !GetCategories(Failed(e)).response.success && GetCategories(Failed(e)).response.data.None?
    ensures !GetCategoryByName(name, Failed(e)).response.success
    ensures !CreateCategory(c, Failed(e)).response.success
    ensures !UpdateCategory(name, c, Failed(e)).response.success
    ensures !DeleteCategory(name, Failed(e)).response.success
  {
  }
}
