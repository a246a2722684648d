/** The EcoTrack HTTP client (`client/lib/api.ts`): request keys, header
    building, the error message of a failed response, the endpoints it calls,
    and the registry of in-flight mutating requests used for de-duplication.
    `fetch`, `localStorage` and promise sharing are outside the model: the
    stored token is a parameter, each request is identified by a ticket, and a
    request settling is a separate step. */
module Api {
  import opened Wrappers
  import opened Text

  const ApiBaseUrl: string := "/api"
  const DefaultMethod: string := "GET"
  const JsonContentType: string := "application/json"

  /** The part of `RequestInit` the client reads (`verb` is its `method`).
      `body` is the already
      serialised JSON text the endpoint wrappers pass; absent headers are the
      empty map. */
  datatype RequestOptions = RequestOptions(
    verb: Option<string>,
    body: Option<string>,
    headers: map<string, string>)

  /** `options.method || "GET"`. */
  function EffectiveMethod(options: RequestOptions): string {
    if Truthy(options.verb) then options.verb.value else DefaultMethod
  }

  /** `options.body ? JSON.stringify(options.body) : ""`. */
  function KeyBody(options: RequestOptions): string {
    if Truthy(options.body) then JsonQuote(options.body.value) else ""
  }

  /** `getRequestKey`: `${method}:${endpoint}:${body}`. The key opens with
      the method and the endpoint, and the body can be read back from the
      rest of it. */
  function RequestKey(endpoint: string, options: RequestOptions): (k: string)
    ensures StartsWith(k, EffectiveMethod(options) + ":" + endpoint + ":")
    ensures var n := |EffectiveMethod(options)| + |endpoint| + 2;
      Truthy(options.body) ==> JsonUnquote(k[n..]) == Some(options.body.value)
    ensures !Truthy(options.body) ==> |k| == |EffectiveMethod(options)| + |endpoint| + 2
  {
    var prefix := EffectiveMethod(options) + ":" + endpoint + ":";
    var k := prefix + KeyBody(options);
    assert k[..|prefix|] == prefix && k[|prefix|..] == KeyBody(options);
    if Truthy(options.body) then
      JsonQuoteRoundTrip(options.body.value);
      k
    else k
  }

  /** A request without a method gets the same key as an explicit GET. */
  lemma AbsentMethodKeysAsGet(endpoint: string, body: Option<string>, headers: map<string, string>)
    ensures RequestKey(endpoint, RequestOptions(None, body, headers))
         == RequestKey(endpoint, RequestOptions(Some(DefaultMethod), body, headers))
  {
  }

  /** For one method and endpoint, two requests share a key exactly when they
      carry the same body (an absent and an empty body count as the same). */
  lemma SameKeyIffSameBody(endpoint: string, a: RequestOptions, b: RequestOptions)
    requires EffectiveMethod(a) == EffectiveMethod(b)
    ensures RequestKey(endpoint, a) == RequestKey(endpoint, b)
        <==> (Truthy(a.body) == Truthy(b.body) && (Truthy(a.body) ==> a.body.value == b.body.value))
  {
    var prefix := EffectiveMethod(a) + ":" + endpoint + ":";
    assert RequestKey(endpoint, a) == prefix + KeyBody(a);
    assert RequestKey(endpoint, b) == prefix + KeyBody(b);
    if RequestKey(endpoint, a) == RequestKey(endpoint, b) {
      assert KeyBody(a) == (prefix + KeyBody(a))[|prefix|..];
      assert KeyBody(b) == (prefix + KeyBody(b))[|prefix|..];
      if Truthy(a.body) && Truthy(b.body) {
        JsonQuoteInjective(a.body.value, b.body.value);
      }
    }
  }

  /** A request takes part in de-duplication only when its method is set and
      is not GET (the condition of both the lookup and the registration). */
  predicate IsTracked(options: RequestOptions)
    ensures IsTracked(options) <==> EffectiveMethod(options) != DefaultMethod
  {
    Truthy(options.verb) && options.verb.value != DefaultMethod
  }

  /** The headers `request` sends: JSON content type, the bearer token when
      one is stored, then the caller's headers, which win on a clash. */
  function BuildHeaders(token: Option<string>, callerHeaders: map<string, string>): (h: map<string, string>)
    ensures h.Keys == callerHeaders.Keys + {"Content-Type"} + (if Truthy(token) then {"Authorization"} else {})
    ensures forall k :: k in callerHeaders ==> h[k] == callerHeaders[k]
    ensures "Content-Type" !in callerHeaders ==> h["Content-Type"] == JsonContentType
    ensures "Authorization" !in callerHeaders && Truthy(token) ==> h["Authorization"] == "Bearer " + token.value
  {
    var base := map["Content-Type" := JsonContentType];
    var withAuth := if Truthy(token) then base["Authorization" := "Bearer " + token.value] else base;
    withAuth + callerHeaders
  }

  /** What `fetch` is given: the caller's options with the built headers. */
  datatype RequestConfig = RequestConfig(url: string, verb: Option<string>, body: Option<string>, headers: map<string, string>)

  function BuildConfig(endpoint: string, options: RequestOptions, token: Option<string>): (c: RequestConfig)
    ensures c.url == ApiBaseUrl + endpoint
    ensures c.verb == options.verb && c.body == options.body
    ensures c.headers == BuildHeaders(token, options.headers)
  {
    RequestConfig(ApiBaseUrl + endpoint, options.verb, options.body, BuildHeaders(token, options.headers))
  }

  // ---------------------------------------------------------------------------
  // executeRequest

  /** The body of a response as `response.json()` sees it. */
  datatype Body<P> =
    | Unparsable(syntaxError: string)   // `response.json()` rejects
    | NullJson                          // the JSON text `null`
    | JsonValue(errorField: Option<string>, data: P)

  datatype Transport<P> =
    | NetworkFailure(message: string)   // `fetch` itself rejects
    | Received(status: nat, statusText: string, body: Body<P>)

  /** `response.ok`. */
  predicate IsOkStatus(status: nat) {
    200 <= status <= 299
  }

  function DefaultErrorMessage(status: nat): string {
    "HTTP error! status: " + NatToDecimal(status)
  }

  /** The message a failed response is rejected with: the body's truthy
      `error` field; otherwise, when reading `error` throws (no JSON, or JSON
      `null`), a non-empty status text; otherwise the default naming the
      status. */
  function ErrorMessage<P>(status: nat, statusText: string, body: Body<P>): (m: string)
    ensures body.JsonValue? && Truthy(body.errorField) ==> m == body.errorField.value
    ensures body.JsonValue? && !Truthy(body.errorField) ==> m == DefaultErrorMessage(status)
    ensures !body.JsonValue? && statusText != "" ==> m == statusText
    ensures !body.JsonValue? && statusText == "" ==> m == DefaultErrorMessage(status)
  {
    match body
    case JsonValue(errorField, _) =>
      if Truthy(errorField) then errorField.value else DefaultErrorMessage(status)
    case _ =>
      if statusText != "" then statusText else DefaultErrorMessage(status)
  }

  /** A rejection always carries a non-empty message, and one that falls back
      to the default names the status code (which is how a 401 is told apart). */
  lemma ErrorMessageShape<P>(status: nat, statusText: string, body: Body<P>)
    ensures ErrorMessage(status, statusText, body) != ""
    ensures ErrorMessage(status, statusText, body) == DefaultErrorMessage(status)
        ==> Includes(ErrorMessage(status, statusText, body), NatToDecimal(status))
  {
    var d := DefaultErrorMessage(status);
    var prefix := "HTTP error! status: ";
    assert d[|prefix|..|prefix| + |NatToDecimal(status)|] == NatToDecimal(status);
    assert OccursAt(d, NatToDecimal(status), |prefix|);
    IncludesIff(d, NatToDecimal(status));
  }

  /** `executeRequest`: the parsed body of an ok response (`None` for JSON
      `null`), or the rejection message. */
  function ExecuteRequest<P>(t: Transport<P>): (r: Outcome<Option<P>>)
    ensures t.NetworkFailure? ==> r == Err(t.message)
    ensures t.Received? && !IsOkStatus(t.status) ==> r == Err(ErrorMessage(t.status, t.statusText, t.body))
    ensures t.Received? && IsOkStatus(t.status) && t.body.JsonValue? ==> r == Ok(Some(t.body.data))
    ensures t.Received? && IsOkStatus(t.status) && t.body.Unparsable? ==> r == Err(t.body.syntaxError)
    ensures t.Received? && IsOkStatus(t.status) && t.body.NullJson? ==> r == Ok(None)
    ensures r.Ok? <==> t.Received? && IsOkStatus(t.status) && !t.body.Unparsable?
  {
    match t
    case NetworkFailure(message) => Err(message)
    case Received(status, statusText, body) =>
      if !IsOkStatus(status) then Err(ErrorMessage(status, statusText, body))
      else match body
        case Unparsable(e) => Err(e)
        case NullJson => Ok(None)
        case JsonValue(_, data) => Ok(Some(data))
  }

  // ---------------------------------------------------------------------------
  // The endpoints

  datatype FeedFilter = All | Verified | Recent {
    function Name(): string {
      match this
      case All => "all"
      case Verified => "verified"
      case Recent => "recent"
    }
  }

  const DefaultFeedPage: nat := 1
  const DefaultFeedLimit: nat := 10

  /** The query `getFeedActivities` sends; absent arguments take their
      defaults: page 1, limit 10, filter "all". */
  function FeedActivitiesEndpoint(page: Option<nat>, limit: Option<nat>, filter: Option<FeedFilter>): string {
    "/cleanup-activities?page=" + NatToDecimal(page.GetOr(DefaultFeedPage))
      + "&limit=" + NatToDecimal(limit.GetOr(DefaultFeedLimit))
      + "&filter=" + filter.GetOr(All).Name()
  }

  lemma FeedQueryDefaults()
    ensures FeedActivitiesEndpoint(None, None, None) == "/cleanup-activities?page=1&limit=10&filter=all"
    ensures FeedActivitiesEndpoint(None, None, None) == FeedActivitiesEndpoint(Some(1), Some(10), Some(All))
  {
    assert NatToDecimal(1) == "1";
    assert NatToDecimal(10) == NatToDecimal(1) + "0" == "10";
  }

  /** The calls the client offers; bodies are the JSON texts the wrappers
      serialise. */
  datatype ApiCall =
    | Register(userJson: string)
    | Login(credentialsJson: string)
    | GetProfile
    | UpdateProfile(profileJson: string)
    | GetAllReports
    | GetUserReports
    | CreateReport(reportJson: string)
    | UpdateReportStatus(reportId: string, status: string)
    | GetFeedActivities(page: Option<nat>, limit: Option<nat>, filter: Option<FeedFilter>)
    | CreateCleanupActivity(activityJson: string)
    | GetUserCleanupActivities
    | LikeActivity(activityId: string)
    | GetFeedStats
    | Ping

  /** The path of each call; every one is a path under the API base. */
  function Endpoint(call: ApiCall): (e: string)
    ensures |e| >= 1 && e[0] == '/'
  {
    match call
    case Register(_) => "/auth/register"
    case Login(_) => "/auth/login"
    case GetProfile => "/auth/profile"
    case UpdateProfile(_) => "/auth/profile"
    case GetAllReports => "/reports"
    case GetUserReports => "/reports/my"
    case CreateReport(_) => "/reports"
    case UpdateReportStatus(id, _) => "/reports/" + id + "/status"
    case GetFeedActivities(page, limit, filter) => FeedActivitiesEndpoint(page, limit, filter)
    case CreateCleanupActivity(_) => "/cleanup-activities"
    case GetUserCleanupActivities => "/cleanup-activities/my"
    case LikeActivity(id) => "/cleanup-activities/" + id + "/like"
    case GetFeedStats => "/feed/stats"
    case Ping => "/ping"
  }

  /** `JSON.stringify({ status })`. */
  function StatusBodyJson(status: string): string {
    "{\"status\":" + JsonQuote(status) + "}"
  }

  /** The options each call passes: no headers of its own, a body only on a
      tracked (writing) call, and a method only when it is POST or PUT. */
  function Options(call: ApiCall): (o: RequestOptions)
    ensures o.headers == map[]
    ensures o.body.Some? ==> IsTracked(o)
    ensures o.verb.Some? ==> o.verb.value == "POST" || o.verb.value == "PUT"
  {
    match call
    case Register(json) => RequestOptions(Some("POST"), Some(json), map[])
    case Login(json) => RequestOptions(Some("POST"), Some(json), map[])
    case UpdateProfile(json) => RequestOptions(Some("PUT"), Some(json), map[])
    case CreateReport(json) => RequestOptions(Some("POST"), Some(json), map[])
    case UpdateReportStatus(_, status) => RequestOptions(Some("PUT"), Some(StatusBodyJson(status)), map[])
    case CreateCleanupActivity(json) => RequestOptions(Some("POST"), Some(json), map[])
    case LikeActivity(_) => RequestOptions(Some("POST"), None, map[])
    case _ => RequestOptions(None, None, map[])
  }

  /** The calls that write are exactly the ones the registry tracks; every
      read is sent without a method and is never de-duplicated. */
  lemma TrackedIffWrite(call: ApiCall)
    ensures IsTracked(Options(call)) <==>
      (call.Register? || call.Login? || call.UpdateProfile? || call.CreateReport? ||
       call.UpdateReportStatus? || call.CreateCleanupActivity? || call.LikeActivity?)
  {
  }

  /** Two status updates of one report share a key exactly when they ask for
      the same status. */
  lemma StatusUpdatesShareKeyIffSameStatus(id: string, s1: string, s2: string)
    ensures RequestKey(Endpoint(UpdateReportStatus(id, s1)), Options(UpdateReportStatus(id, s1)))
         == RequestKey(Endpoint(UpdateReportStatus(id, s2)), Options(UpdateReportStatus(id, s2)))
        <==> s1 == s2
  {
    var a := Options(UpdateReportStatus(id, s1));
    var b := Options(UpdateReportStatus(id, s2));
    assert a.body == Some(StatusBodyJson(s1)) && b.body == Some(StatusBodyJson(s2));
    SameKeyIffSameBody(Endpoint(UpdateReportStatus(id, s1)), a, b);
    if StatusBodyJson(s1) == StatusBodyJson(s2) {
      StatusBodyInjective(s1, s2);
    }
  }

  /** Distinct statuses give distinct status bodies. */
  lemma StatusBodyInjective(s1: string, s2: string)
    requires StatusBodyJson(s1) == StatusBodyJson(s2)
    ensures s1 == s2
  {
    var pre := "{\"status\":";
    assert JsonQuote(s1) == StatusBodyJson(s1)[|pre|..|StatusBodyJson(s1)| - 1];
    assert JsonQuote(s2) == StatusBodyJson(s2)[|pre|..|StatusBodyJson(s2)| - 1];
    JsonQuoteInjective(s1, s2);
  }

  // ---------------------------------------------------------------------------
  // The in-flight registry

  /** What `request` does with a call: hand back the pending request already
      registered under the same key, or issue a new one. */
  datatype Dispatch =
    | Joined(ticket: nat)
    | Issued(ticket: nat, config: RequestConfig, registered: bool)

  /** The `ApiClient` object: `activeRequests` maps each key of a pending
      mutating request to the ticket of that request; tickets number the
      requests issued so far. */
  class ApiClient {
    var activeRequests: map<string, nat>
    var issued: nat

    ghost predicate Valid()
      reads this
    {
      forall k :: k in activeRequests ==> activeRequests[k] < issued
    }

    constructor ()
      ensures Valid()
      ensures activeRequests == map[] && issued == 0
    {
      activeRequests := map[];
      issued := 0;
    }

    /** `request(endpoint, options)` with `token` the stored session token. */
    method Request(endpoint: string, options: RequestOptions, token: Option<string>) returns (d: Dispatch)
      requires Valid()
      modifies this
      ensures Valid()
      ensures var key := RequestKey(endpoint, options);
        if IsTracked(options) && key in old(activeRequests) then
          d == Joined(old(activeRequests)[key]) && activeRequests == old(activeRequests) && issued == old(issued)
        else
          && d == Issued(old(issued), BuildConfig(endpoint, options, token), IsTracked(options))
          && issued == old(issued) + 1
          && activeRequests == (if IsTracked(options) then old(activeRequests)[key := old(issued)] else old(activeRequests))
    {
      var key := RequestKey(endpoint, options);
      if IsTracked(options) && key in activeRequests {
        d := Joined(activeRequests[key]);
        return;
      }
      var config := BuildConfig(endpoint, options, token);
      var ticket := issued;
      issued := issued + 1;
      if IsTracked(options) {
        activeRequests := activeRequests[key := ticket];
      }
      d := Issued(ticket, config, IsTracked(options));
    }

    /** The `finally` of a registered request: its key is removed whether the
        request succeeded or failed; no other key changes. */
    method Settle(key: string)
      requires Valid()
      modifies this
      ensures Valid()
      ensures activeRequests == old(activeRequests) - {key}
      ensures issued == old(issued)
    {
      activeRequests := activeRequests - {key};
    }
  }

  /** Two identical mutating calls while the first is pending reach the
      network once: the second joins the first's ticket. Two identical reads
      are both sent. */
  method DuplicateCallsScenario(call: ApiCall, token: Option<string>) returns (first: Dispatch, second: Dispatch)
    ensures first.Issued?
    ensures IsTracked(Options(call)) ==> second == Joined(first.ticket)
    ensures !IsTracked(Options(call)) ==> second.Issued? && second.ticket != first.ticket
  {
    var client := new ApiClient();
    first := client.Request(Endpoint(call), Options(call), token);
    second := client.Request(Endpoint(call), Options(call), token);
  }

  /** Once the pending request settles, the same mutating call is sent again. */
  method SettledCallIsResentScenario(call: ApiCall, token: Option<string>) returns (first: Dispatch, again: Dispatch)
    requires IsTracked(Options(call))
    ensures first.Issued? && again.Issued? && again.ticket != first.ticket
  {
    var client := new ApiClient();
    first := client.Request(Endpoint(call), Options(call), token);
    client.Settle(RequestKey(Endpoint(call), Options(call)));
    again := client.Request(Endpoint(call), Options(call), token);
  }
}
