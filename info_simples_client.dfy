/** The client of the InfoSimples tracking service (`InfoSimplesCorreiosClient`): it posts a
    form with the code, the API token and a timeout, reports HTTP failures as errors, and
    decides whether a code exists from the response. The URL parser and the fetch call are
    oracles. */
module InfoSimplesClient {
  import opened Common
  import opened Http
  import opened InfoSimples

  const DefaultTimeout: int := 300
  const DefaultBaseUrl: string := "https://api.infosimples.com/api/v2"
  const TrackingPath: string := "/consultas/correios/rastreamento"
  const FailurePrefix: string := "Failed to track package: "

  /** `config.timeout || 300`: any falsy timeout, 0 included, becomes 300. */
  function EffectiveTimeout(timeout: Option<int>): (t: int)
    ensures t != 0
    ensures timeout.Some? && timeout.value != 0 ==> t == timeout.value
    ensures timeout.None? || timeout == Some(0) ==> t == DefaultTimeout
  {
    if timeout.Some? && timeout.value != 0 then timeout.value else DefaultTimeout
  }

  /** `config.baseUrl || default`: a missing or empty base URL becomes the v2 endpoint. */
  function EffectiveBaseUrl(baseUrl: Option<string>): (u: string)
    ensures u != ""
    ensures baseUrl.Some? && baseUrl.value != "" ==> u == baseUrl.value
    ensures baseUrl.None? || baseUrl == Some("") ==> u == DefaultBaseUrl
  {
    if baseUrl.Some? && baseUrl.value != "" then baseUrl.value else DefaultBaseUrl
  }

  /** The form body of a tracking request: the code, the token and the timeout, in that order. */
  function TrackingForm(trackingCode: string, token: string, timeout: int): seq<QueryParam> {
    [QueryParam("tracking_code", trackingCode), QueryParam("token", token), QueryParam("timeout", IntToString(timeout))]
  }

  /** What `fetch` and `response.json()` can produce: a response with a status and a decoded
      body, a thrown `Error`, or some other thrown value. */
  datatype FetchReply =
    | HttpResponse(status: int, body: ApiResponse)
    | ErrorThrown(message: string)
    | OtherThrown

  /** What `trackPackage` resolves or throws. `InvalidUrl` is the `TypeError` that `new URL`
      throws before the `try` block, so its message is not prefixed. */
  datatype Outcome =
    | Resolved(response: ApiResponse)
    | Failed(message: string)
    | Rethrown
    | InvalidUrl

  /** `response.ok`: a status in the 2xx range. */
  predicate IsOk(status: int) {
    200 <= status <= 299
  }

  /** The outcome of the `try` block of `trackPackage` for what the fetch produced: a non-2xx
      status becomes an `Error` that the catch block prefixes, a thrown `Error` is prefixed, any
      other thrown value passes through. */
  function TrackOutcome(reply: FetchReply): (r: Outcome)
    ensures r.Resolved? <==> reply.HttpResponse? && IsOk(reply.status)
    ensures r.Resolved? ==> r.response == reply.body
    ensures reply.HttpResponse? && !IsOk(reply.status) ==>
      r == Failed(FailurePrefix + "HTTP error! status: " + IntToString(reply.status))
    ensures reply.ErrorThrown? ==> r == Failed(FailurePrefix + reply.message)
    ensures r.Rethrown? <==> reply.OtherThrown?
  {
    match reply
    case HttpResponse(status, body) =>
      if IsOk(status) then Resolved(body)
      else Failed(FailurePrefix + "HTTP error! status: " + IntToString(status))
    case ErrorThrown(message) => Failed(FailurePrefix + message)
    case OtherThrown => Rethrown
  }

  /** Every `Error` the `try` block of `trackPackage` throws names it as a failed tracking, and
      it never throws the URL parser's error. */
  lemma FailuresArePrefixed(reply: FetchReply)
    ensures TrackOutcome(reply).Failed? ==> StartsWith(TrackOutcome(reply).message, FailurePrefix)
    ensures !TrackOutcome(reply).InvalidUrl?
  {
  }

  /** The InfoSimples client, configured once. */
  class Client {
    const token: string
    const timeout: int
    const baseUrl: string

    constructor(config: ClientConfig)
      ensures token == config.token
      ensures timeout == EffectiveTimeout(config.timeout)
      ensures baseUrl == EffectiveBaseUrl(config.baseUrl)
    {
      token := config.token;
      timeout := EffectiveTimeout(config.timeout);
      baseUrl := EffectiveBaseUrl(config.baseUrl);
    }

    /** The string given to `new URL` for every tracking request. */
    function Url(): (u: string)
      ensures StartsWith(u, baseUrl) && EndsWith(u, TrackingPath)
    {
      baseUrl + TrackingPath
    }

    /** Builds the form body by successive appends. */
    method BuildForm(trackingCode: string) returns (form: seq<QueryParam>)
      ensures form == TrackingForm(trackingCode, token, timeout)
    {
      var data := new SearchParams();
      data.Append("tracking_code", trackingCode);
      data.Append("token", token);
      data.Append("timeout", IntToString(timeout));
      form := data.entries;
    }

    /** `trackPackage`. `parseUrl` is the URL parser behind `new URL`: the normalised URL, or
        None when it throws, which happens before the `try` block and before any request. */
    method TrackPackage(parseUrl: string -> Option<string>, fetch: (string, seq<QueryParam>) -> FetchReply,
                        trackingCode: string)
      returns (r: Outcome)
      ensures r.InvalidUrl? <==> parseUrl(Url()).None?
      ensures parseUrl(Url()).Some? ==>
        r == TrackOutcome(fetch(parseUrl(Url()).value, TrackingForm(trackingCode, token, timeout)))
      ensures r.Failed? ==> StartsWith(r.message, FailurePrefix)
    {
      var url := parseUrl(Url());
      if url.None? {
        return InvalidUrl;
      }
      var form := BuildForm(trackingCode);
      r := TrackOutcome(fetch(url.value, form));
      FailuresArePrefixed(fetch(url.value, form));
    }

    /** `trackingCodeExists`: true exactly when the lookup succeeds and reports the object
        found; every failure, thrown values included, gives false. */
    method TrackingCodeExists(parseUrl: string -> Option<string>, fetch: (string, seq<QueryParam>) -> FetchReply,
                              trackingCode: string)
      returns (found: bool)
      ensures found <==>
        && parseUrl(Url()).Some?
        && var reply := fetch(parseUrl(Url()).value, TrackingForm(trackingCode, token, timeout));
           reply.HttpResponse? && IsOk(reply.status) && ReportsFound(reply.body)
    {
      var r := TrackPackage(parseUrl, fetch, trackingCode);
      found := r.Resolved? && r.response.code == 200 && r.response.dataCount > 0;
    }
  }

  /** A request that the service rejects with an HTTP error is reported with its status. */
  lemma HttpErrorReportsStatus(status: int, body: ApiResponse)
    requires !IsOk(status)
    ensures TrackOutcome(HttpResponse(status, body)).Failed?
    ensures EndsWith(TrackOutcome(HttpResponse(status, body)).message, IntToString(status))
  {
    var m := FailurePrefix + "HTTP error! status: ";
    assert TrackOutcome(HttpResponse(status, body)).message == m + IntToString(status);
  }
}
