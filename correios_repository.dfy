/** The Correios tracking client (`CorreiosRepository`): it sends a Bearer token, builds the
    `codigosObjetos`/`resultado` query of `/srorastro/v1/objetos`, caps a multi-code lookup at
    50 codes and turns failures into error messages. The HTTP call itself is an oracle. */
module CorreiosRepository {
  import opened Common
  import opened Http

  /** `keyof TrackingResult`: all events, the first event, or the last event. */
  datatype ResultMode = All | First | Last

  /** The letter the API expects for a result mode. */
  function ModeLetter(m: ResultMode): (s: string)
    ensures |s| == 1
  {
    match m
    case All => "T"
    case First => "P"
    case Last => "U"
  }

  /** Distinct modes are sent as distinct letters. */
  lemma ModeLetterInjective(m: ResultMode, n: ResultMode)
    requires ModeLetter(m) == ModeLetter(n)
    ensures m == n
  {
  }

  const BaseUrl: string := "https://api.correios.com.br"
  const TrackingPath: string := "/srorastro/v1/objetos"
  const MaxCodesPerRequest: nat := 50
  const TooManyCodesMessage: string := "Maximum of 50 tracking codes allowed per request"
  const NetworkFailureMessage: string := "Network request failed"

  /** `getObjectTracking` looks up all events unless told otherwise. */
  const DefaultSingleMode: ResultMode := All
  /** `getMultipleObjectsTracking` looks up only the last event unless told otherwise. */
  const DefaultMultiMode: ResultMode := Last

  datatype Address = Address(cidade: string, uf: string)
  datatype TrackingEvent = TrackingEvent(
    codigo: string, descricao: string, dtHrCriado: string, tipo: string,
    unidade: Address, unidadeDestino: Option<Address>)
  datatype TrackingObject = TrackingObject(codObjeto: string, eventos: seq<TrackingEvent>)
  datatype TrackingResponse = TrackingResponse(
    versao: string, quantidade: int, objetos: seq<TrackingObject>, tipoResultado: ResultMode)

  /** What the transport returns for a request. */
  datatype Reply = Delivered(data: TrackingResponse) | Rejected(failure: Failure)

  /** What a lookup resolves or rejects with. */
  datatype Outcome = Resolved(response: TrackingResponse) | Thrown(message: string)

  /** The response interceptor's rejection: a plain `Error` whose message is the carrier's
      first message (for an Axios failure) or a fixed text; status and body are dropped. */
  function Intercept(f: Failure): (e: Failure)
    ensures e.OtherFailure?
    ensures f.AxiosFailure? ==> e.message == CarrierMessage(f.msgs, f.message)
    ensures f.OtherFailure? ==> e.message == "An unexpected error occurred"
  {
    match f
    case AxiosFailure(_, msgs, message) => OtherFailure(CarrierMessage(msgs, message))
    case OtherFailure(_) => OtherFailure("An unexpected error occurred")
  }

  /** `handleError`: the message of the error a failed lookup throws. */
  function HandleError(f: Failure): (msg: string)
    ensures f.OtherFailure? ==> msg == NetworkFailureMessage
    ensures f.AxiosFailure? && f.status == Some(400) ==>
      msg == "Invalid request parameters: " + CarrierMessage(f.msgs, f.message)
    ensures f.AxiosFailure? && f.status == Some(403) ==>
      msg == "Authentication failed. Please check your credentials."
    ensures f.AxiosFailure? && f.status == Some(500) ==> msg == "Correios API server error"
    ensures f.AxiosFailure? && f.status !in {Some(400), Some(403), Some(500)} ==>
      msg == "Failed to process request: " + CarrierMessage(f.msgs, f.message)
  {
    match f
    case OtherFailure(_) => NetworkFailureMessage
    case AxiosFailure(status, msgs, message) =>
      var m := CarrierMessage(msgs, message);
      if status == Some(400) then "Invalid request parameters: " + m
      else if status == Some(403) then "Authentication failed. Please check your credentials."
      else if status == Some(500) then "Correios API server error"
      else "Failed to process request: " + m
  }

  /** For a 400 and for unlisted statuses the carrier's message ends the thrown message; for a
      403 and a 500 the thrown message does not depend on what the carrier said. */
  lemma HandleErrorCarriesMessage(f: Failure, g: Failure)
    requires f.AxiosFailure? && g.AxiosFailure? && f.status == g.status
    ensures f.status !in {Some(403), Some(500)} ==> EndsWith(HandleError(f), CarrierMessage(f.msgs, f.message))
    ensures f.status in {Some(403), Some(500)} ==> HandleError(f) == HandleError(g)
  {
  }

  /** Since the interceptor has already replaced every failure by a plain error, the status
      switch of `handleError` is never reached: every failed lookup reports a network failure. */
  lemma InterceptedFailureIsNetworkFailure(f: Failure)
    ensures HandleError(Intercept(f)) == NetworkFailureMessage
  {
  }

  /** The query of a multi-code lookup: one `codigosObjetos` per code in order, then the mode. */
  function MultiQuery(codes: seq<string>, mode: ResultMode): seq<QueryParam> {
    seq(|codes|, i requires 0 <= i < |codes| => QueryParam("codigosObjetos", codes[i]))
      + [QueryParam("resultado", ModeLetter(mode))]
  }

  /** Reading the codes back off a multi-code query gives the codes sent, and exactly one
      `resultado` closes it. */
  lemma MultiQueryShape(codes: seq<string>, mode: ResultMode)
    ensures |MultiQuery(codes, mode)| == |codes| + 1
    ensures forall i :: 0 <= i < |codes| ==>
      MultiQuery(codes, mode)[i] == QueryParam("codigosObjetos", codes[i])
    ensures MultiQuery(codes, mode)[|codes|] == QueryParam("resultado", ModeLetter(mode))
    ensures forall i :: 0 <= i < |codes| ==> MultiQuery(codes, mode)[i].name != "resultado"
  {
  }

  /** A single-code query is the multi-code query of a one-element list. */
  lemma SingleQueryIsMultiQueryOfOne(code: string, mode: ResultMode)
    ensures MultiQuery([code], mode) == [QueryParam("codigosObjetos", code), QueryParam("resultado", ModeLetter(mode))]
  {
  }

  /** Distinct code lists give distinct queries. */
  lemma MultiQueryInjective(a: seq<string>, b: seq<string>, mode: ResultMode)
    requires MultiQuery(a, mode) == MultiQuery(b, mode)
    ensures a == b
  {
    MultiQueryShape(a, mode);
    MultiQueryShape(b, mode);
    forall i | 0 <= i < |a| ensures a[i] == b[i] {
      assert MultiQuery(a, mode)[i].value == a[i];
      assert MultiQuery(b, mode)[i].value == b[i];
    }
  }

  /** The Correios client, configured once with a bearer token. */
  class Client {
    const token: string

    constructor(token: string)
      ensures this.token == token
    {
      this.token := token;
    }

    /** The `Authorization` header: the Bearer scheme followed by the token. */
    function AuthorizationHeader(): (h: string)
      ensures StartsWith(h, "Bearer ") && h[7..] == token
    {
      "Bearer " + token
    }

    /** The query parameters `getObjectTracking` sends. */
    method SingleParams(code: string, mode: ResultMode) returns (ps: seq<QueryParam>)
      ensures ps == MultiQuery([code], mode)
    {
      var params := new SearchParams();
      params.Append("codigosObjetos", code);
      params.Append("resultado", ModeLetter(mode));
      ps := params.entries;
    }

    /** The query parameters `getMultipleObjectsTracking` sends, built by appending one code at a time. */
    method MultiParams(codes: seq<string>, mode: ResultMode) returns (ps: seq<QueryParam>)
      ensures ps == MultiQuery(codes, mode)
    {
      var params := new SearchParams();
      var i := 0;
      while i < |codes|
        invariant 0 <= i <= |codes|
        invariant params.entries == seq(i, k requires 0 <= k < i => QueryParam("codigosObjetos", codes[k]))
      {
        params.Append("codigosObjetos", codes[i]);
        i := i + 1;
      }
      params.Append("resultado", ModeLetter(mode));
      ps := params.entries;
    }

    /** `getObjectTracking`: one request; a rejection goes through the interceptor and `handleError`. */
    method GetObjectTracking(send: seq<QueryParam> -> Reply, code: string, mode: ResultMode)
      returns (r: Outcome)
      ensures send(MultiQuery([code], mode)).Delivered? ==> r == Resolved(send(MultiQuery([code], mode)).data)
      ensures send(MultiQuery([code], mode)).Rejected? ==> r == Thrown(NetworkFailureMessage)
    {
      var ps := SingleParams(code, mode);
      match send(ps)
      case Delivered(data) => r := Resolved(data);
      case Rejected(f) => r := Thrown(HandleError(Intercept(f)));
    }

    /** `getMultipleObjectsTracking`: more than 50 codes fail before any request is built;
        otherwise one request for all codes. */
    method GetMultipleObjectsTracking(send: seq<QueryParam> -> Reply, codes: seq<string>, mode: ResultMode)
      returns (r: Outcome)
      ensures |codes| > MaxCodesPerRequest ==> r == Thrown(TooManyCodesMessage)
      ensures |codes| <= MaxCodesPerRequest && send(MultiQuery(codes, mode)).Delivered? ==>
        r == Resolved(send(MultiQuery(codes, mode)).data)
      ensures |codes| <= MaxCodesPerRequest && send(MultiQuery(codes, mode)).Rejected? ==>
        r == Thrown(NetworkFailureMessage)
    {
      if |codes| > MaxCodesPerRequest {
        return Thrown(TooManyCodesMessage);
      }
      var ps := MultiParams(codes, mode);
      match send(ps)
      case Delivered(data) => r := Resolved(data);
      case Rejected(f) => r := Thrown(HandleError(Intercept(f)));
    }
  }
}
