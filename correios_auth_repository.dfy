/** The Correios token client (`CorreiosAuthRepository`): HTTP Basic authentication with the
    trimmed identifier and access code (section 2 of RFC 7617), optionally for a contract, and
    the mapping of failed requests to error messages. The HTTP call itself is an oracle. */
module CorreiosAuthRepository {
  import opened Common
  import opened Encoding
  import opened Http

  /** The identifier (CPF/CNPJ) and access code of a Correios account. */
  datatype Credentials = Credentials(identifier: string, accessCode: string)

  /** A contract number and an optional regional number (`dr`). */
  datatype ContractCredentials = ContractCredentials(numero: string, dr: Option<int>)

  /** The token the carrier issues. */
  datatype TokenResponse = TokenResponse(
    token: string, expiraEm: string, ambiente: Option<string>, contrato: Option<ContractCredentials>)

  /** A POST to the token service: path, JSON body (`null` for plain authentication) and the
      `Authorization` header. */
  datatype AuthRequest = AuthRequest(path: string, body: Option<ContractCredentials>, authorization: string)

  datatype Reply = Delivered(data: TokenResponse) | Rejected(failure: Failure)
  datatype Outcome = Resolved(response: TokenResponse) | Thrown(message: string)

  const BasicPath: string := "/token/v1/autentica"
  const ContractPath: string := "/token/v1/autentica/contrato"
  const BasicScheme: string := "Basic "

  /** The user-pass of RFC 7617: trimmed identifier, a colon, trimmed access code. */
  function UserPass(c: Credentials): string {
    Trim(c.identifier) + ":" + Trim(c.accessCode)
  }

  /** The `Authorization` header value: the Basic scheme and the base 64 of the UTF-8 user-pass. */
  function BasicAuthorization(c: Credentials): (h: string)
    ensures StartsWith(h, BasicScheme)
  {
    BasicScheme + Base64Encode(Utf8(UserPass(c)))
  }

  /** The carrier can read both credentials back from the header: decoding it and splitting at
      the first colon gives the trimmed identifier and the trimmed access code, provided the
      identifier has no colon (RFC 7617 forbids one there). */
  lemma BasicAuthorizationRecoversCredentials(c: Credentials)
    requires forall i :: 0 <= i < |Trim(c.identifier)| ==> Trim(c.identifier)[i] != ':'
    ensures Base64Decode(BasicAuthorization(c)[|BasicScheme|..]).Some?
    ensures SplitAtFirst(Base64Decode(BasicAuthorization(c)[|BasicScheme|..]).value, Colon)
         == (Utf8(Trim(c.identifier)), Utf8(Trim(c.accessCode)))
  {
    var id, code := Trim(c.identifier), Trim(c.accessCode);
    var bytes := Utf8(UserPass(c));
    assert BasicAuthorization(c)[|BasicScheme|..] == Base64Encode(bytes);
    Base64RoundTrip(bytes);
    Utf8Concat(id + ":", code);
    Utf8Concat(id, ":");
    assert Utf8(":") == [Colon];
    Utf8NoColon(id);
    SplitAtFirstOfJoin(Utf8(id), Colon, Utf8(code));
  }

  /** Whitespace around either credential does not change the header. */
  lemma BasicAuthorizationIgnoresPadding(c: Credentials, d: Credentials)
    requires Trim(c.identifier) == Trim(d.identifier) && Trim(c.accessCode) == Trim(d.accessCode)
    ensures BasicAuthorization(c) == BasicAuthorization(d)
  {
  }

  /** The request `authenticate` sends: no body, to the plain token path. */
  function BasicRequest(c: Credentials): (r: AuthRequest)
    ensures r.path == BasicPath && r.body.None?
    ensures r.authorization == BasicAuthorization(c)
  {
    AuthRequest(BasicPath, None, BasicAuthorization(c))
  }

  /** The request `authenticateWithContract` sends: the trimmed contract number and the
      regional number as given, to the contract token path, with the same header. */
  function ContractRequest(c: Credentials, k: ContractCredentials): (r: AuthRequest)
    ensures r.path == ContractPath
    ensures r.body == Some(ContractCredentials(Trim(k.numero), k.dr))
    ensures r.authorization == BasicRequest(c).authorization
  {
    AuthRequest(ContractPath, Some(ContractCredentials(Trim(k.numero), k.dr)), BasicAuthorization(c))
  }

  /** `handleError`: the message of the error a failed authentication throws. */
  function HandleError(f: Failure): (msg: string)
    ensures f.OtherFailure? ==> msg == "Network request failed"
    ensures f.AxiosFailure? && f.status == Some(400) ==>
      msg == "Invalid request parameters: " + CarrierMessage(f.msgs, f.message)
    ensures f.AxiosFailure? && f.status == Some(401) ==>
      msg == "Invalid credentials: " + CarrierMessage(f.msgs, f.message)
    ensures f.AxiosFailure? && f.status == Some(429) ==>
      msg == "Too many requests. Please wait and try again."
    ensures f.AxiosFailure? && f.status == Some(500) ==>
      msg == "Authentication server error: " + CarrierMessage(f.msgs, f.message)
    ensures f.AxiosFailure? && f.status !in {Some(400), Some(401), Some(429), Some(500)} ==>
      msg == "Authentication failed (" + StatusText(f.status) + "): " + CarrierMessage(f.msgs, f.message)
  {
    match f
    case OtherFailure(_) => "Network request failed"
    case AxiosFailure(status, msgs, message) =>
      var m := CarrierMessage(msgs, message);
      if status == Some(400) then "Invalid request parameters: " + m
      else if status == Some(401) then "Invalid credentials: " + m
      else if status == Some(429) then "Too many requests. Please wait and try again."
      else if status == Some(500) then "Authentication server error: " + m
      else "Authentication failed (" + StatusText(status) + "): " + m
  }

  /** Every Axios failure except a 429 ends with the carrier's message. */
  lemma HandleErrorCarriesMessage(f: Failure)
    requires f.AxiosFailure? && f.status != Some(429)
    ensures EndsWith(HandleError(f), CarrierMessage(f.msgs, f.message))
  {
  }

  /** An unlisted status is named in the message, "undefined" when no response arrived. */
  lemma HandleErrorNamesUnlistedStatus(f: Failure)
    requires f.AxiosFailure? && f.status !in {Some(400), Some(401), Some(429), Some(500)}
    ensures StartsWith(HandleError(f), "Authentication failed (" + StatusText(f.status) + ")")
    ensures f.status.None? ==> StartsWith(HandleError(f), "Authentication failed (undefined)")
  {
    var prefix := "Authentication failed (" + StatusText(f.status) + ")";
    assert HandleError(f) == prefix + (": " + CarrierMessage(f.msgs, f.message));
  }

  /** The response interceptor hands the original failure on, so `handleError` sees the status. */
  function Intercept(f: Failure): (e: Failure)
    ensures e == f
  {
    f
  }

  /** `authenticate` */
  function Authenticate(send: AuthRequest -> Reply, c: Credentials): (r: Outcome)
    ensures send(BasicRequest(c)).Delivered? ==> r == Resolved(send(BasicRequest(c)).data)
    ensures send(BasicRequest(c)).Rejected? ==> r == Thrown(HandleError(send(BasicRequest(c)).failure))
  {
    match send(BasicRequest(c))
    case Delivered(data) => Resolved(data)
    case Rejected(f) => Thrown(HandleError(Intercept(f)))
  }

  /** `authenticateWithContract` */
  function AuthenticateWithContract(send: AuthRequest -> Reply, c: Credentials, k: ContractCredentials): (r: Outcome)
    ensures send(ContractRequest(c, k)).Delivered? ==> r == Resolved(send(ContractRequest(c, k)).data)
    ensures send(ContractRequest(c, k)).Rejected? ==> r == Thrown(HandleError(send(ContractRequest(c, k)).failure))
  {
    match send(ContractRequest(c, k))
    case Delivered(data) => Resolved(data)
    case Rejected(f) => Thrown(HandleError(Intercept(f)))
  }

  /** Unlike the tracking client, a carrier rejection with status 401 reaches the caller as
      "Invalid credentials: …" carrying the carrier's message. */
  lemma RejectedCredentialsReported(send: AuthRequest -> Reply, c: Credentials, msgs: seq<string>, message: string)
    requires send(BasicRequest(c)) == Rejected(AxiosFailure(Some(401), Some(msgs), message))
    ensures Authenticate(send, c).Thrown?
    ensures StartsWith(Authenticate(send, c).message, "Invalid credentials: ")
    ensures EndsWith(Authenticate(send, c).message, CarrierMessage(Some(msgs), message))
  {
    var m := CarrierMessage(Some(msgs), message);
    assert Authenticate(send, c).message == "Invalid credentials: " + m;
  }
}
