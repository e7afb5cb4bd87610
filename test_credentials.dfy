/** `testCorreiosCredentials`: tries plain authentication, then, when a contract is given,
    contract authentication and one tracking request with the contract token. It records how
    far it got and turns the first error into advice for the user. Both HTTP calls are oracles;
    the tracking oracle is chosen by the bearer token. */
module TestCredentials {
  import opened Common
  import opened Http
  import CorreiosAuthRepository
  import CorreiosRepository

  /** The contract part of the input. */
  datatype ContractInput = ContractInput(number: string, dr: Option<int>)

  /** `CorreiosCredentialsInput` */
  datatype CredentialsInput = CredentialsInput(identifier: string, accessCode: string, contract: Option<ContractInput>)

  /** Which steps succeeded. */
  datatype Details = Details(basicAuth: bool, contractAuth: bool, trackingApi: bool)

  /** `TestCredentialsResult` */
  datatype TestResult = TestResult(success: bool, error: Option<string>, details: Details)

  /** The code the tracking step asks for. */
  const ProbeCode: string := "AA123456789BR"

  const InvalidCredentialsAdvice: string := "Invalid credentials. Please check your CPF/CNPJ and access code."
  const InvalidContractAdvice: string := "Invalid contract number. Please verify your contract information."
  const GenericAdvice: string := "Failed to validate credentials. Please try again."

  /** The advice for an error message: a mention of "401" wins over a mention of "contract". */
  function Classify(message: string): (advice: string)
    ensures advice == InvalidCredentialsAdvice <==> Contains(message, "401")
    ensures advice == InvalidContractAdvice <==> !Contains(message, "401") && Contains(message, "contract")
    ensures advice == GenericAdvice <==> !Contains(message, "401") && !Contains(message, "contract")
  {
    if Contains(message, "401") then InvalidCredentialsAdvice
    else if Contains(message, "contract") then InvalidContractAdvice
    else GenericAdvice
  }

  /** Each step's flag implies the previous step's. */
  predicate Monotone(d: Details) {
    (d.trackingApi ==> d.contractAuth) && (d.contractAuth ==> d.basicAuth)
  }

  /** The credentials both authentication calls send. */
  function AccountOf(input: CredentialsInput): CorreiosAuthRepository.Credentials {
    CorreiosAuthRepository.Credentials(input.identifier, input.accessCode)
  }

  /** The contract body the contract call sends. */
  function ContractOf(c: ContractInput): CorreiosAuthRepository.ContractCredentials {
    CorreiosAuthRepository.ContractCredentials(c.number, c.dr)
  }

  /** `testCorreiosCredentials`. Every error the two clients raise is an `Error`, so the
      "Unknown error occurred" fallback for other thrown values is not reachable here. */
  method TestCorreiosCredentials(
    authSend: CorreiosAuthRepository.AuthRequest -> CorreiosAuthRepository.Reply,
    trackingSend: string -> (seq<QueryParam> -> CorreiosRepository.Reply),
    input: CredentialsInput)
    returns (r: TestResult)
    ensures Monotone(r.details)
    ensures r.success <==> r.error.None?
    ensures r.details.basicAuth <==> CorreiosAuthRepository.Authenticate(authSend, AccountOf(input)).Resolved?
    ensures r.details.contractAuth <==>
      && r.details.basicAuth && input.contract.Some?
      && CorreiosAuthRepository.AuthenticateWithContract(authSend, AccountOf(input), ContractOf(input.contract.value)).Resolved?
    ensures r.details.trackingApi <==>
      && r.details.contractAuth
      && (var token := CorreiosAuthRepository.AuthenticateWithContract(authSend, AccountOf(input), ContractOf(input.contract.value)).response.token;
          trackingSend(token)(CorreiosRepository.MultiQuery([ProbeCode], CorreiosRepository.Last)).Delivered?)
    ensures r.success <==> r.details.basicAuth && (input.contract.None? || r.details.trackingApi)
    ensures !r.details.basicAuth ==>
      r.error == Some(Classify(CorreiosAuthRepository.Authenticate(authSend, AccountOf(input)).message))
    ensures r.details.basicAuth && input.contract.Some? && !r.details.contractAuth ==>
      r.error == Some(Classify(CorreiosAuthRepository.AuthenticateWithContract(authSend, AccountOf(input), ContractOf(input.contract.value)).message))
    ensures r.details.contractAuth && !r.details.trackingApi ==> r.error == Some(GenericAdvice)
  {
    var details := Details(false, false, false);
    var account := AccountOf(input);
    var basic := CorreiosAuthRepository.Authenticate(authSend, account);
    if basic.Thrown? {
      return TestResult(false, Some(Classify(basic.message)), details);
    }
    details := details.(basicAuth := true);
    if input.contract.Some? {
      var contract := CorreiosAuthRepository.AuthenticateWithContract(authSend, account, ContractOf(input.contract.value));
      if contract.Thrown? {
        return TestResult(false, Some(Classify(contract.message)), details);
      }
      details := details.(contractAuth := true);
      var client := new CorreiosRepository.Client(contract.response.token);
      var tracking := client.GetObjectTracking(trackingSend(contract.response.token), ProbeCode, CorreiosRepository.Last);
      if tracking.Thrown? {
        TrackingFailureIsGeneric();
        return TestResult(false, Some(Classify(tracking.message)), details);
      }
      details := details.(trackingApi := true);
    }
    r := TestResult(true, None, details);
  }

  /** Every failure of the tracking client reads "Network request failed", which mentions
      neither "401" nor "contract": a rejected tracking step always gets the generic advice. */
  lemma TrackingFailureIsGeneric()
    ensures Classify(CorreiosRepository.NetworkFailureMessage) == GenericAdvice
  {
    NotContainsForMissingChar(CorreiosRepository.NetworkFailureMessage, "401", 0);
    NotContainsForMissingChar(CorreiosRepository.NetworkFailureMessage, "contract", 0);
  }

  /** A 401 from plain authentication is reported as invalid credentials only when the carrier's
      own message mentions "401"; the status itself never reaches the classification. */
  lemma Unauthorized401NeedsTextMention(
    authSend: CorreiosAuthRepository.AuthRequest -> CorreiosAuthRepository.Reply,
    input: CredentialsInput, msgs: Option<seq<string>>, message: string)
    requires authSend(CorreiosAuthRepository.BasicRequest(AccountOf(input)))
          == CorreiosAuthRepository.Rejected(AxiosFailure(Some(401), msgs, message))
    ensures Classify(CorreiosAuthRepository.Authenticate(authSend, AccountOf(input)).message) == InvalidCredentialsAdvice
        <==> Contains(CarrierMessage(msgs, message), "401")
  {
    var m := CarrierMessage(msgs, message);
    var f := AxiosFailure(Some(401), msgs, message);
    assert CorreiosAuthRepository.HandleError(f) == "Invalid credentials: " + m;
    assert CorreiosAuthRepository.Authenticate(authSend, AccountOf(input)).message == "Invalid credentials: " + m;
    InvalidCredentialsClassified(m);
  }

  /** The prefix "Invalid credentials: " holds no '4', so only the carrier's text can make the
      message mention "401". */
  lemma InvalidCredentialsClassified(m: string)
    ensures Classify("Invalid credentials: " + m) == InvalidCredentialsAdvice <==> Contains(m, "401")
  {
    ContainsPastPrefix("Invalid credentials: ", m, "401");
  }
}
