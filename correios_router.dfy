/** The carrier-credential procedures (`correiosRouter`): store a user's Correios credentials and
    check them against the token service, read them back, and re-test stored ones. The token
    service is an oracle; a failing database call carries the message of its error. */
module CorreiosRouter {
  import opened Common
  import opened Trpc
  import opened Store
  import Auth = CorreiosAuthRepository

  /** The input of `saveCredentials`. */
  datatype SaveInput = SaveInput(identifier: string, accessCode: string, contract: string, regionalNumber: Option<int>)

  /** What `testAuth` returns. */
  datatype AuthCheck = AuthCheck(tokenExpiration: string, environment: Option<string>)

  const IdentifierTooShort: string := "CPF/CNPJ deve ter no mínimo 11 caracteres"
  const IdentifierTooLong: string := "CPF/CNPJ deve ter no máximo 14 caracteres"
  const AccessCodeRequired: string := "Código de acesso é obrigatório"
  const ContractRequired: string := "Contrato é obrigatório"
  const CredentialsMissing: string := "Credenciais não encontradas"
  const ReadFailed: string := "Erro ao buscar credenciais"

  /** The schema of `saveCredentials`: the identifier has 11 to 14 characters, the access code
      and the contract at least one. Every failed check is reported, field by field, with the
      message written on it; the optional regional number cannot fail. */
  function ValidateSaveInput(input: SaveInput): (r: seq<Issue>)
    ensures r == [] <==> && MinLength(input.identifier, 11) && MaxLength(input.identifier, 14)
                         && MinLength(input.accessCode, 1) && MinLength(input.contract, 1)
    ensures Issue([Key("identifier")], Some(IdentifierTooShort)) in r <==> !MinLength(input.identifier, 11)
    ensures Issue([Key("identifier")], Some(IdentifierTooLong)) in r <==> !MaxLength(input.identifier, 14)
    ensures Issue([Key("accessCode")], Some(AccessCodeRequired)) in r <==> !MinLength(input.accessCode, 1)
    ensures Issue([Key("contract")], Some(ContractRequired)) in r <==> !MinLength(input.contract, 1)
    ensures |r| <= 3
  {
    IssueIf(!MinLength(input.identifier, 11), "identifier", Some(IdentifierTooShort))
    + IssueIf(!MaxLength(input.identifier, 14), "identifier", Some(IdentifierTooLong))
    + IssueIf(!MinLength(input.accessCode, 1), "accessCode", Some(AccessCodeRequired))
    + IssueIf(!MinLength(input.contract, 1), "contract", Some(ContractRequired))
  }

  /** `getCredentials`: the caller's stored credentials, if any. */
  function GetCredentials(db: Db, user: UserId, readFails: bool): (r: Result<Option<Credential>>)
    reads db
    ensures readFails ==> r == Err(TrpcError(InternalServerError, ReadFailed))
    ensures !readFails ==> r.Ok? && (r.value.Some? <==> user in db.credentials)
    ensures !readFails && user in db.credentials ==> r.value.value == db.credentials[user]
  {
    if readFails then Err(TrpcError(InternalServerError, ReadFailed))
    else if user in db.credentials then Ok(Some(db.credentials[user]))
    else Ok(None)
  }

  /** `saveCredentials`: the credentials are stored first, as given, and then checked with a
      contract authentication. A rejected check is reported but the stored credentials stay,
      and `getCredentials` returns them.
      The regional number goes to the check only; it is never stored. */
  method SaveCredentials(db: Db, user: UserId, input: SaveInput, authSend: Auth.AuthRequest -> Auth.Reply,
                         upsertFailure: Option<string>)
    returns (r: Result<Credential>)
    modifies db
    ensures ValidateSaveInput(input) != [] ==> r == Err(InputRejected(ValidateSaveInput(input))) && unchanged(db)
    ensures ValidateSaveInput(input) == [] && upsertFailure.Some? ==>
      r == Err(TrpcError(BadRequest, upsertFailure.value)) && unchanged(db)
    ensures ValidateSaveInput(input) == [] && upsertFailure.None? ==>
      var stored := Credential(input.identifier, input.accessCode, input.contract);
      var check := Auth.AuthenticateWithContract(authSend, Auth.Credentials(input.identifier, input.accessCode),
                                                 Auth.ContractCredentials(input.contract, input.regionalNumber));
      && db.credentials == old(db.credentials)[user := stored]
      && GetCredentials(db, user, false) == Ok(Some(stored))
      && (check.Resolved? ==> r == Ok(stored))
      && (check.Thrown? ==> r == Err(TrpcError(BadRequest, check.message)))
    ensures db.teams == old(db.teams) && db.members == old(db.members) && db.invites == old(db.invites)
    ensures db.imports == old(db.imports) && db.orders == old(db.orders)
  {
    var invalid := ValidateSaveInput(input);
    if invalid != [] {
      return Err(InputRejected(invalid));
    }
    r := StoreAndTest(db, user, input, authSend, upsertFailure);
  }

  /** The body of `saveCredentials` once the schema has accepted the input: the upsert, then
      the contract authentication, both inside one catch that reports BAD_REQUEST. */
  method StoreAndTest(db: Db, user: UserId, input: SaveInput, authSend: Auth.AuthRequest -> Auth.Reply,
                      upsertFailure: Option<string>)
    returns (r: Result<Credential>)
    modifies db
    ensures upsertFailure.Some? ==> r == Err(TrpcError(BadRequest, upsertFailure.value)) && unchanged(db)
    ensures upsertFailure.None? ==>
      var stored := Credential(input.identifier, input.accessCode, input.contract);
      var check := Auth.AuthenticateWithContract(authSend, Auth.Credentials(input.identifier, input.accessCode),
                                                 Auth.ContractCredentials(input.contract, input.regionalNumber));
      && db.credentials == old(db.credentials)[user := stored]
      && GetCredentials(db, user, false) == Ok(Some(stored))
      && (check.Resolved? ==> r == Ok(stored))
      && (check.Thrown? ==> r == Err(TrpcError(BadRequest, check.message)))
    ensures db.teams == old(db.teams) && db.members == old(db.members) && db.invites == old(db.invites)
    ensures db.imports == old(db.imports) && db.orders == old(db.orders)
  {
    if upsertFailure.Some? {
      return Err(TrpcError(BadRequest, upsertFailure.value));
    }
    var stored := Credential(input.identifier, input.accessCode, input.contract);
    db.credentials := db.credentials[user := stored];
    var check := Auth.AuthenticateWithContract(authSend, Auth.Credentials(input.identifier, input.accessCode),
                                               Auth.ContractCredentials(input.contract, input.regionalNumber));
    if check.Thrown? {
      return Err(TrpcError(BadRequest, check.message));
    }
    r := Ok(stored);
  }

  /** `testAuth`: a contract authentication with the stored credentials and no regional number.
      Every failure, the missing credentials included, leaves as an internal error carrying the
      message of the error raised. */
  function TestAuth(db: Db, user: UserId, authSend: Auth.AuthRequest -> Auth.Reply, readFailure: Option<string>)
    : (r: Result<AuthCheck>)
    reads db
    ensures readFailure.Some? ==> r == Err(TrpcError(InternalServerError, readFailure.value))
    ensures readFailure.None? && user !in db.credentials ==> r == Err(TrpcError(InternalServerError, CredentialsMissing))
    ensures readFailure.None? && user in db.credentials ==>
      var c := db.credentials[user];
      var check := Auth.AuthenticateWithContract(authSend, Auth.Credentials(c.identifier, c.accessCode),
                                                 Auth.ContractCredentials(c.contract, None));
      && (check.Resolved? ==> r == Ok(AuthCheck(check.response.expiraEm, check.response.ambiente)))
      && (check.Thrown? ==> r == Err(TrpcError(InternalServerError, check.message)))
    ensures r.Err? ==> r.error.TrpcError? && r.error.code == InternalServerError
  {
    if readFailure.Some? then Err(TrpcError(InternalServerError, readFailure.value))
    else if user !in db.credentials then Err(TrpcError(InternalServerError, CredentialsMissing))
    else
      var c := db.credentials[user];
      match Auth.AuthenticateWithContract(authSend, Auth.Credentials(c.identifier, c.accessCode),
                                          Auth.ContractCredentials(c.contract, None))
      case Resolved(token) => Ok(AuthCheck(token.expiraEm, token.ambiente))
      case Thrown(message) => Err(TrpcError(InternalServerError, message))
  }
}
