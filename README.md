# winona-envios in Dafny

A model of the core of winona-envios, a Next.js and tRPC application. It imports orders from a CSV export, tracks their Correios parcels, stores each user's Correios credentials, and groups users into teams joined through single-use invites. The model covers:

- **Tracking codes and CSV rows.**
  - The tracking-code check: two letters, nine digits, "BR", in any case.
  - The valid/invalid split of parsed orders.
  - The filter-and-trim step that turns header-keyed CSV rows into orders.
- **Carrier clients.**
  - The Correios tracking client: Bearer header, the `codigosObjetos`/`resultado` query, the 50-code cap, error messages.
  - The Correios token client:
    - the HTTP Basic credential of section 2 of RFC 7617;
    - base 64 per section 4 of RFC 4648, over the UTF-8 bytes;
    - the contract body;
    - the status-to-message switch.
  - The InfoSimples client and its mock.
- **Server procedures, as methods over an in-memory `Store.Db`.**
  - Tracking look-up and write-back.
  - Team membership and invites.
  - Order import and paging.
  - Credential save and test.
  - The staged credential probe `testCorreiosCredentials`.
- **Client decision logic.**
  - The credential forms.
  - The upload → preview → submit wizard.
  - The preview's filter, sort and paging.
  - The older orders screen.
  - The page-link window and the orders screen's sort state.
  - The invite-link rewrite.
  - Each component with state is a class whose methods are its handlers.

Oracles and parameters stand in for:

- the network: `send`, `fetch`, `lookup`;
- the CSV tokeniser: `tokenise`, `read`;
- the clock and random bytes: `now`, `randomBytes`, `Clock`;
- identifiers the database generates;
- database faults: `Fault`, `ImportFault`, `upsertFailure`, `readFailure`;
- the page origin;
- how a mutation settles.

What the code does, and the model with it:

- There is no token cache, no batching loop and no event classifier. `CorreiosRepository.getMultipleObjectsTracking` only refuses more than 50 codes (src/app/api/repositories/CorreiosRepository.ts:156-157).
- The tracking router writes the literal statuses "Enviado!" and "Não encontrado." (src/server/api/routers/tracking.ts:89, :108, :191, :198).
- The tracking router is wired to the InfoSimples mock client (src/server/api/routers/tracking.ts:13-15).

Behaviours of the code as written that the proofs bring out:

- `CorreiosRepository`'s response interceptor replaces every failure by a plain `Error`, so its `handleError` always reports "Network request failed" (`CorreiosRepository.InterceptedFailureIsNetworkFailure`).
- `getStatus` turns its own NOT_FOUND into an internal error (`TrackingRouter.GetStatusNeverNotFound`).
- The "Unsent" branch of `updateTracking` is reachable only for code 200 with a negative `data_count` (`TrackingRouter.TestsLeaveNegativeCountGap`).
- `saveCredentials` stores the credentials before it tests them, so a rejected test leaves them saved (`CorreiosRouter.SaveCredentials`).
- In `testCorreiosCredentials`:
  - a 401 is classified as invalid credentials only when the carrier's text mentions "401" (`TestCredentials.Unauthorized401NeedsTextMention`);
  - a failed tracking step always gets the generic advice (`TestCredentials.TrackingFailureIsGeneric`).
- A whitespace-only order-number cell passes the CSV filter, trims to "", and makes the server reject the whole import (`CsvSubmission.BlankOrderNumberRejectsImport`).
- In the CSV preview:
  - Next on an empty result sets the page to 0, and changing the search term does not reset it, so a search that then matches rows still shows nothing (`CsvPreview.EmptyResultThenSearch`);
  - sorting "by validation" orders by the presence of a code, not by its validity (`CsvPreview.ValidationSortGroups`).
- On the older orders screen, Next stays visible when the orders fill the last page exactly, and leads to an empty page (`OrdersManagement.FullLastPageOffersEmptyNext`).
- A server invite link without "join-team" is rendered as `origin + "/teams/join" + "undefined"` (`InviteSection.MissingSeparatorRendersUndefined`).

## Model

| member | source | states |
|---|---|---|
| OrderValidator.IsValidTrackingCode | src/app/utils/orderValidator.ts:3-7 | a missing or empty code is never valid; a valid code has 13 characters |
| OrderValidator.ValidIffShape | src/app/utils/orderValidator.ts:6 | a code is valid iff it is two ASCII letters, nine ASCII digits, then B and R in either case |
| OrderValidator.ValidityIgnoresCase | src/app/utils/orderValidator.ts:6 | lower-casing a code does not change whether it is valid (the `i` flag) |
| OrderValidator.ExampleCodes | src/app/utils/orderValidator.ts:6 | "AA123456789BR" and "aa123456789br" are valid; a code one digit short and one ending in "US" are not |
| OrderValidator.FilterValidOrders | src/app/utils/orderValidator.ts:9-20 | invalidCount + \|validOrders\| = \|orders\|; validOrders is an order-preserving subsequence of the input, all valid, missing no valid order, holding no order without a code |
| OrderValidator.ValidOrdersUnique | src/app/utils/orderValidator.ts:13-15 | any order-preserving selection of valid orders that misses none of them is validOrders |
| OrderValidator.RefilterIsIdentity | src/app/utils/orderValidator.ts:13-20 | filtering validOrders again returns the same list with invalidCount 0 |
| CsvParser.NormaliseRow | src/app/utils/csvParser.ts:22-28 | each field is its column's cell trimmed; the tracking code is present iff its cell is non-empty |
| CsvParser.ParseRows | src/app/utils/csvParser.ts:16-28 | never more orders than rows |
| CsvParser.ParsedOrdersAreTrimmed | src/app/utils/csvParser.ts:20-28 | every order has a tracking code (the `: null` branch is unreachable) and all its fields are trimmed |
| CsvParser.ParseRowsOneByOne | src/app/utils/csvParser.ts:16-28 | a row contributes its normalised order iff its three cells are non-empty, in row order |
| CsvParser.ParseRowsConcat | src/app/utils/csvParser.ts:16-28 | parsing two runs of rows gives the orders of the first then those of the second |
| CsvParser.ParseRowsCount | src/app/utils/csvParser.ts:17-21 | orders plus dropped rows equals rows |
| CsvParser.BlankTrackingCellGivesInvalidOrder | src/app/utils/csvParser.ts:18-27 | a whitespace-only tracking cell passes the filter and yields the code "", which is invalid |
| CsvParser.OtherColumnsIgnored | src/app/utils/csvParser.ts:22-28 | a column other than the three order columns changes neither the filter nor the order |
| Http.CarrierMessage | src/app/api/repositories/CorreiosRepository.ts:191 | the carrier's first message when there is one, else the error's own message |
| Http.StatusText | src/app/api/repositories/CorreiosAuthRepository.ts:175 | the status in decimal, or "undefined" without a response |
| CorreiosRepository.ModeLetter | src/app/api/repositories/CorreiosRepository.ts:3-7 | each result mode is one letter |
| CorreiosRepository.ModeLetterInjective | src/app/api/repositories/CorreiosRepository.ts:3-7 | distinct modes are sent as distinct letters |
| CorreiosRepository.Intercept | src/app/api/repositories/CorreiosRepository.ts:93-113 | every rejection becomes a plain error carrying the carrier's message, or a fixed text for a non-Axios error |
| CorreiosRepository.HandleError | src/app/api/repositories/CorreiosRepository.ts:187-212 | 400, 403, 500 and other statuses map to their messages; a non-Axios error is "Network request failed" |
| CorreiosRepository.HandleErrorCarriesMessage | src/app/api/repositories/CorreiosRepository.ts:198-209 | 400 and unlisted statuses end with the carrier's message; 403 and 500 do not depend on it |
| CorreiosRepository.InterceptedFailureIsNetworkFailure | src/app/api/repositories/CorreiosRepository.ts:93-113 | after the interceptor, every failure reports "Network request failed" |
| CorreiosRepository.MultiQueryShape | src/app/api/repositories/CorreiosRepository.ts:167-171 | one `codigosObjetos` per code in order, then exactly one `resultado` |
| CorreiosRepository.SingleQueryIsMultiQueryOfOne | src/app/api/repositories/CorreiosRepository.ts:127-129 | the single-code query is `[codigosObjetos=code, resultado=mode]` |
| CorreiosRepository.MultiQueryInjective | src/app/api/repositories/CorreiosRepository.ts:167-171 | distinct code lists give distinct queries |
| CorreiosRepository.Client.constructor | src/app/api/repositories/CorreiosRepository.ts:49-59 | the client keeps the bearer token |
| CorreiosRepository.Client.AuthorizationHeader | src/app/api/repositories/CorreiosRepository.ts:55 | "Bearer " followed by exactly the token |
| CorreiosRepository.Client.SingleParams | src/app/api/repositories/CorreiosRepository.ts:127-129 | the appended parameters are the single-code query |
| CorreiosRepository.Client.MultiParams | src/app/api/repositories/CorreiosRepository.ts:167-171 | the loop of appends builds exactly the multi-code query |
| CorreiosRepository.Client.GetObjectTracking | src/app/api/repositories/CorreiosRepository.ts:117-146 | a delivered reply is returned; a rejected one throws "Network request failed" |
| CorreiosRepository.Client.GetMultipleObjectsTracking | src/app/api/repositories/CorreiosRepository.ts:148-185 | more than 50 codes throw the cap message before any request; otherwise as the single lookup, with no lower bound |
| Encoding.Base64Encode | src/app/api/repositories/CorreiosAuthRepository.ts:98-100 | the encoding has 4·⌈n/3⌉ characters |
| Encoding.Base64RoundTrip | src/app/api/repositories/CorreiosAuthRepository.ts:98-100 | decoding the base 64 of any bytes gives them back |
| Encoding.RoundTripAfterTriple | src/app/api/repositories/CorreiosAuthRepository.ts:98-100 | a round trip of what follows a group of three bytes extends to the whole sequence |
| Encoding.EncodeFront | src/app/api/repositories/CorreiosAuthRepository.ts:98-100 | the encoding of three bytes and more begins with the four characters of those three |
| Encoding.Utf8 | src/app/api/repositories/CorreiosAuthRepository.ts:98-100 | each character becomes one to four bytes |
| Encoding.Utf8Concat | src/app/api/repositories/CorreiosAuthRepository.ts:98-100 | UTF-8 of a concatenation is the concatenation of the encodings |
| CorreiosAuthRepository.BasicAuthorization | src/app/api/repositories/CorreiosAuthRepository.ts:98-108 | the header starts with "Basic " |
| CorreiosAuthRepository.BasicAuthorizationRecoversCredentials | src/app/api/repositories/CorreiosAuthRepository.ts:98-100 | decoding the header and splitting at the first colon gives the trimmed identifier and trimmed access code |
| CorreiosAuthRepository.BasicAuthorizationIgnoresPadding | src/app/api/repositories/CorreiosAuthRepository.ts:98-100 | surrounding whitespace does not change the header |
| CorreiosAuthRepository.BasicRequest | src/app/api/repositories/CorreiosAuthRepository.ts:102-110 | a null body posted to /token/v1/autentica with the Basic header |
| CorreiosAuthRepository.ContractRequest | src/app/api/repositories/CorreiosAuthRepository.ts:133-144 | the trimmed contract number and `dr` unchanged, posted to /token/v1/autentica/contrato with the same header |
| CorreiosAuthRepository.HandleError | src/app/api/repositories/CorreiosAuthRepository.ts:153-180 | 400, 401, 429, 500 and other statuses (missing included) map to their messages; a non-Axios error is "Network request failed" |
| CorreiosAuthRepository.HandleErrorCarriesMessage | src/app/api/repositories/CorreiosAuthRepository.ts:164-177 | every Axios failure but a 429 ends with the carrier's message |
| CorreiosAuthRepository.HandleErrorNamesUnlistedStatus | src/app/api/repositories/CorreiosAuthRepository.ts:173-176 | an unlisted status is named in the message, "undefined" without a response |
| CorreiosAuthRepository.Intercept | src/app/api/repositories/CorreiosAuthRepository.ts:79-87 | the interceptor passes the original failure on |
| CorreiosAuthRepository.Authenticate | src/app/api/repositories/CorreiosAuthRepository.ts:92-117 | a delivered token is returned; a rejection throws the mapped message |
| CorreiosAuthRepository.AuthenticateWithContract | src/app/api/repositories/CorreiosAuthRepository.ts:120-151 | the same, for the contract request |
| CorreiosAuthRepository.RejectedCredentialsReported | src/app/api/repositories/CorreiosAuthRepository.ts:167-168 | a 401 reaches the caller as "Invalid credentials: " followed by the carrier's message |
| InfoSimplesMockClient.MockDelay | src/app/api/repositories/InfoSimplesMockClient.ts:8 | the given timeout, 0 included; 500 only when none is given |
| InfoSimplesMockClient.MockClient.constructor | src/app/api/repositories/InfoSimplesMockClient.ts:6-9 | the delay is fixed from the configuration |
| InfoSimplesMockClient.MockClient.TrackPackage | src/app/api/repositories/InfoSimplesMockClient.ts:122-136 | the code is echoed and `data_count` = \|data\|; an "OK" code is found (200, one entry, no errors), any other is not (612, no data, one error) |
| InfoSimplesMockClient.MockClient.TrackingCodeExists | src/app/api/repositories/InfoSimplesMockClient.ts:138-142 | true iff the code starts with "OK" |
| InfoSimplesMockClient.MockClient.ExistsIffLookupFinds | src/app/api/repositories/InfoSimplesMockClient.ts:122-142 | a code exists iff its lookup reports it found, iff the lookup's code is 200 |
| InfoSimplesMockClient.MockClient.NotFoundPrefixIsDefault | src/app/api/repositories/InfoSimplesMockClient.ts:126-135 | an "NF" code gets the same answer as any other unknown code |
| InfoSimplesMockClient.MockClient.FoundHistory | src/app/api/repositories/InfoSimplesMockClient.ts:20-51 | a found history has two events, "Objeto postado" then the transfer with a destination |
| InfoSimplesClient.EffectiveTimeout | src/app/api/repositories/InfoSimplesCorreiosClient.ts:13 | a given non-zero timeout is kept; none or 0 becomes 300 |
| InfoSimplesClient.EffectiveBaseUrl | src/app/api/repositories/InfoSimplesCorreiosClient.ts:14 | a given non-empty base URL is kept; otherwise the v2 endpoint |
| InfoSimplesClient.TrackOutcome | src/app/api/repositories/InfoSimplesCorreiosClient.ts:64-98 | resolved iff a 2xx response; otherwise "Failed to track package: " with the HTTP status or the error's message; other thrown values pass through |
| InfoSimplesClient.FailuresArePrefixed | src/app/api/repositories/InfoSimplesCorreiosClient.ts:48-99 | every `Error` thrown from the `try` block starts with "Failed to track package: "; that block never gives the URL error |
| InfoSimplesClient.HttpErrorReportsStatus | src/app/api/repositories/InfoSimplesCorreiosClient.ts:64-70 | a non-2xx status fails with a message ending in that status |
| InfoSimplesClient.Client.constructor | src/app/api/repositories/InfoSimplesCorreiosClient.ts:11-21 | token as given, timeout and base URL through their defaults |
| InfoSimplesClient.Client.Url | src/app/api/repositories/InfoSimplesCorreiosClient.ts:34 | the string given to `new URL`: the base URL followed by the tracking path |
| InfoSimplesClient.Client.BuildForm | src/app/api/repositories/InfoSimplesCorreiosClient.ts:37-40 | the form is `tracking_code`, `token`, `timeout`, in that order |
| InfoSimplesClient.Client.TrackPackage | src/app/api/repositories/InfoSimplesCorreiosClient.ts:28-100 | a URL the parser rejects throws before the `try`, unprefixed, and nothing is sent; otherwise the outcome of posting the form to the parsed URL; every failure `Error` is prefixed |
| InfoSimplesClient.Client.TrackingCodeExists | src/app/api/repositories/InfoSimplesCorreiosClient.ts:107-140 | true iff the URL parses and a 2xx response reports code 200 and a positive `data_count`; every failure, the URL error included, gives false |
| Trpc.TrimmedNonEmpty | src/server/api/routers/tracking.ts:19 | accepted iff the string has a non-whitespace character; the value is the trimmed string |
| TrackingRouter.TestsLeaveNegativeCountGap | src/server/api/routers/tracking.ts:84-131 | the found and not-found tests both fail exactly for code 200 with a negative count |
| TrackingRouter.StatusFor | src/server/api/routers/tracking.ts:187-201 | "Enviado!" iff the response reports the object found, "Não encontrado." otherwise |
| TrackingRouter.GetStatus | src/server/api/routers/tracking.ts:18-57 | a blank code is rejected by the schema with one issue on `trackingCode`; succeeds iff the trimmed code is non-empty and the lookup answers found; the first entry's situation and history, or "Unknown" and []; every other failure is an internal error |
| TrackingRouter.GetStatusNeverNotFound | src/server/api/routers/tracking.ts:37-56 | no error of `getStatus` is NOT_FOUND |
| TrackingRouter.VerifyTrackingCode | src/server/api/routers/tracking.ts:142-157 | the existence check's answer, or an internal error when it throws |
| TrackingRouter.FirstOwned | src/server/api/routers/tracking.ts:63-70 | the first order with the id that belongs to the caller, or none when there is none |
| TrackingRouter.FirstOwnedIsOnlyRowWithId | src/server/api/routers/tracking.ts:63-110 | with unique order ids, the row the ownership query finds is the only row with that id, so `update where: { id }` writes that row and no other |
| TrackingRouter.UpdateTracking | src/server/api/routers/tracking.ts:60-139 | NOT_FOUND before any lookup for an unowned order; found sets the code and "Enviado!"; missing sets only "Não encontrado."; the gap answers "Unsent" with no write; nothing else changes; unique order ids stay unique |
| TrackingRouter.WriteOrder | src/server/api/routers/tracking.ts:85-111 | the row is replaced by one with the same id, unique ids stay unique, and no other table changes |
| TrackingRouter.Refreshed | src/server/api/routers/tracking.ts:179-209 | a selected order with a non-empty code whose lookup answers gets that answer's status; an empty code, a failed lookup or an unselected order leaves it unchanged |
| TrackingRouter.BatchEffect | src/server/api/routers/tracking.ts:178-210 | the table after a batch, order by order: each order as Refreshed leaves it, so orders with an empty code are never looked up |
| TrackingRouter.CountSelected | src/server/api/routers/tracking.ts:168-176 | the processed count is at most the table's size |
| TrackingRouter.AnsweredAtMostSelected | src/server/api/routers/tracking.ts:178-219 | successfulUpdates ≤ orders looked up ≤ totalProcessed; the last two are equal iff no processed order has an empty code |
| TrackingRouter.AllAnsweredWhenLookupTotal | src/server/api/routers/tracking.ts:178-214 | when the service always answers, every looked-up order (non-empty code) counts as a success, not-found included |
| TrackingRouter.UpdateOne | src/server/api/routers/tracking.ts:179-208 | the per-order callback yields an update exactly for a non-empty code whose lookup answered, and that update is the refreshed order; otherwise the refresh leaves the order as it was |
| TrackingRouter.ProcessOne | src/server/api/routers/tracking.ts:168-214 | one order of the batch leaves as `Refreshed` makes it, counts as processed iff selected and as a success iff looked up and answered |
| TrackingRouter.RefreshAll | src/server/api/routers/tracking.ts:168-219 | going through the orders one at a time gives the batch effect as the new table, the number of selected orders as processed and the number answered as successes |
| TrackingRouter.PointwiseIsBatchEffect | src/server/api/routers/tracking.ts:178-210 | a table whose every entry is the refreshed order at that position is the batch effect |
| TrackingRouter.BatchUpdateTracking | src/server/api/routers/tracking.ts:160-220 | the new table is BatchEffect of the old; totalProcessed counts listed, coded, owned orders, empty codes included; successfulUpdates counts those with a non-empty code whose lookup answered |
| TrackingRouter.BatchIdempotent | src/server/api/routers/tracking.ts:168-201 | running the batch twice has the effect of running it once |
| TrackingRouter.BatchKeepsIdsUnique | src/server/api/routers/tracking.ts:178-210 | the batch changes statuses only: every row keeps its id, and unique ids stay unique |
| TrackingRouter.MockLookup | src/server/api/routers/tracking.ts:13-15 | the mock the router is wired to always answers |
| TrackingRouter.GetStatusWithMock | src/server/api/routers/tracking.ts:13-57 | with the mock, `getStatus` succeeds iff the trimmed code starts with "OK", with the mock's situation |
| TrackingRouter.BatchWithMockSucceedsForAll | src/server/api/routers/tracking.ts:178-219 | with the mock, successfulUpdates equals the looked-up count, and equals totalProcessed iff no processed order has an empty code |
| TrackingRouter.EmptyCodeProcessedNotUpdated | src/server/api/routers/tracking.ts:168-180 | a listed, owned order whose code is "" counts once in totalProcessed, never in successfulUpdates, and is left unchanged |
| TeamRouter.Hex | src/server/api/routers/team.ts:124 | two lower-case hex digits per byte |
| TeamRouter.HexInjective | src/server/api/routers/team.ts:124 | distinct byte strings give distinct tokens |
| TeamRouter.InviteTokenShape | src/server/api/routers/team.ts:124 | 32 bytes give a 64-character hex token |
| TeamRouter.InviteLinkFor | src/server/api/routers/team.ts:141 | "/join-team?token=" followed by exactly the token |
| TeamRouter.GetMyTeams | src/server/api/routers/team.ts:65-102 | exactly the teams the user administers or belongs to; a read failure is an internal error |
| TeamRouter.MyTeamsAreMemberships | src/server/api/routers/team.ts:65-92 | since admins are members, exactly the user's memberships |
| TeamRouter.Create | src/server/api/routers/team.ts:26-63 | a new team whose admin is the caller and whose only member is the caller |
| TeamRouter.GenerateInviteLink | src/server/api/routers/team.ts:104-152 | only the admin gets an invite (NOT_FOUND otherwise); an unused invite expiring 24 hours later, linked as "/join-team?token=" + hex token |
| TeamRouter.Join | src/server/api/routers/team.ts:154-226 | unknown token NOT_FOUND, used or expired (strictly before now) BAD_REQUEST, existing member BAD_REQUEST, in that order; otherwise the membership and `usedAt` are written together |
| TeamRouter.RemoveMember | src/server/api/routers/team.ts:228-275 | a blank team or user id is rejected with one issue per blank field; admin only; removing oneself is BAD_REQUEST; removes exactly that membership, a non-member leaving nothing changed |
| TeamRouter.ExitTeam | src/server/api/routers/team.ts:277-322 | NOT_FOUND for non-members, BAD_REQUEST for the admin; otherwise only the caller's membership goes |
| TeamRouter.DeleteTeam | src/server/api/routers/team.ts:324-358 | admin only; the team, its memberships and its invites go |
| OrderRouter.ParseOrderInput | src/server/api/routers/order.ts:4-8 | accepted iff number and status are non-blank; all three fields trimmed, the code kept null |
| OrderRouter.ParseOrderInputs | src/server/api/routers/order.ts:12 | the list passes iff every order does, each parsed in place |
| OrderRouter.OrderIssues | src/server/api/routers/order.ts:4-7 | no issue iff the order passes `orderSchema`; a blank number is reported first, at its position in the list |
| OrderRouter.OrdersIssuesEmptyWhenAllParse | src/server/api/routers/order.ts:12 | orders that all pass their element schema report no issue |
| OrderRouter.OrdersIssuesReportFailure | src/server/api/routers/order.ts:12 | any one order that fails its element schema makes the array report an issue, whatever the others do |
| OrderRouter.OrdersIssuesEmptyIff | src/server/api/routers/order.ts:12 | the orders array reports no issue exactly when every order passes |
| OrderRouter.ImportIssues | src/server/api/routers/order.ts:10-13 | no issue iff the file name, the length and every order pass |
| OrderRouter.OrdersIssuesNameBlankNumber | src/server/api/routers/order.ts:5-12 | a blank order number is reported at its own index, whatever else fails |
| OrderRouter.BlankNumberNamedInRejection | src/server/api/routers/order.ts:4-13 | an order with a blank number rejects the import with BAD_REQUEST, and the issues name that order's number |
| OrderRouter.ParseImportInput | src/server/api/routers/order.ts:4-13 | accepted iff the trimmed file name is non-empty and there is at least one valid order; a rejection is BAD_REQUEST listing every failed check |
| OrderRouter.NewOrders | src/server/api/routers/order.ts:30-37 | one row per input order, in order, linked to the import |
| OrderRouter.NewOrdersKeepIdsUnique | src/server/api/routers/order.ts:30-37 | inserting rows under fresh, distinct ids keeps the order ids unique |
| OrderRouter.Import | src/server/api/routers/order.ts:17-49 | "processing" record, then the rows, then "completed"; a failing write stops there; returns the new id and the count; fresh row ids keep the order ids unique |
| OrderRouter.WriteImport | src/server/api/routers/order.ts:21-48 | the three writes in order; each fault leaves exactly the writes before it, and only the fault-free run returns the count and a "completed" record |
| OrderRouter.ImportedOrdersReadBack | src/server/api/routers/order.ts:21-48 | after an import its record is found by id and its orders are exactly the inserted rows |
| OrderRouter.ListImports | src/server/api/routers/order.ts:52-62 | one summary per import of the caller, each with its order count |
| OrderRouter.ListImportsNewestFirst | src/server/api/routers/order.ts:52-62 | reversed, the listing is exactly the caller's imports in creation order: newest first, none missing, none extra |
| OrderRouter.GetImportsSummary | src/server/api/routers/order.ts:86-97 | the first five of `listImports` |
| OrderRouter.SummaryIsLatest | src/server/api/routers/order.ts:86-97 | the summary is the caller's latest imports (at most five), newest first |
| OrderRouter.LatestPrefix | src/server/api/routers/order.ts:86-97 | the first entries of a newest-first listing are the latest entries of the caller's imports, newest first |
| OrderRouter.ImportOrders | src/server/api/routers/order.ts:74-81 | exactly the orders of the import that belong to the caller: none else, none missing |
| OrderRouter.ImportOrdersNewestFirst | src/server/api/routers/order.ts:74-81 | reversed, those orders are in creation order: newest first |
| OrderRouter.Page | src/server/api/routers/order.ts:73-80 | at most 10 rows, those from (page−1)·10 on; fewer only at the end |
| OrderRouter.PageOfIndex | src/server/api/routers/order.ts:79-80 | row j is on page j/10+1 at place j mod 10 |
| OrderRouter.PagesCoverAll | src/server/api/routers/order.ts:79-80 | the pages in order give back the whole list |
| OrderRouter.GetImportOrders | src/server/api/routers/order.ts:65-83 | a page below 1 is rejected by the schema with one issue on `page`; default page 1; the page of the caller's orders of that import |
| CorreiosRouter.ValidateSaveInput | src/server/api/routers/correios.ts:9-17 | no issue iff the identifier has 11 to 14 characters and access code and contract are non-empty; each failed check is listed with the message written on it; at most three |
| CorreiosRouter.GetCredentials | src/server/api/routers/correios.ts:62-77 | the caller's credentials, none, or an internal error |
| CorreiosRouter.SaveCredentials | src/server/api/routers/correios.ts:7-60 | an input the schema rejects gives its issues and no write; stored first without `regionalNumber`; kept even when the contract test then fails; a failing save or test is BAD_REQUEST with its message |
| CorreiosRouter.StoreAndTest | src/server/api/routers/correios.ts:19-60 | a failing upsert is BAD_REQUEST with its message and writes nothing; otherwise the credentials are stored without `regionalNumber` and stay stored, and the contract test decides between the stored record and BAD_REQUEST with the test's message |
| CorreiosRouter.TestAuth | src/server/api/routers/correios.ts:80-118 | missing credentials and every other failure are internal errors with the raised message; success returns `expiraEm` and `ambiente` |
| TestCredentials.Classify | src/server/api/utils/testCorreiosCredentials.ts:67-75 | "401" wins over "contract", else the generic advice, each an iff |
| TestCredentials.TestCorreiosCredentials | src/server/api/utils/testCorreiosCredentials.ts:23-83 | trackingApi ⇒ contractAuth ⇒ basicAuth; each flag iff its step and those before succeeded; success iff no error; the failing step's message is classified |
| TestCredentials.TrackingFailureIsGeneric | src/server/api/utils/testCorreiosCredentials.ts:53-75 | a failed tracking step always gets the generic advice |
| TestCredentials.Unauthorized401NeedsTextMention | src/server/api/utils/testCorreiosCredentials.ts:67-69 | a 401 is reported as invalid credentials iff the carrier's message contains "401" |
| CorreiosSecretForm.Digits | src/app/_components/correios/CorreiosSecretForm.tsx:30 | only digits, no longer than the input |
| CorreiosSecretForm.IdentifierError | src/app/_components/correios/CorreiosSecretForm.tsx:23-35 | no error iff 11 to 14 characters with 11 or 14 digits |
| CorreiosSecretForm.AccessCodeError | src/app/_components/correios/CorreiosSecretForm.tsx:36-43 | no error iff 8 to 50 characters, all letters, digits or `@#$%^&+=!` |
| CorreiosSecretForm.ContractError | src/app/_components/correios/CorreiosSecretForm.tsx:44-47 | no error iff non-empty and digits only |
| CorreiosSecretForm.Submit | src/app/_components/correios/CorreiosSecretForm.tsx:92-94 | sends iff the form is valid, the values unchanged |
| CorreiosSecretForm.SubmittedPassesServerSchema | src/app/_components/correios/CorreiosSecretForm.tsx:22-48 | whatever the form sends passes `saveCredentials`'s schema |
| CorreiosSecretForm.PunctuatedCpfPasses | src/app/_components/correios/CorreiosSecretForm.tsx:27-35 | "ddd.ddd.ddd-dd" passes |
| CorreiosSecretForm.NoDigitsIsNotCpf | src/app/_components/correios/CorreiosSecretForm.tsx:27-35 | 11 to 14 characters without digits fail the digit check |
| CredentialsDialog.SchemaError | src/app/_components/CredentialsDialog.tsx:42-49 | no error iff 11 to 14 identifier characters and non-empty access code and contract |
| CredentialsDialog.DialogLooserThanForm | src/app/_components/CredentialsDialog.tsx:42-49 | the dialog accepts everything the personal form accepts |
| CredentialsDialog.DialogAcceptsWhatFormRejects | src/app/_components/CredentialsDialog.tsx:43-46 | eleven letters pass the dialog but not the personal form |
| CredentialsDialog.DefaultsFor | src/app/_components/CredentialsDialog.tsx:76-80 | the stored fields, or empty strings |
| CredentialsDialog.Dialog.constructor | src/app/_components/CredentialsDialog.tsx:74-81 | the form starts from the defaults |
| CredentialsDialog.Dialog.CredentialsFetched | src/app/_components/CredentialsDialog.tsx:83-91 | fetched credentials reset the form; none leave it |
| CredentialsDialog.Dialog.Submit | src/app/_components/CredentialsDialog.tsx:110-128 | valid values send the team id and the three fields; success closes, failure shows its message |
| CredentialsDialog.Dialog.Delete | src/app/_components/CredentialsDialog.tsx:130-133 | nothing is sent without stored credentials |
| CredentialsDialog.Dialog.OpenChanged | src/app/_components/CredentialsDialog.tsx:136 | the dialog is open exactly as the trigger or dismissal sets it, and nothing else changes |
| CsvFileUpload.ValidateFile | src/app/_components/csv-import/CSVFileUpload.tsx:23-45 | accepted iff the name ends with ".csv" and the size is at most 5 MiB; the name is checked first |
| CsvFileUpload.ValidateFileBoundaries | src/app/_components/csv-import/CSVFileUpload.tsx:25-35 | ".CSV" is rejected; exactly 5 MiB is accepted, one byte more is not |
| CsvFileUpload.Picker.constructor | src/app/_components/csv-import/CSVFileUpload.tsx:18-20 | no file, not uploading |
| CsvFileUpload.Picker.HandleFile | src/app/_components/csv-import/CSVFileUpload.tsx:47-71 | an invalid file changes nothing; a parsed one is selected, then reported as selected, then as parsed; a failure clears the selection; never left uploading |
| CsvFileUpload.Picker.ClearFile | src/app/_components/csv-import/CSVFileUpload.tsx:100-102 | the selection is cleared |
| CsvPreview.EmptySearchMatchesAll | src/app/_components/csv-import/CSVPreview.tsx.tsx:63-67 | the empty term matches every order |
| CsvPreview.SearchIgnoresCase | src/app/_components/csv-import/CSVPreview.tsx.tsx:63-67 | the term's case does not matter |
| CsvPreview.ValidationFilters | src/app/_components/csv-import/CSVPreview.tsx.tsx:69-81 | both filters drop orders without a code; a coded order passes exactly one; "valid" is the validator's test |
| CsvPreview.ComparatorTotal | src/app/_components/csv-import/CSVPreview.tsx.tsx:85-99 | for a total string order the sort comparison is total |
| CsvPreview.View | src/app/_components/csv-import/CSVPreview.tsx.tsx:61-99 | a permutation of the matching orders, each matching search and filter |
| CsvPreview.ViewSorted | src/app/_components/csv-import/CSVPreview.tsx.tsx:85-99 | the rows are sorted by the chosen field and direction |
| CsvPreview.ValidationSortGroups | src/app/_components/csv-import/CSVPreview.tsx.tsx:86-91 | sorting by validation groups by presence of a code, not validity |
| CsvPreview.InvalidOrders | src/app/_components/csv-import/CSVPreview.tsx.tsx:124-135 | exactly the coded orders whose code fails the pattern |
| CsvPreview.InvalidViewIsInvalidOrders | src/app/_components/csv-import/CSVPreview.tsx.tsx:69-135 | the "invalid" view holds the orders `invalidOrders` counts |
| CsvPreview.TotalPages | src/app/_components/csv-import/CSVPreview.tsx.tsx:102 | ⌈n/10⌉ |
| CsvPreview.PageContents | src/app/_components/csv-import/CSVPreview.tsx.tsx:103-107 | at most 10 rows, rows (p−1)·10 onward |
| CsvPreview.EveryRowOnItsPage | src/app/_components/csv-import/CSVPreview.tsx.tsx:102-107 | every row lies on a page within the page count |
| CsvPreview.PageZeroIsEmpty | src/app/_components/csv-import/CSVPreview.tsx.tsx:103-107 | page 0 shows nothing |
| CsvPreview.NextSort | src/app/_components/csv-import/CSVPreview.tsx.tsx:109-116 | same field toggles; another field sorts ascending |
| CsvPreview.SortClickedTwice | src/app/_components/csv-import/CSVPreview.tsx.tsx:109-116 | toggling twice restores the direction |
| CsvPreview.Preview.constructor | src/app/_components/csv-import/CSVPreview.tsx.tsx:61-107 | empty search, page 1, order number ascending, all orders |
| CsvPreview.Preview.SetSearchTerm | src/app/_components/csv-import/CSVPreview.tsx.tsx:184 | a new term keeps the page |
| CsvPreview.Preview.HandleSort | src/app/_components/csv-import/CSVPreview.tsx.tsx:109-116 | the sort moves by NextSort and nothing else changes |
| CsvPreview.Preview.HandleValidationFilterChange | src/app/_components/csv-import/CSVPreview.tsx.tsx:118-121 | a new filter resets the page to 1 |
| CsvPreview.Preview.Previous | src/app/_components/csv-import/CSVPreview.tsx.tsx:312 | one page back, never below 1 |
| CsvPreview.Preview.Next | src/app/_components/csv-import/CSVPreview.tsx.tsx:327-329 | one page on, never past the page count |
| CsvPreview.EmptyResultThenSearch | src/app/_components/csv-import/CSVPreview.tsx.tsx:184-329 | Next with no matching rows sets page 0, which shows nothing |
| CsvSubmission.ValidOrders | src/app/_components/csv-import/CSVSubmission.tsx:53-55 | only valid orders, missing none |
| CsvSubmission.ValidOrdersMatchValidator | src/app/_components/csv-import/CSVSubmission.tsx:23-26 | the component's check picks the shared validator's orders, in order |
| CsvSubmission.ServerAcceptsSubmission | src/app/_components/csv-import/CSVSubmission.tsx:63-66 | non-blank names and fields pass the import schema |
| CsvSubmission.BlankOrderNumberRejectsImport | src/app/_components/csv-import/CSVSubmission.tsx:63-66 | one empty order number makes the server reject the whole import with BAD_REQUEST, naming that row |
| CsvSubmission.Submission.constructor | src/app/_components/csv-import/CSVSubmission.tsx:29-31 | not submitting, no error, not complete |
| CsvSubmission.Submission.HandleSubmit | src/app/_components/csv-import/CSVSubmission.tsx:46-67 | nothing without file or data; no valid order sets the error and sends nothing; otherwise sends the file name with exactly the valid orders |
| CsvSubmission.Submission.MutationSettled | src/app/_components/csv-import/CSVSubmission.tsx:33-44 | success completes and disables the button; an error stores its message; submitting always ends |
| CsvImportFlow.Back | src/app/_components/csv-import/CSVImportFlow.tsx:39-48 | one step back, nothing at the first step |
| CsvImportFlow.Next | src/app/_components/csv-import/CSVImportFlow.tsx:50-56 | only the preview moves on |
| CsvImportFlow.BackNextInverse | src/app/_components/csv-import/CSVImportFlow.tsx:39-56 | Back undoes a Next that moved; Next undoes Back from submit |
| CsvImportFlow.NextThenBack | src/app/_components/csv-import/CSVImportFlow.tsx:39-56 | Next then Back from the preview returns to the preview with the file and the orders kept |
| CsvImportFlow.Flow.constructor | src/app/_components/csv-import/CSVImportFlow.tsx:23-25 | starts at upload with no file or data |
| CsvImportFlow.Flow.HandleFileSelect | src/app/_components/csv-import/CSVImportFlow.tsx:30-32 | keeps the file, the step unchanged |
| CsvImportFlow.Flow.HandleDataParsed | src/app/_components/csv-import/CSVImportFlow.tsx:34-37 | keeps the data and shows the preview |
| CsvImportFlow.Flow.HandleBack | src/app/_components/csv-import/CSVImportFlow.tsx:39-48 | the step moves by Back |
| CsvImportFlow.Flow.HandleNext | src/app/_components/csv-import/CSVImportFlow.tsx:50-56 | the step moves by Next |
| CsvImportFlow.Flow.HandleSubmitSuccess | src/app/_components/csv-import/CSVImportFlow.tsx:58-65 | the step does not change |
| CsvImportFlow.UploadThenPreview | src/app/_components/csv-import/CSVImportFlow.tsx:30-37 | a valid parsed file takes a fresh wizard to the preview with that file and its parsed orders |
| ColumnMatcher.InitialMapping | src/app/_components/csv-import/ColumnMatcher.tsx:33-40 | keys are exactly the matched fields; a field's header is that of its last match |
| ColumnMatcher.LaterMatchWins | src/app/_components/csv-import/ColumnMatcher.tsx:35-38 | a later match for the same field overrides an earlier one |
| ColumnMatcher.NoOrderNumberMatchBlocksConfirm | src/app/_components/csv-import/ColumnMatcher.tsx:42-48 | without an order-number match Confirm cannot pass |
| ColumnMatcher.ShownSamples | src/app/_components/csv-import/ColumnMatcher.tsx:105 | the first two samples at most |
| ColumnMatcher.Matcher.constructor | src/app/_components/csv-import/ColumnMatcher.tsx:31 | the mapping starts empty |
| ColumnMatcher.Matcher.SuggestionsChanged | src/app/_components/csv-import/ColumnMatcher.tsx:33-40 | the mapping becomes the initial mapping |
| ColumnMatcher.Matcher.HandleConfirm | src/app/_components/csv-import/ColumnMatcher.tsx:42-48 | the mapping goes out unchanged iff the order number is mapped to a non-empty header |
| OrdersManagement.ShowNextAgainstServer | src/app/_components/OrdersManagement.tsx:166-167 | Next shows iff rows reach the end of the page; hidden Next means nothing further |
| OrdersManagement.FullLastPageOffersEmptyNext | src/app/_components/OrdersManagement.tsx:166-167 | an exactly full last page still offers Next, to an empty page |
| OrdersManagement.Screen.constructor | src/app/_components/OrdersManagement.tsx:42 | page 1, nothing sent |
| OrdersManagement.Screen.HandleFileUpload | src/app/_components/OrdersManagement.tsx:83-160 | a read or parse error is reported; no kept row reports and sends nothing; otherwise the skipped count is reported when positive and the file name goes with exactly the kept orders |
| OrdersManagement.Screen.MutationSettled | src/app/_components/OrdersManagement.tsx:66-81 | success or the error's message is reported |
| OrdersManagement.Screen.Previous | src/app/_components/OrdersManagement.tsx:247 | one page back, never below 1 |
| OrdersManagement.Screen.Next | src/app/_components/OrdersManagement.tsx:260 | one page on |
| TablePagination.Render | src/app/_components/orders/table/TablePagination.tsx:25-100 | nothing while loading or with one page; otherwise the current page is shown active |
| TablePagination.RenderShape | src/app/_components/orders/table/TablePagination.tsx:46-96 | from page 1 to the last page, ellipses exactly at gaps, only the current page active |
| TablePagination.LeadingShape | src/app/_components/orders/table/TablePagination.tsx:46-70 | the links up to the current page start at 1 with gaps marked |
| TablePagination.TrailingShape | src/app/_components/orders/table/TablePagination.tsx:72-96 | the links from the current page end at the last page with gaps marked |
| TablePagination.MarkedPagesIncrease | src/app/_components/orders/table/TablePagination.tsx:46-96 | marked gaps make page numbers strictly increase |
| TablePagination.RenderedPagesIncrease | src/app/_components/orders/table/TablePagination.tsx:46-96 | no page number appears twice |
| TablePagination.PreviousTarget | src/app/_components/orders/table/TablePagination.tsx:27 | previous exists iff current > 1 |
| TablePagination.NextTarget | src/app/_components/orders/table/TablePagination.tsx:28 | next exists iff current < total |
| TablePagination.ArrowsStayInRange | src/app/_components/orders/table/TablePagination.tsx:27-100 | arrows stay within 1..total and lead to shown neighbouring links |
| OrdersManagementClient.NextSort | src/app/_components/orders/OrdersManagementClient.tsx:34-42 | same field toggles; another field sorts ascending |
| OrdersManagementClient.SortTwice | src/app/_components/orders/OrdersManagementClient.tsx:34-42 | toggling twice restores the order |
| OrdersManagementClient.Screen.constructor | src/app/_components/orders/OrdersManagementClient.tsx:25-31 | page 1, by order number, descending |
| OrdersManagementClient.Screen.HandleSort | src/app/_components/orders/OrdersManagementClient.tsx:34-42 | the sort moves by NextSort and the page resets to 1 |
| OrdersManagementClient.Screen.SearchChanged | src/app/_components/orders/OrdersManagementClient.tsx:67-70 | new term, page 1 |
| OrdersManagementClient.Screen.StatusFilterChanged | src/app/_components/orders/OrdersManagementClient.tsx:71-75 | new status, page 1 |
| OrdersManagementClient.Screen.PageChanged | src/app/_components/orders/OrdersManagementClient.tsx:82 | the requested page as given |
| InviteSection.IndexOf | src/app/_components/team/InviteSection.tsx:16 | the first occurrence at or after a position, none iff absent |
| InviteSection.SecondPiece | src/app/_components/team/InviteSection.tsx:16 | the text after the first separator, up to the next or the end, holding no separator |
| InviteSection.ClientLink | src/app/_components/team/InviteSection.tsx:16 | starts with origin + "/teams/join" |
| InviteSection.MissingSeparatorRendersUndefined | src/app/_components/team/InviteSection.tsx:16 | without "join-team" the link ends in "undefined" |
| InviteSection.ServerLinkRewritten | src/app/_components/team/InviteSection.tsx:15-22 | the server's link for a hex token becomes origin + "/teams/join?token=" + token |
| InviteSection.Section.constructor | src/app/_components/team/InviteSection.tsx:12 | the link starts empty |
| InviteSection.Section.Generate | src/app/_components/team/InviteSection.tsx:32-34 | asks for this team's invite |
| InviteSection.Section.Settled | src/app/_components/team/InviteSection.tsx:15-29 | success stores the rewritten link, after which Copy replaces Generate; an error keeps the link |
| InviteSection.Section.Copy | src/app/_components/team/InviteSection.tsx:36-42 | writes exactly the stored link |

## Left out

- Rendering, styling, routing, query-cache invalidation and toasts are not modelled. The older orders screen is the exception: its toasts are its only report, so it keeps them as a log of alerts.
- Network transport (Axios, `fetch`) and logging: every HTTP call is an oracle that returns a reply or a failure.
- The Papa Parse tokeniser: the model starts from header-keyed rows, and a tokenising failure is an input.
- Reading a `File`'s text is an input too.
- `randomBytes`, `new Date()` and the mock's `setTimeout` delay are parameters.
- Prisma is not modelled as such:
  - tables are in-memory sequences and maps;
  - `createdAt` order is insertion order;
  - the primary key on order ids is a predicate (`Store.IdsUnique`) that the writing procedures are proved to preserve, not a constraint the tables enforce;
  - a `$transaction` is one step;
  - database failures are parameters.
- Concurrency: `Promise.allSettled` in `batchUpdateTracking` is a sequential loop. The counts do not depend on completion order.
- The asynchronous ordering of mutation callbacks: each settling is its own method call.
- Floating point is not modelled: KB sizes, percentages, and ColumnMatcher's confidence scores and thresholds.
- CsvPreview.View: `localeCompare` is an abstract string order `le`. The sort is a stable insertion sort under it, as `Array.prototype.sort` has been required to be stable since ECMAScript 2019.
- Common.ToLower: ASCII case folding only, not Unicode case folding.
- The text of a schema rejection is not modelled. tRPC sends it as a BAD_REQUEST whose message is zod's rendering of its issue list; the model keeps the list (`Trpc.InputRejected`: each failed check's path and the message written on it, or none where zod's default text applies) and leaves out the rendering and zod's default texts, which depend on its version.
- Lengths in zod checks count UTF-16 code units (`Common.Utf16Length`, one or two per character). Characters outside the Basic Multilingual Plane are not split into surrogate halves anywhere else.
- CSVFileUpload's `dragActive` flag and drop handlers affect only rendering.
- Order statuses are database enum values, kept as strings.
- The `batchUpdateAllOrders` procedure the orders table calls is not modelled: its server procedure is outside this model.
- The team `create` procedure takes a fresh team id as a parameter (`requires newId !in db.teams`), as the database generates it.
- OrderRouter.Import: requires a fresh import id and one order id per order. The database generates both.
- CsvPreview.Preview.Valid: states only that the page is not negative. The search term, filter and sort need no invariant.
- TeamRouter.GenerateInviteLink: the expiry is `now` plus 24 hours in milliseconds. The source adds 24 to the local hour (`setHours`), which differs by an hour across a daylight-saving change.
- OrderRouter.GetImportOrders: `page` is an integer. zod's `z.number().min(1)` also accepts a fractional page such as 1.5, which the model cannot express.
- InfoSimplesClient.Client.TrackPackage: the URL parser is an oracle, so which strings `new URL` rejects, and how it normalises the rest, is not modelled.
