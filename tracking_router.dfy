/** The tracking procedures (`trackingRouter`): look a code up, record the result on an order,
    and refresh many orders at once. The tracking service is an oracle `lookup`; the router in
    the repository is wired to the mock client, and the lemmas at the end specialise the
    procedures to it. */
module TrackingRouter {
  import opened Common
  import opened Trpc
  import opened Store
  import opened InfoSimples
  import opened InfoSimplesMockClient

  /** What asking the tracking service gives: a decoded response, or a thrown error. */
  datatype Lookup = Answered(response: ApiResponse) | LookupFailed

  /** What `getStatus` returns (`exists` is always true and is left out). */
  datatype StatusInfo = StatusInfo(status: string, lastUpdate: Option<string>, history: seq<HistoryEvent>)

  /** The `trackingInfo` part of what `updateTracking` returns; a missing first entry leaves
      its fields undefined. */
  datatype TrackingInfo = TrackingInfo(status: Option<string>, lastUpdate: Option<string>, history: seq<HistoryEvent>)

  /** What `updateTracking` returns. */
  datatype UpdateResult = UpdateResult(order: Order, trackingInfo: TrackingInfo)

  /** What `batchUpdateTracking` returns. */
  datatype BatchResult = BatchResult(totalProcessed: nat, successfulUpdates: nat)

  const SentStatus: string := "Enviado!"
  const NotFoundStatus: string := "Não encontrado."
  const UnknownStatus: string := "Unknown"
  const UnsentStatus: string := "Unsent"

  /** The "not found" test `getStatus` and `updateTracking` apply: a code other than 200 or a
      data count of zero. It is not quite the negation of `ReportsFound`, which asks for a
      positive count. */
  predicate ReportsMissing(response: ApiResponse) {
    response.code != 200 || response.dataCount == 0
  }

  /** The two tests leave one gap: code 200 with a negative data count passes neither. */
  lemma TestsLeaveNegativeCountGap(response: ApiResponse)
    ensures !ReportsFound(response) && !ReportsMissing(response) <==> response.code == 200 && response.dataCount < 0
    ensures response.dataCount >= 0 ==> (ReportsMissing(response) <==> !ReportsFound(response))
  {
  }

  /** The shipping status an order gets from a response. */
  function StatusFor(response: ApiResponse): (s: string)
    ensures s == SentStatus <==> ReportsFound(response)
    ensures s == NotFoundStatus <==> !ReportsFound(response)
  {
    if ReportsFound(response) then SentStatus else NotFoundStatus
  }

  /** `getStatus`: the situation and history of the first data entry of a found object. Every
      failure, the procedure's own NOT_FOUND included, leaves as an internal error. */
  function GetStatus(lookup: string -> Lookup, trackingCode: string): (r: Result<StatusInfo>)
    ensures TrimmedNonEmpty(trackingCode).None? ==> r == Err(Rejected("trackingCode", None))
    ensures r.Ok? <==> && TrimmedNonEmpty(trackingCode).Some?
                       && lookup(Trim(trackingCode)).Answered?
                       && !ReportsMissing(lookup(Trim(trackingCode)).response)
    ensures TrimmedNonEmpty(trackingCode).Some? && !r.Ok? ==>
      r == Err(TrpcError(InternalServerError, "Failed to fetch tracking information"))
    ensures r.Ok? ==> var data := lookup(Trim(trackingCode)).response.data;
      && (|data| > 0 ==> r.value == StatusInfo(data[0].situacao, Some(data[0].normalizadoDatahora), data[0].historico))
      && (|data| == 0 ==> r.value == StatusInfo(UnknownStatus, None, []))
  {
    match TrimmedNonEmpty(trackingCode)
    case None => Err(Rejected("trackingCode", None))
    case Some(code) =>
      match lookup(code)
      case LookupFailed => Err(TrpcError(InternalServerError, "Failed to fetch tracking information"))
      case Answered(info) =>
        if info.code != 200 || info.dataCount == 0 then
          Err(TrpcError(InternalServerError, "Failed to fetch tracking information"))
        else if |info.data| > 0 then
          Ok(StatusInfo(info.data[0].situacao, Some(info.data[0].normalizadoDatahora), info.data[0].historico))
        else
          Ok(StatusInfo(UnknownStatus, None, []))
  }

  /** `getStatus` never reports NOT_FOUND to its caller: an unknown code is an internal error. */
  lemma GetStatusNeverNotFound(lookup: string -> Lookup, trackingCode: string)
    ensures GetStatus(lookup, trackingCode).Err? ==> GetStatus(lookup, trackingCode).error.ErrorCode() != NotFound
  {
  }

  /** `verifyTrackingCode`: whether the code exists; a thrown check (`None`) is an internal error. */
  function VerifyTrackingCode(exists_: string -> Option<bool>, trackingCode: string): (r: Result<bool>)
    ensures TrimmedNonEmpty(trackingCode).None? ==> r == Err(Rejected("trackingCode", None))
    ensures TrimmedNonEmpty(trackingCode).Some? ==>
      && (exists_(Trim(trackingCode)).Some? ==> r == Ok(exists_(Trim(trackingCode)).value))
      && (exists_(Trim(trackingCode)).None? ==> r == Err(TrpcError(InternalServerError, "Failed to verify tracking code")))
  {
    match TrimmedNonEmpty(trackingCode)
    case None => Err(Rejected("trackingCode", None))
    case Some(code) =>
      match exists_(code)
      case Some(b) => Ok(b)
      case None => Err(TrpcError(InternalServerError, "Failed to verify tracking code"))
  }

  /** The position of the first order with id `id` that belongs to `user` (`findFirst`). */
  function FirstOwned(orders: seq<Order>, imports: seq<OrderImport>, id: OrderId, user: UserId): (r: Option<nat>)
    ensures r.Some? ==> r.value < |orders| && orders[r.value].id == id && OwnedIn(imports, orders[r.value], user)
    ensures r.Some? ==> forall j :: 0 <= j < r.value ==> !(orders[j].id == id && OwnedIn(imports, orders[j], user))
    ensures r.None? ==> forall j :: 0 <= j < |orders| ==> !(orders[j].id == id && OwnedIn(imports, orders[j], user))
  {
    if orders == [] then None
    else if orders[0].id == id && OwnedIn(imports, orders[0], user) then Some(0)
    else match FirstOwned(orders[1..], imports, id, user)
      case None => None
      case Some(k) => Some(k + 1)
  }

  /** `order.update({ where: { id } })` on the row at `i`: the row is replaced by one with the
      same id, so unique ids stay unique; no other table changes. */
  method WriteOrder(db: Db, i: nat, updated: Order)
    requires i < |db.orders| && updated.id == db.orders[i].id
    modifies db
    ensures db.orders == old(db.orders)[i := updated]
    ensures db.teams == old(db.teams) && db.members == old(db.members) && db.invites == old(db.invites)
    ensures db.imports == old(db.imports) && db.credentials == old(db.credentials)
    ensures IdsUnique(old(db.orders)) ==> IdsUnique(db.orders)
  {
    SameIdsKeepIdsUnique(db.orders, db.orders[i := updated]);
    db.orders := db.orders[i := updated];
  }

  /** With unique order ids, the row `FirstOwned` finds is the only row with that id, so the
      write `where: { id }` touches that row and no other. */
  lemma FirstOwnedIsOnlyRowWithId(orders: seq<Order>, imports: seq<OrderImport>, id: OrderId, user: UserId)
    requires IdsUnique(orders) && FirstOwned(orders, imports, id, user).Some?
    ensures forall j :: 0 <= j < |orders| && orders[j].id == id ==> j == FirstOwned(orders, imports, id, user).value
  {
  }

  /** The tracking information `updateTracking` reports for a found object. */
  function FoundInfo(response: ApiResponse): TrackingInfo {
    if |response.data| > 0 then
      TrackingInfo(Some(response.data[0].situacao), Some(response.data[0].normalizadoDatahora), response.data[0].historico)
    else TrackingInfo(None, None, [])
  }

  /** `updateTracking`: the order must belong to the caller before the service is asked; a
      found object records the code and "Enviado!", a missing one only "Não encontrado.", and
      the gap between the two tests answers "Unsent" without a write. */
  method UpdateTracking(db: Db, user: UserId, orderId: OrderId, trackingCode: string, lookup: string -> Lookup)
    returns (r: Result<UpdateResult>)
    modifies db
    ensures TrimmedNonEmpty(trackingCode).None? ==>
      r == Err(Rejected("trackingCode", None)) && unchanged(db)
    ensures TrimmedNonEmpty(trackingCode).Some? && FirstOwned(old(db.orders), old(db.imports), orderId, user).None? ==>
      r == Err(TrpcError(NotFound, "Order not found.")) && unchanged(db)
    ensures TrimmedNonEmpty(trackingCode).Some? && FirstOwned(old(db.orders), old(db.imports), orderId, user).Some? ==>
      var i := FirstOwned(old(db.orders), old(db.imports), orderId, user).value;
      var code := Trim(trackingCode);
      && (lookup(code).LookupFailed? ==>
            r == Err(TrpcError(InternalServerError, "Failed to update tracking information.")) && unchanged(db))
      && (lookup(code).Answered? && ReportsFound(lookup(code).response) ==>
            && db.orders == old(db.orders)[i := old(db.orders)[i].(trackingCode := Some(code), shippingStatus := SentStatus)]
            && r == Ok(UpdateResult(db.orders[i], FoundInfo(lookup(code).response))))
      && (lookup(code).Answered? && ReportsMissing(lookup(code).response) ==>
            && db.orders == old(db.orders)[i := old(db.orders)[i].(shippingStatus := NotFoundStatus)]
            && r == Ok(UpdateResult(db.orders[i], TrackingInfo(Some(NotFoundStatus), None, []))))
      && (lookup(code).Answered? && !ReportsFound(lookup(code).response) && !ReportsMissing(lookup(code).response) ==>
            && unchanged(db)
            && r == Ok(UpdateResult(old(db.orders)[i], TrackingInfo(Some(UnsentStatus), None, []))))
    ensures db.teams == old(db.teams) && db.members == old(db.members) && db.invites == old(db.invites)
    ensures db.imports == old(db.imports) && db.credentials == old(db.credentials)
    ensures IdsUnique(old(db.orders)) ==> IdsUnique(db.orders)
  {
    var input := TrimmedNonEmpty(trackingCode);
    if input.None? {
      return Err(Rejected("trackingCode", None));
    }
    var code := input.value;
    assert code == Trim(trackingCode);
    var found := FirstOwned(db.orders, db.imports, orderId, user);
    if found.None? {
      return Err(TrpcError(NotFound, "Order not found."));
    }
    var i := found.value;
    var reply := lookup(code);
    if reply.LookupFailed? {
      return Err(TrpcError(InternalServerError, "Failed to update tracking information."));
    }
    var info := reply.response;
    if info.code == 200 && info.dataCount > 0 {
      assert ReportsFound(info) && !ReportsMissing(info);
      var updated := db.orders[i].(trackingCode := Some(code), shippingStatus := SentStatus);
      WriteOrder(db, i, updated);
      return Ok(UpdateResult(updated, FoundInfo(info)));
    }
    assert !ReportsFound(info);
    if info.code != 200 || info.dataCount == 0 {
      assert ReportsMissing(info);
      var updated := db.orders[i].(shippingStatus := NotFoundStatus);
      WriteOrder(db, i, updated);
      return Ok(UpdateResult(updated, TrackingInfo(Some(NotFoundStatus), None, [])));
    }
    assert !ReportsMissing(info);
    r := Ok(UpdateResult(db.orders[i], TrackingInfo(Some(UnsentStatus), None, [])));
  }

  /** An order `batchUpdateTracking` processes: listed, carrying a code, owned by the caller. The
      query excludes only null codes, so an empty code is processed too. */
  predicate Selected(o: Order, ids: seq<OrderId>, imports: seq<OrderImport>, user: UserId) {
    o.id in ids && o.trackingCode.Some? && OwnedIn(imports, o, user)
  }

  /** A processed order whose code is truthy: only these are looked up; an empty code returns
      null before the service is asked. */
  predicate LookedUp(o: Order, ids: seq<OrderId>, imports: seq<OrderImport>, user: UserId) {
    Selected(o, ids, imports, user) && o.trackingCode.value != ""
  }

  /** One order after the batch: a looked-up order whose lookup answered gets the status of the
      answer; every other order stays as it was, a processed one with an empty code included. */
  function Refreshed(o: Order, ids: seq<OrderId>, imports: seq<OrderImport>, user: UserId, lookup: string -> Lookup): (r: Order)
    ensures r.id == o.id && r.orderNumber == o.orderNumber && r.trackingCode == o.trackingCode && r.importId == o.importId
    ensures !Selected(o, ids, imports, user) ==> r == o
    ensures Selected(o, ids, imports, user) && o.trackingCode.value == "" ==> r == o
    ensures LookedUp(o, ids, imports, user) && lookup(o.trackingCode.value).LookupFailed? ==> r == o
    ensures LookedUp(o, ids, imports, user) && lookup(o.trackingCode.value).Answered? ==>
      r.shippingStatus == StatusFor(lookup(o.trackingCode.value).response)
  {
    if LookedUp(o, ids, imports, user) && lookup(o.trackingCode.value).Answered? then
      o.(shippingStatus := StatusFor(lookup(o.trackingCode.value).response))
    else o
  }

  /** The orders table after the batch. */
  function BatchEffect(orders: seq<Order>, ids: seq<OrderId>, imports: seq<OrderImport>, user: UserId, lookup: string -> Lookup): (r: seq<Order>)
    ensures |r| == |orders|
    ensures forall j :: 0 <= j < |orders| ==> r[j] == Refreshed(orders[j], ids, imports, user, lookup)
  {
    if orders == [] then []
    else BatchEffect(orders[..|orders| - 1], ids, imports, user, lookup)
         + [Refreshed(orders[|orders| - 1], ids, imports, user, lookup)]
  }

  /** How many orders the batch selects (`orders.length`). */
  function CountSelected(orders: seq<Order>, ids: seq<OrderId>, imports: seq<OrderImport>, user: UserId): (n: nat)
    ensures n <= |orders|
  {
    if orders == [] then 0
    else CountSelected(orders[..|orders| - 1], ids, imports, user)
         + (if Selected(orders[|orders| - 1], ids, imports, user) then 1 else 0)
  }

  /** How many selected orders are looked up, those with a non-empty code. */
  function CountLookedUp(orders: seq<Order>, ids: seq<OrderId>, imports: seq<OrderImport>, user: UserId): nat
  {
    if orders == [] then 0
    else CountLookedUp(orders[..|orders| - 1], ids, imports, user)
         + (if LookedUp(orders[|orders| - 1], ids, imports, user) then 1 else 0)
  }

  /** How many looked-up orders get an answer from the service. */
  function CountAnswered(orders: seq<Order>, ids: seq<OrderId>, imports: seq<OrderImport>, user: UserId, lookup: string -> Lookup): nat
  {
    if orders == [] then 0
    else CountAnswered(orders[..|orders| - 1], ids, imports, user, lookup)
         + (var o := orders[|orders| - 1];
            if LookedUp(o, ids, imports, user) && lookup(o.trackingCode.value).Answered? then 1 else 0)
  }

  /** Successes never exceed the looked-up orders, which never exceed the processed ones; the
      two counts agree exactly when no processed order has an empty code. */
  lemma {:induction false} AnsweredAtMostSelected(orders: seq<Order>, ids: seq<OrderId>, imports: seq<OrderImport>, user: UserId, lookup: string -> Lookup)
    ensures CountAnswered(orders, ids, imports, user, lookup) <= CountLookedUp(orders, ids, imports, user)
    ensures CountLookedUp(orders, ids, imports, user) <= CountSelected(orders, ids, imports, user)
    ensures CountLookedUp(orders, ids, imports, user) == CountSelected(orders, ids, imports, user) <==>
      forall j :: 0 <= j < |orders| && Selected(orders[j], ids, imports, user) ==> orders[j].trackingCode.value != ""
  {
    if orders != [] {
      var init := orders[..|orders| - 1];
      AnsweredAtMostSelected(init, ids, imports, user, lookup);
      assert forall j :: 0 <= j < |init| ==> init[j] == orders[j];
    }
  }

  /** When the service always answers, every looked-up order is a success. */
  lemma {:induction false} AllAnsweredWhenLookupTotal(orders: seq<Order>, ids: seq<OrderId>, imports: seq<OrderImport>, user: UserId, lookup: string -> Lookup)
    requires forall c :: lookup(c).Answered?
    ensures CountAnswered(orders, ids, imports, user, lookup) == CountLookedUp(orders, ids, imports, user)
  {
    if orders != [] {
      AllAnsweredWhenLookupTotal(orders[..|orders| - 1], ids, imports, user, lookup);
    }
  }

  /** The counts over one more order of the table. */
  lemma CountStep(orders: seq<Order>, i: nat, ids: seq<OrderId>, imports: seq<OrderImport>, user: UserId, lookup: string -> Lookup)
    requires i < |orders|
    ensures CountSelected(orders[..i + 1], ids, imports, user)
         == CountSelected(orders[..i], ids, imports, user) + (if Selected(orders[i], ids, imports, user) then 1 else 0)
    ensures CountAnswered(orders[..i + 1], ids, imports, user, lookup)
         == CountAnswered(orders[..i], ids, imports, user, lookup)
            + (if LookedUp(orders[i], ids, imports, user) && lookup(orders[i].trackingCode.value).Answered? then 1 else 0)
  {
    assert orders[..i + 1][..i] == orders[..i];
  }

  /** A table refreshed order by order is the effect of the batch. */
  lemma PointwiseIsBatchEffect(orders: seq<Order>, table: seq<Order>, ids: seq<OrderId>, imports: seq<OrderImport>, user: UserId, lookup: string -> Lookup)
    requires |table| == |orders|
    requires forall j :: 0 <= j < |orders| ==> table[j] == Refreshed(orders[j], ids, imports, user, lookup)
    ensures table == BatchEffect(orders, ids, imports, user, lookup)
  {
    var effect := BatchEffect(orders, ids, imports, user, lookup);
    assert forall j :: 0 <= j < |orders| ==> table[j] == effect[j];
  }

  /** The callback `batchUpdateTracking` runs for each order it found: `null` (None) for an
      empty code or a failed lookup, otherwise the order with the status of the answer. */
  method UpdateOne(o: Order, ids: seq<OrderId>, imports: seq<OrderImport>, user: UserId, lookup: string -> Lookup)
    returns (updated: Option<Order>)
    requires Selected(o, ids, imports, user)
    ensures updated.Some? <==> o.trackingCode.value != "" && lookup(o.trackingCode.value).Answered?
    ensures updated.Some? ==> updated.value == Refreshed(o, ids, imports, user, lookup)
    ensures updated.None? ==> Refreshed(o, ids, imports, user, lookup) == o
  {
    if o.trackingCode.value == "" {
      return None;
    }
    var reply := lookup(o.trackingCode.value);
    if reply.LookupFailed? {
      return None;
    }
    updated := Some(o.(shippingStatus := StatusFor(reply.response)));
  }

  /** One order of the table in `batchUpdateTracking`: a selected order is processed and goes
      through the callback; the order as it leaves, and whether it counts as processed and as
      a success. */
  method ProcessOne(o: Order, ids: seq<OrderId>, imports: seq<OrderImport>, user: UserId, lookup: string -> Lookup)
    returns (r: Order, processed: nat, succeeded: nat)
    ensures r == Refreshed(o, ids, imports, user, lookup)
    ensures processed == if Selected(o, ids, imports, user) then 1 else 0
    ensures succeeded == if LookedUp(o, ids, imports, user) && lookup(o.trackingCode.value).Answered? then 1 else 0
  {
    r, processed, succeeded := o, 0, 0;
    if Selected(o, ids, imports, user) {
      processed := 1;
      var updated := UpdateOne(o, ids, imports, user, lookup);
      if updated.Some? {
        r, succeeded := updated.value, 1;
      }
    }
  }

  /** The updates of `batchUpdateTracking` over the orders it read, one order at a time: the
      new table and the two counts. An order with an empty code and one whose lookup failed are
      counted as processed but not as a success. */
  method RefreshAll(orders: seq<Order>, ids: seq<OrderId>, imports: seq<OrderImport>, user: UserId, lookup: string -> Lookup)
    returns (table: seq<Order>, total: nat, successes: nat)
    ensures table == BatchEffect(orders, ids, imports, user, lookup)
    ensures total == CountSelected(orders, ids, imports, user)
    ensures successes == CountAnswered(orders, ids, imports, user, lookup)
  {
    table := orders;
    total, successes := 0, 0;
    var i := 0;
    while i < |orders|
      invariant 0 <= i <= |orders| == |table|
      invariant forall j :: 0 <= j < i ==> table[j] == Refreshed(orders[j], ids, imports, user, lookup)
      invariant forall j :: i <= j < |orders| ==> table[j] == orders[j]
      invariant total == CountSelected(orders[..i], ids, imports, user)
      invariant successes == CountAnswered(orders[..i], ids, imports, user, lookup)
    {
      CountStep(orders, i, ids, imports, user, lookup);
      var o, processed, succeeded := ProcessOne(orders[i], ids, imports, user, lookup);
      table := table[i := o];
      total, successes := total + processed, successes + succeeded;
      i := i + 1;
    }
    assert orders[..i] == orders;
    PointwiseIsBatchEffect(orders, table, ids, imports, user, lookup);
  }

  /** `batchUpdateTracking`: the caller's listed orders with a code are refreshed and counted;
      nothing but the orders table changes. */
  method BatchUpdateTracking(db: Db, user: UserId, orderIds: seq<OrderId>, lookup: string -> Lookup)
    returns (r: BatchResult)
    modifies db
    ensures db.orders == BatchEffect(old(db.orders), orderIds, old(db.imports), user, lookup)
    ensures r.totalProcessed == CountSelected(old(db.orders), orderIds, old(db.imports), user)
    ensures r.successfulUpdates == CountAnswered(old(db.orders), orderIds, old(db.imports), user, lookup)
    ensures r.successfulUpdates <= r.totalProcessed
    ensures db.teams == old(db.teams) && db.members == old(db.members) && db.invites == old(db.invites)
    ensures db.imports == old(db.imports) && db.credentials == old(db.credentials)
    ensures IdsUnique(old(db.orders)) ==> IdsUnique(db.orders)
  {
    var table, total, successes := RefreshAll(db.orders, orderIds, db.imports, user, lookup);
    AnsweredAtMostSelected(db.orders, orderIds, db.imports, user, lookup);
    BatchKeepsIdsUnique(db.orders, orderIds, db.imports, user, lookup);
    db.orders := table;
    r := BatchResult(total, successes);
  }

  /** The batch changes statuses only: every row keeps its id, so unique ids stay unique. */
  lemma BatchKeepsIdsUnique(orders: seq<Order>, ids: seq<OrderId>, imports: seq<OrderImport>, user: UserId, lookup: string -> Lookup)
    ensures forall j :: 0 <= j < |orders| ==> BatchEffect(orders, ids, imports, user, lookup)[j].id == orders[j].id
    ensures IdsUnique(orders) ==> IdsUnique(BatchEffect(orders, ids, imports, user, lookup))
  {
    SameIdsKeepIdsUnique(orders, BatchEffect(orders, ids, imports, user, lookup));
  }

  /** Running the batch again changes nothing: selection does not look at the status, and each
      selected order gets the status of the same answer. */
  lemma BatchIdempotent(orders: seq<Order>, ids: seq<OrderId>, imports: seq<OrderImport>, user: UserId, lookup: string -> Lookup)
    ensures BatchEffect(BatchEffect(orders, ids, imports, user, lookup), ids, imports, user, lookup)
         == BatchEffect(orders, ids, imports, user, lookup)
  {
  }

  /** The tracking service the router is wired to: the mock client, which always answers. */
  function MockLookup(client: MockClient, clock: Clock): (lookup: string -> Lookup)
    ensures forall c :: lookup(c).Answered?
  {
    c => Answered(client.TrackPackage(c, clock))
  }

  /** With the mock client, `getStatus` finds exactly the codes that start with "OK" after
      trimming, and reports the mock's in-transit situation for them. */
  lemma GetStatusWithMock(client: MockClient, clock: Clock, trackingCode: string)
    requires TrimmedNonEmpty(trackingCode).Some?
    ensures GetStatus(MockLookup(client, clock), trackingCode).Ok? <==> StartsWith(Trim(trackingCode), "OK")
    ensures GetStatus(MockLookup(client, clock), trackingCode).Ok? ==>
      GetStatus(MockLookup(client, clock), trackingCode).value.status == FoundSituation
  {
    client.ExistsIffLookupFinds(Trim(trackingCode), clock);
  }

  /** With the mock client every looked-up order of a batch is a success, so successes equal the
      processed count exactly when no processed order has an empty code. */
  lemma BatchWithMockSucceedsForAll(client: MockClient, clock: Clock, orders: seq<Order>, ids: seq<OrderId>, imports: seq<OrderImport>, user: UserId)
    ensures CountAnswered(orders, ids, imports, user, MockLookup(client, clock)) == CountLookedUp(orders, ids, imports, user)
    ensures CountAnswered(orders, ids, imports, user, MockLookup(client, clock)) == CountSelected(orders, ids, imports, user) <==>
      forall j :: 0 <= j < |orders| && Selected(orders[j], ids, imports, user) ==> orders[j].trackingCode.value != ""
  {
    AllAnsweredWhenLookupTotal(orders, ids, imports, user, MockLookup(client, clock));
    AnsweredAtMostSelected(orders, ids, imports, user, MockLookup(client, clock));
  }

  /** An order with an empty code, listed and owned, is processed but neither looked up nor
      updated: it counts once in `totalProcessed` and never in `successfulUpdates`. */
  lemma EmptyCodeProcessedNotUpdated(o: Order, ids: seq<OrderId>, imports: seq<OrderImport>, user: UserId, lookup: string -> Lookup)
    requires o.id in ids && o.trackingCode == Some("") && OwnedIn(imports, o, user)
    ensures BatchEffect([o], ids, imports, user, lookup) == [o]
    ensures CountSelected([o], ids, imports, user) == 1
    ensures CountAnswered([o], ids, imports, user, lookup) == 0
  {
    assert [o][..0] == [];
  }
}
