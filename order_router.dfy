/** The order procedures (`orderRouter`): import a parsed CSV as one import record with its
    orders, list a user's imports newest first, and page through the orders of one import.
    The identifiers the database generates are parameters, and so is a failing write. */
module OrderRouter {
  import opened Common
  import opened Seqs
  import opened Trpc
  import opened Store

  const ProcessingStatus: string := "processing"
  const CompletedStatus: string := "completed"
  const PerPage: nat := 10
  const SummarySize: nat := 5

  /** One order as the client sends it. */
  datatype OrderInput = OrderInput(orderNumber: string, shippingStatus: string, trackingCode: Option<string>)

  /** Which write of `import` fails, with the message of the database error. There is no catch
      in the procedure, so the error leaves as an internal error carrying that message. */
  datatype ImportFault = NoFault | CreateFails(message: string) | CreateManyFails(message: string) | UpdateFails(message: string)

  /** What `import` returns. */
  datatype ImportResult = ImportResult(importId: ImportId, totalOrders: nat)

  /** An import with the number of its orders (`_count.orders`). */
  datatype ImportSummary = ImportSummary(orderImport: OrderImport, orderCount: nat)

  /** `orderSchema`: the number and the status trimmed and non-empty, the code trimmed. */
  function ParseOrderInput(o: OrderInput): (r: Option<OrderInput>)
    ensures r.Some? <==> TrimmedNonEmpty(o.orderNumber).Some? && TrimmedNonEmpty(o.shippingStatus).Some?
    ensures r.Some? ==> r.value == OrderInput(Trim(o.orderNumber), Trim(o.shippingStatus),
                                              if o.trackingCode.Some? then Some(Trim(o.trackingCode.value)) else None)
  {
    match (TrimmedNonEmpty(o.orderNumber), TrimmedNonEmpty(o.shippingStatus))
    case (Some(n), Some(s)) => Some(OrderInput(n, s, if o.trackingCode.Some? then Some(Trim(o.trackingCode.value)) else None))
    case _ => None
  }

  /** Every order through `orderSchema`; one failure fails the whole list. */
  function ParseOrderInputs(orders: seq<OrderInput>): (r: Option<seq<OrderInput>>)
    ensures r.Some? <==> forall k :: 0 <= k < |orders| ==> ParseOrderInput(orders[k]).Some?
    ensures r.Some? ==> |r.value| == |orders| && forall k :: 0 <= k < |orders| ==> r.value[k] == ParseOrderInput(orders[k]).value
  {
    if forall k :: 0 <= k < |orders| ==> ParseOrderInput(orders[k]).Some? then Some(Map(ParsedOrSelf, orders))
    else None
  }

  /** The parsed order, or the order itself where it does not parse. */
  function ParsedOrSelf(o: OrderInput): OrderInput {
    match ParseOrderInput(o)
    case Some(p) => p
    case None => o
  }

  /** The input of `import` after its schema. */
  datatype ImportInput = ImportInput(fileName: string, orders: seq<OrderInput>)

  /** The issues `orderSchema` reports for the order at position `index` of the list: a blank
      number, then a blank status. */
  function OrderIssues(o: OrderInput, index: nat): (r: seq<Issue>)
    ensures r == [] <==> ParseOrderInput(o).Some?
    ensures TrimmedNonEmpty(o.orderNumber).None? ==> r[0] == Issue([Key("orders"), Index(index), Key("orderNumber")], None)
  {
    (if TrimmedNonEmpty(o.orderNumber).None? then [Issue([Key("orders"), Index(index), Key("orderNumber")], None)] else [])
    + (if TrimmedNonEmpty(o.shippingStatus).None? then [Issue([Key("orders"), Index(index), Key("shippingStatus")], None)] else [])
  }

  /** The issues of the orders from position `from` on, in list order. */
  function OrdersIssues(orders: seq<OrderInput>, from: nat): seq<Issue>
    requires from <= |orders|
    decreases |orders| - from
  {
    if from == |orders| then [] else OrderIssues(orders[from], from) + OrdersIssues(orders, from + 1)
  }

  /** Orders that all parse report no issue. */
  lemma {:induction false} OrdersIssuesEmptyWhenAllParse(orders: seq<OrderInput>, from: nat)
    requires from <= |orders|
    requires forall k :: from <= k < |orders| ==> ParseOrderInput(orders[k]).Some?
    ensures OrdersIssues(orders, from) == []
    decreases |orders| - from
  {
    if from < |orders| {
      OrdersIssuesEmptyWhenAllParse(orders, from + 1);
      var first := OrderIssues(orders[from], from);
      assert ParseOrderInput(orders[from]).Some?;
      assert first == [];
      assert OrdersIssues(orders, from) == first + OrdersIssues(orders, from + 1);
    }
  }

  /** An order that does not parse is reported, whatever the others do. */
  lemma {:induction false} OrdersIssuesReportFailure(orders: seq<OrderInput>, from: nat, k: nat)
    requires from <= k < |orders| && ParseOrderInput(orders[k]).None?
    ensures OrdersIssues(orders, from) != []
    decreases k - from
  {
    var first := OrderIssues(orders[from], from);
    assert OrdersIssues(orders, from) == first + OrdersIssues(orders, from + 1);
    if from < k {
      OrdersIssuesReportFailure(orders, from + 1, k);
    } else {
      assert first != [];
    }
  }

  /** The orders from position `from` on report no issue exactly when each of them parses. */
  lemma OrdersIssuesEmptyIff(orders: seq<OrderInput>, from: nat)
    requires from <= |orders|
    ensures OrdersIssues(orders, from) == [] <==> forall k :: from <= k < |orders| ==> ParseOrderInput(orders[k]).Some?
  {
    if forall k :: from <= k < |orders| ==> ParseOrderInput(orders[k]).Some? {
      OrdersIssuesEmptyWhenAllParse(orders, from);
    } else {
      var k :| from <= k < |orders| && ParseOrderInput(orders[k]).None?;
      OrdersIssuesReportFailure(orders, from, k);
    }
  }

  /** Every issue `importOrdersSchema` reports, in the order zod finds them: the file name, the
      length of the list, then each order in turn. */
  function ImportIssues(fileName: string, orders: seq<OrderInput>): (r: seq<Issue>)
    ensures r == [] <==> TrimmedNonEmpty(fileName).Some? && |orders| >= 1 && ParseOrderInputs(orders).Some?
  {
    OrdersIssuesEmptyIff(orders, 0);
    IssueIf(TrimmedNonEmpty(fileName).None?, "fileName", None) + IssueIf(|orders| < 1, "orders", None)
    + OrdersIssues(orders, 0)
  }

  /** An order with a blank number is reported at its own position, whatever else fails. */
  lemma {:induction false} OrdersIssuesNameBlankNumber(orders: seq<OrderInput>, from: nat, k: nat)
    requires from <= k < |orders| && TrimmedNonEmpty(orders[k].orderNumber).None?
    ensures Issue([Key("orders"), Index(k), Key("orderNumber")], None) in OrdersIssues(orders, from)
    decreases k - from
  {
    var first := OrderIssues(orders[from], from);
    assert OrdersIssues(orders, from) == first + OrdersIssues(orders, from + 1);
    if from < k {
      OrdersIssuesNameBlankNumber(orders, from + 1, k);
    } else {
      assert first[0] in OrdersIssues(orders, from);
    }
  }

  /** `importOrdersSchema`: a trimmed non-empty file name and at least one valid order; a
      rejection lists every failed check. */
  function ParseImportInput(fileName: string, orders: seq<OrderInput>): (r: Result<ImportInput>)
    ensures r.Ok? <==> && TrimmedNonEmpty(fileName).Some? && |orders| >= 1
                       && ParseOrderInputs(orders).Some?
    ensures r.Ok? ==> r.value == ImportInput(Trim(fileName), ParseOrderInputs(orders).value)
    ensures r.Err? ==> r.error == InputRejected(ImportIssues(fileName, orders)) && r.error.issues != []
  {
    match (TrimmedNonEmpty(fileName), ParseOrderInputs(orders))
    case (Some(name), Some(parsed)) =>
      if |orders| < 1 then Err(InputRejected(ImportIssues(fileName, orders))) else Ok(ImportInput(name, parsed))
    case _ => Err(InputRejected(ImportIssues(fileName, orders)))
  }

  /** An order with a blank number rejects the import, and the rejection names that order. */
  lemma BlankNumberNamedInRejection(fileName: string, orders: seq<OrderInput>, k: nat)
    requires k < |orders| && TrimmedNonEmpty(orders[k].orderNumber).None?
    ensures ParseImportInput(fileName, orders).Err?
    ensures ParseImportInput(fileName, orders).error.ErrorCode() == BadRequest
    ensures Issue([Key("orders"), Index(k), Key("orderNumber")], None) in ParseImportInput(fileName, orders).error.issues
  {
    OrdersIssuesNameBlankNumber(orders, 0, k);
  }

  /** The rows `createMany` inserts: one per input order, in order, linked to the import. */
  function NewOrders(inputs: seq<OrderInput>, ids: seq<OrderId>, importId: ImportId): (rows: seq<Order>)
    requires |ids| == |inputs|
    ensures |rows| == |inputs|
    ensures forall k :: 0 <= k < |inputs| ==>
      rows[k] == Order(ids[k], inputs[k].orderNumber, inputs[k].shippingStatus, inputs[k].trackingCode, importId)
  {
    seq(|inputs|, k requires 0 <= k < |inputs| =>
      Order(ids[k], inputs[k].orderNumber, inputs[k].shippingStatus, inputs[k].trackingCode, importId))
  }

  /** Rows inserted under ids the database hands out keep the order ids unique. */
  lemma NewOrdersKeepIdsUnique(orders: seq<Order>, inputs: seq<OrderInput>, ids: seq<OrderId>, importId: ImportId)
    requires |ids| == |inputs| && IdsUnique(orders) && FreshIds(ids, orders)
    ensures IdsUnique(orders + NewOrders(inputs, ids, importId))
  {
    AppendFreshKeepsIdsUnique(orders, NewOrders(inputs, ids, importId), ids);
  }

  /** `import`: the import record is created as "processing", its orders are inserted, then it is
      marked "completed". A failure stops the sequence where it happens: after the first write the
      record stays "processing". */
  method Import(db: Db, user: UserId, fileName: string, orders: seq<OrderInput>,
                importId: ImportId, orderIds: seq<OrderId>, fault: ImportFault)
    returns (r: Result<ImportResult>)
    requires |orderIds| == |orders|
    requires forall k :: 0 <= k < |db.imports| ==> db.imports[k].id != importId
    modifies db
    ensures ParseImportInput(fileName, orders).Err? ==> r == Err(InputRejected(ImportIssues(fileName, orders))) && unchanged(db)
    ensures ParseImportInput(fileName, orders).Ok? ==>
      var input := ParseImportInput(fileName, orders).value;
      var name := input.fileName;
      var rows := NewOrders(input.orders, orderIds, importId);
      && (fault.CreateFails? ==> r == Err(TrpcError(InternalServerError, fault.message)) && unchanged(db))
      && (fault.CreateManyFails? ==>
            && r == Err(TrpcError(InternalServerError, fault.message))
            && db.imports == old(db.imports) + [OrderImport(importId, name, ProcessingStatus, user)]
            && db.orders == old(db.orders))
      && (fault.UpdateFails? ==>
            && r == Err(TrpcError(InternalServerError, fault.message))
            && db.imports == old(db.imports) + [OrderImport(importId, name, ProcessingStatus, user)]
            && db.orders == old(db.orders) + rows)
      && (fault.NoFault? ==>
            && r == Ok(ImportResult(importId, |orders|))
            && db.imports == old(db.imports) + [OrderImport(importId, name, CompletedStatus, user)]
            && db.orders == old(db.orders) + rows)
    ensures db.teams == old(db.teams) && db.members == old(db.members) && db.invites == old(db.invites)
    ensures db.credentials == old(db.credentials)
    ensures IdsUnique(old(db.orders)) && FreshIds(orderIds, old(db.orders)) ==> IdsUnique(db.orders)
  {
    var input := ParseImportInput(fileName, orders);
    if input.Err? {
      return Err(input.error);
    }
    r := WriteImport(db, user, input.value.fileName, input.value.orders, importId, orderIds, fault);
  }

  /** The three writes of `import` after its input passed the schema, stopping at the first
      failing one. */
  method WriteImport(db: Db, user: UserId, name: string, parsed: seq<OrderInput>,
                     importId: ImportId, orderIds: seq<OrderId>, fault: ImportFault)
    returns (r: Result<ImportResult>)
    requires |orderIds| == |parsed|
    modifies db
    ensures var rows := NewOrders(parsed, orderIds, importId);
      && (fault.CreateFails? ==> r == Err(TrpcError(InternalServerError, fault.message)) && unchanged(db))
      && (fault.CreateManyFails? ==>
            && r == Err(TrpcError(InternalServerError, fault.message))
            && db.imports == old(db.imports) + [OrderImport(importId, name, ProcessingStatus, user)]
            && db.orders == old(db.orders))
      && (fault.UpdateFails? ==>
            && r == Err(TrpcError(InternalServerError, fault.message))
            && db.imports == old(db.imports) + [OrderImport(importId, name, ProcessingStatus, user)]
            && db.orders == old(db.orders) + rows)
      && (fault.NoFault? ==>
            && r == Ok(ImportResult(importId, |parsed|))
            && db.imports == old(db.imports) + [OrderImport(importId, name, CompletedStatus, user)]
            && db.orders == old(db.orders) + rows)
    ensures db.teams == old(db.teams) && db.members == old(db.members) && db.invites == old(db.invites)
    ensures db.credentials == old(db.credentials)
    ensures IdsUnique(old(db.orders)) && FreshIds(orderIds, old(db.orders)) ==> IdsUnique(db.orders)
  {
    if fault.CreateFails? {
      return Err(TrpcError(InternalServerError, fault.message));
    }
    var before := db.imports;
    db.imports := before + [OrderImport(importId, name, ProcessingStatus, user)];
    if fault.CreateManyFails? {
      return Err(TrpcError(InternalServerError, fault.message));
    }
    var rows := NewOrders(parsed, orderIds, importId);
    if IdsUnique(db.orders) && FreshIds(orderIds, db.orders) {
      NewOrdersKeepIdsUnique(db.orders, parsed, orderIds, importId);
    }
    db.orders := db.orders + rows;
    if fault.UpdateFails? {
      return Err(TrpcError(InternalServerError, fault.message));
    }
    db.imports := before + [OrderImport(importId, name, CompletedStatus, user)];
    r := Ok(ImportResult(importId, |rows|));
  }

  /** A completed import can be read back: its record is found by id, it belongs to the caller,
      and its orders are exactly the inserted rows. */
  lemma ImportedOrdersReadBack(imports: seq<OrderImport>, orders: seq<Order>, user: UserId, name: string,
                               parsed: seq<OrderInput>, importId: ImportId, orderIds: seq<OrderId>)
    requires |orderIds| == |parsed|
    requires forall k :: 0 <= k < |imports| ==> imports[k].id != importId
    requires forall k :: 0 <= k < |orders| ==> orders[k].importId != importId
    ensures var imports' := imports + [OrderImport(importId, name, CompletedStatus, user)];
            var orders' := orders + NewOrders(parsed, orderIds, importId);
            && FindImportIn(imports', importId) == Some(OrderImport(importId, name, CompletedStatus, user))
            && Filter((o: Order) => o.importId == importId, orders') == NewOrders(parsed, orderIds, importId)
  {
    var imports' := imports + [OrderImport(importId, name, CompletedStatus, user)];
    FindAfterFreshImport(imports, importId, OrderImport(importId, name, CompletedStatus, user));
    var rows := NewOrders(parsed, orderIds, importId);
    var p := (o: Order) => o.importId == importId;
    FilterConcat(p, orders, rows);
    FilterNone(p, orders);
    FilterKeepsAll(p, rows);
  }

  /** Searching past imports with other ids finds the appended one. */
  lemma {:induction false} FindAfterFreshImport(imports: seq<OrderImport>, id: ImportId, imp: OrderImport)
    requires imp.id == id
    requires forall k :: 0 <= k < |imports| ==> imports[k].id != id
    ensures FindImportIn(imports + [imp], id) == Some(imp)
  {
    if imports != [] {
      assert (imports + [imp])[1..] == imports[1..] + [imp];
      FindAfterFreshImport(imports[1..], id, imp);
    }
  }

  /** Filtering keeps nothing when no element passes. */
  lemma {:induction false} FilterNone<T>(p: T -> bool, s: seq<T>)
    requires forall k :: 0 <= k < |s| ==> !p(s[k])
    ensures Filter(p, s) == []
  {
    if s != [] {
      FilterNone(p, s[1..]);
    }
  }

  /** How many orders link to the import `id`. */
  function OrderCount(orders: seq<Order>, id: ImportId): nat {
    |Filter((o: Order) => o.importId == id, orders)|
  }

  /** The caller's imports in creation order. */
  function MyImports(imports: seq<OrderImport>, user: UserId): seq<OrderImport> {
    Filter((i: OrderImport) => i.userId == user, imports)
  }

  /** The import records a listing shows, in its order. */
  function Listed(r: seq<ImportSummary>): seq<OrderImport> {
    Map((s: ImportSummary) => s.orderImport, r)
  }

  /** `listImports`: the caller's imports, newest first, each with its order count. */
  function ListImports(db: Db, user: UserId): (r: seq<ImportSummary>)
    reads db
    ensures |r| == |MyImports(db.imports, user)|
    ensures forall k :: 0 <= k < |r| ==> r[k].orderImport.userId == user && r[k].orderImport in db.imports
    ensures forall k :: 0 <= k < |r| ==> r[k].orderCount == OrderCount(db.orders, r[k].orderImport.id)
    ensures forall k :: 0 <= k < |db.imports| && db.imports[k].userId == user ==>
      exists j :: 0 <= j < |r| && r[j].orderImport == db.imports[k]
  {
    var orders := db.orders;
    var mine := Reverse(MyImports(db.imports, user));
    ReverseHasAll(MyImports(db.imports, user));
    Map((i: OrderImport) => ImportSummary(i, OrderCount(orders, i.id)), mine)
  }

  /** Every element of a sequence is in its reverse. */
  lemma ReverseHasAll<T>(s: seq<T>)
    ensures forall x :: x in s ==> x in Reverse(s)
  {
    forall x | x in s ensures x in Reverse(s) {
      var k :| 0 <= k < |s| && s[k] == x;
      assert Reverse(s)[|s| - 1 - k] == x;
    }
  }

  /** Reversing twice gives the sequence back. */
  lemma ReverseReverse<T>(s: seq<T>)
    ensures Reverse(Reverse(s)) == s
  {
    assert forall i :: 0 <= i < |s| ==> Reverse(Reverse(s))[i] == Reverse(s)[|s| - 1 - i] == s[i];
  }

  /** `orderBy: { createdAt: "desc" }`: with the table in creation order, the listing read from
      its last entry back is exactly the caller's imports in the order they were created, so each
      listed import was created after every import listed below it. */
  lemma ListImportsNewestFirst(db: Db, user: UserId)
    ensures Reverse(Listed(ListImports(db, user))) == MyImports(db.imports, user)
    ensures IsSubsequence(Reverse(Listed(ListImports(db, user))), db.imports)
  {
    var mine := MyImports(db.imports, user);
    var r := ListImports(db, user);
    assert Listed(r) == Reverse(mine) by {
      forall k | 0 <= k < |r| ensures Listed(r)[k] == Reverse(mine)[k] {
        assert Listed(r)[k] == r[k].orderImport;
      }
    }
    ReverseReverse(mine);
    FilterIsSubsequence((i: OrderImport) => i.userId == user, db.imports);
  }

  /** `getImportsSummary`: the five newest imports, as `listImports` lists them. */
  function GetImportsSummary(db: Db, user: UserId): (r: seq<ImportSummary>)
    reads db
    ensures |r| == if |ListImports(db, user)| < SummarySize then |ListImports(db, user)| else SummarySize
    ensures r == ListImports(db, user)[..|r|]
  {
    var all := ListImports(db, user);
    if |all| <= SummarySize then all else all[..SummarySize]
  }

  /** The summary holds the latest imports: read from its last entry back, it is the tail of the
      caller's imports in creation order, at most five long. */
  lemma SummaryIsLatest(db: Db, user: UserId)
    ensures var mine := MyImports(db.imports, user);
      var r := GetImportsSummary(db, user);
      && |r| <= |mine|
      && Reverse(Listed(r)) == mine[|mine| - |r|..]
  {
    ListImportsNewestFirst(db, user);
    LatestPrefix(ListImports(db, user), MyImports(db.imports, user), GetImportsSummary(db, user));
  }

  /** A prefix of a listing whose reverse is `mine` reads back as a suffix of `mine`. */
  lemma LatestPrefix(all: seq<ImportSummary>, mine: seq<OrderImport>, r: seq<ImportSummary>)
    requires Reverse(Listed(all)) == mine
    requires |r| <= |all| && r == all[..|r|]
    ensures |r| <= |mine| && Reverse(Listed(r)) == mine[|mine| - |r|..]
  {
    var n := |mine|;
    var m := |r|;
    var latest := Reverse(Listed(r));
    forall k | 0 <= k < m ensures latest[k] == mine[n - m + k] {
      var j := m - 1 - k;
      assert latest[k] == Listed(r)[j] == r[j].orderImport;
      assert r[j] == all[j];
      assert mine[n - m + k] == Listed(all)[j] == all[j].orderImport;
    }
  }

  /** The caller's orders of one import, in creation order. */
  function MyImportOrders(db: Db, user: UserId, importId: ImportId): seq<Order>
    reads db
  {
    var imports := db.imports;
    Filter((o: Order) => o.importId == importId && OwnedIn(imports, o, user), db.orders)
  }

  /** The orders of one import that the caller owns, newest first: every such order, and only
      those. */
  function ImportOrders(db: Db, user: UserId, importId: ImportId): (r: seq<Order>)
    reads db
    ensures forall k :: 0 <= k < |r| ==> r[k].importId == importId && OwnedIn(db.imports, r[k], user)
    ensures forall k :: 0 <= k < |db.orders| && db.orders[k].importId == importId && OwnedIn(db.imports, db.orders[k], user) ==>
      db.orders[k] in r
  {
    ReverseHasAll(MyImportOrders(db, user, importId));
    Reverse(MyImportOrders(db, user, importId))
  }

  /** `orderBy: { createdAt: "desc" }`: read from its last entry back, the import's order list is
      exactly the caller's orders of that import in the order they were inserted. */
  lemma ImportOrdersNewestFirst(db: Db, user: UserId, importId: ImportId)
    ensures Reverse(ImportOrders(db, user, importId)) == MyImportOrders(db, user, importId)
    ensures IsSubsequence(Reverse(ImportOrders(db, user, importId)), db.orders)
  {
    ReverseReverse(MyImportOrders(db, user, importId));
    var imports := db.imports;
    FilterIsSubsequence((o: Order) => o.importId == importId && OwnedIn(imports, o, user), db.orders);
  }

  /** One page of `all`: skip `(page - 1) * 10`, take 10. */
  function Page<T>(all: seq<T>, page: nat): (r: seq<T>)
    requires page >= 1
    ensures |r| <= PerPage
    ensures forall k :: 0 <= k < |r| ==> (page - 1) * PerPage + k < |all| && r[k] == all[(page - 1) * PerPage + k]
    ensures |r| == PerPage || (page - 1) * PerPage + |r| >= |all|
  {
    var skip := (page - 1) * PerPage;
    if skip >= |all| then [] else if skip + PerPage <= |all| then all[skip..skip + PerPage] else all[skip..]
  }

  /** Each element lies on exactly one page, at the place its index says. */
  lemma PageOfIndex<T>(all: seq<T>, j: nat)
    requires j < |all|
    ensures var page := j / PerPage + 1;
            j % PerPage < |Page(all, page)| && Page(all, page)[j % PerPage] == all[j]
  {
    var page := j / PerPage + 1;
    assert (page - 1) * PerPage == j - j % PerPage;
  }

  /** The pages in order give back the whole list. */
  lemma {:induction false} PagesCoverAll<T>(all: seq<T>, page: nat)
    requires page >= 1
    ensures Pages(all, page) == all[if (page - 1) * PerPage <= |all| then (page - 1) * PerPage else |all|..]
    decreases |all| - (page - 1) * PerPage
  {
    if (page - 1) * PerPage < |all| {
      PagesCoverAll(all, page + 1);
    }
  }

  /** The concatenation of the pages from `page` on. */
  function Pages<T>(all: seq<T>, page: nat): seq<T>
    requires page >= 1
    decreases |all| - (page - 1) * PerPage
  {
    if (page - 1) * PerPage >= |all| then [] else Page(all, page) + Pages(all, page + 1)
  }

  /** `getImportOrders`: page `page` (1 when absent, at least 1) of the import's orders that
      the caller owns, newest first. Another user's import reads as empty. */
  function GetImportOrders(db: Db, user: UserId, importId: ImportId, page: Option<int>): (r: Result<seq<Order>>)
    reads db
    ensures page.Some? && page.value < 1 ==> r == Err(Rejected("page", None))
    ensures r.Ok? <==> page.None? || page.value >= 1
    ensures r.Ok? ==> r.value == Page(ImportOrders(db, user, importId), page.GetOr(1))
    ensures r.Ok? ==> forall k :: 0 <= k < |r.value| ==>
      r.value[k].importId == importId && OwnedIn(db.imports, r.value[k], user)
  {
    var p := page.GetOr(1);
    if p < 1 then Err(Rejected("page", None))
    else
      Ok(Page(ImportOrders(db, user, importId), p))
  }
}
