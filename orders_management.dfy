/** The older orders screen (`OrdersManagement`): it imports a CSV file straight away, with the
    same row filter and trimming as the CSV parser, and pages through the orders of the latest
    import with Previous and Next buttons. Reading the file and tokenising it are oracles;
    toasts are kept as a log of alerts because they are the only report of what happened. */
module OrdersManagement {
  import opened Common
  import opened Store
  import CsvParser
  import CsvFileUpload
  import CsvSubmission
  import OrderRouter

  /** A toast: its title and its description. */
  datatype Alert = Alert(title: string, description: string)

  const ReadFailedAlert: Alert := Alert("Error reading file", "Failed to read the CSV file")
  const NoOrdersAlert: Alert := Alert("Error", "No valid orders found in the CSV file")
  const ImportedAlert: Alert := Alert("Success", "Orders imported successfully")

  /** The alert for rows the filter dropped. */
  function SkippedAlert(skipped: nat): Alert {
    Alert("Error", NatToString(skipped) + " invalid orders were skipped")
  }

  /** How the import mutation settles. */
  datatype Settled = Succeeded | Failed(message: string)

  /** `showPrevious` */
  predicate ShowPrevious(page: int) {
    page > 1
  }

  /** `showNext`: the current page has loaded and holds exactly ten orders. */
  predicate ShowNext(current: Option<seq<Order>>) {
    current.Some? && |current.value| == OrderRouter.PerPage
  }

  /** Against the server's paging, Next shows exactly when the rows run at least to the end of
      the current page; when Next is hidden there is nothing further. */
  lemma ShowNextAgainstServer(all: seq<Order>, page: nat)
    requires page >= 1
    ensures ShowNext(Some(OrderRouter.Page(all, page))) <==> page * OrderRouter.PerPage <= |all|
    ensures !ShowNext(Some(OrderRouter.Page(all, page))) ==> OrderRouter.Page(all, page + 1) == []
  {
    var p := OrderRouter.Page(all, page);
    if page * OrderRouter.PerPage <= |all| {
      assert |p| == OrderRouter.PerPage;
    }
  }

  /** When the orders fill the last page exactly, Next still shows there, and leads to an empty
      page. */
  lemma FullLastPageOffersEmptyNext(all: seq<Order>, page: nat)
    requires page >= 1 && page * OrderRouter.PerPage == |all|
    ensures ShowNext(Some(OrderRouter.Page(all, page)))
    ensures OrderRouter.Page(all, page + 1) == []
  {
    ShowNextAgainstServer(all, page);
  }

  /** The screen's state. */
  class Screen {
    var page: int
    var isUploading: bool
    var alerts: seq<Alert>
    /** The import mutations sent, in order. */
    var sent: seq<CsvSubmission.ImportRequest>

    constructor()
      ensures page == 1 && !isUploading && alerts == [] && sent == []
    {
      page := 1;
      isUploading := false;
      alerts := [];
      sent := [];
    }

    /** `handleFileUpload`. `read` is the outcome of reading and tokenising the file: None when
        reading it fails. The kept rows are those `CSVParser.parseOrders` keeps, trimmed the
        same way. With none kept an alert replaces the mutation; otherwise the number of
        dropped rows is reported when positive, and the file name goes out with exactly the
        kept orders. */
    method HandleFileUpload(file: Option<CsvFileUpload.File>, read: Option<CsvFileUpload.Tokenised>)
      modifies this
      ensures page == old(page)
      ensures file.None? ==> isUploading == old(isUploading) && alerts == old(alerts) && sent == old(sent)
      ensures file.Some? ==> !isUploading
      ensures file.Some? && read.None? ==> alerts == old(alerts) + [ReadFailedAlert] && sent == old(sent)
      ensures file.Some? && read.Some? && read.value.TokeniseFailed? ==>
        alerts == old(alerts) + [Alert("Error parsing CSV", read.value.message)] && sent == old(sent)
      ensures file.Some? && read.Some? && read.value.Rows? ==>
        var rows := read.value.rows;
        var kept := CsvParser.ParseRows(rows);
        && (kept == [] ==> alerts == old(alerts) + [NoOrdersAlert] && sent == old(sent))
        && (kept != [] ==> sent == old(sent) + [CsvSubmission.ImportRequest(file.value.name, kept)])
        && (kept != [] && |kept| < |rows| ==> alerts == old(alerts) + [SkippedAlert(|rows| - |kept|)])
        && (kept != [] && |kept| == |rows| ==> alerts == old(alerts))
    {
      if file.None? {
        return;
      }
      isUploading := true;
      match read {
        case None =>
          alerts := alerts + [ReadFailedAlert];
        case Some(TokeniseFailed(message)) =>
          alerts := alerts + [Alert("Error parsing CSV", message)];
        case Some(Rows(rows)) =>
          var orders := CsvParser.ParseRows(rows);
          if |orders| == 0 {
            alerts := alerts + [NoOrdersAlert];
          } else {
            if |orders| < |rows| {
              alerts := alerts + [SkippedAlert(|rows| - |orders|)];
            }
            sent := sent + [CsvSubmission.ImportRequest(file.value.name, orders)];
          }
      }
      isUploading := false;
    }

    /** The mutation's callbacks: a success or the error's message as an alert. */
    method MutationSettled(outcome: Settled)
      modifies this
      ensures page == old(page) && isUploading == old(isUploading) && sent == old(sent)
      ensures outcome.Succeeded? ==> alerts == old(alerts) + [ImportedAlert]
      ensures outcome.Failed? ==> alerts == old(alerts) + [Alert("Error", outcome.message)]
    {
      match outcome {
        case Succeeded => alerts := alerts + [ImportedAlert];
        case Failed(message) => alerts := alerts + [Alert("Error", message)];
      }
    }

    /** Previous: one page back, never below 1. */
    method Previous()
      modifies this
      ensures page >= 1
      ensures page == if old(page) - 1 < 1 then 1 else old(page) - 1
      ensures isUploading == old(isUploading) && alerts == old(alerts) && sent == old(sent)
    {
      page := if page - 1 < 1 then 1 else page - 1;
    }

    /** Next: one page on, without an upper bound; only the button's visibility limits it. */
    method Next()
      modifies this
      ensures page == old(page) + 1
      ensures isUploading == old(isUploading) && alerts == old(alerts) && sent == old(sent)
    {
      page := page + 1;
    }
  }
}
