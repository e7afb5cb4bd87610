/** The last step of the CSV import (`CSVSubmission`): it sends the orders with a valid tracking
    code to `order.import` and follows the mutation until it settles. The mutation's outcome is
    a parameter of the callback that receives it. */
module CsvSubmission {
  import opened Common
  import opened Seqs
  import opened OrderValidator
  import opened Trpc
  import CsvFileUpload
  import OrderRouter

  const NoValidCodesMessage: string := "No valid tracking codes found in the data"

  /** The input of the `order.import` mutation. */
  datatype ImportRequest = ImportRequest(fileName: string, orders: seq<ParsedOrder>)

  /** How the mutation settles. */
  datatype Settled = Succeeded | Failed(message: string)

  /** The component's own `isValidTrackingCode` behind `order.trackingCode &&`: a present,
      non-empty code that matches the pattern. */
  predicate Submittable(o: ParsedOrder) {
    o.trackingCode.Some? && o.trackingCode.value != "" && MatchesTrackingPattern(o.trackingCode.value)
  }

  /** The orders `handleSubmit` sends, which are also the ones `validTrackingCount` counts. */
  function ValidOrders(data: seq<ParsedOrder>): (valid: seq<ParsedOrder>)
    ensures forall i :: 0 <= i < |valid| ==> IsValidTrackingCode(valid[i].trackingCode)
    ensures forall i :: 0 <= i < |data| && HasValidCode(data[i]) ==> data[i] in valid
  {
    Filter(Submittable, data)
  }

  /** The component's check and the shared validator pick the same orders in the same order. */
  lemma ValidOrdersMatchValidator(data: seq<ParsedOrder>)
    ensures ValidOrders(data) == FilterValidOrders(data).validOrders
    ensures |data| - |ValidOrders(data)| == FilterValidOrders(data).invalidCount
  {
    FilterPointwise(Submittable, HasValidCode, data);
  }

  /** An order as the server's schema reads it. */
  function ToInput(o: ParsedOrder): OrderRouter.OrderInput {
    OrderRouter.OrderInput(o.orderNumber, o.shippingStatus, o.trackingCode)
  }

  /** The server accepts a submission whose file name and order fields are not blank, and it
      keeps the orders as they are, since the CSV parser already trimmed them. */
  lemma ServerAcceptsSubmission(fileName: string, orders: seq<ParsedOrder>)
    requires TrimmedNonEmpty(fileName).Some? && |orders| >= 1
    requires forall i :: 0 <= i < |orders| ==> TrimmedNonEmpty(orders[i].orderNumber).Some?
    requires forall i :: 0 <= i < |orders| ==> TrimmedNonEmpty(orders[i].shippingStatus).Some?
    ensures OrderRouter.ParseImportInput(fileName, Map(ToInput, orders)).Ok?
  {
    var inputs := Map(ToInput, orders);
    forall k | 0 <= k < |inputs| ensures OrderRouter.ParseOrderInput(inputs[k]).Some? {
      assert inputs[k] == ToInput(orders[k]);
    }
  }

  /** A cell of spaces in the order-number column passes the CSV filter, becomes "", and makes
      the server reject the whole import, naming that row: one such row and nothing is imported. */
  lemma BlankOrderNumberRejectsImport(fileName: string, orders: seq<ParsedOrder>, k: nat)
    requires k < |orders| && orders[k].orderNumber == ""
    ensures OrderRouter.ParseImportInput(fileName, Map(ToInput, orders)).Err?
    ensures OrderRouter.ParseImportInput(fileName, Map(ToInput, orders)).error.ErrorCode() == BadRequest
    ensures Issue([Key("orders"), Index(k), Key("orderNumber")], None)
              in OrderRouter.ParseImportInput(fileName, Map(ToInput, orders)).error.issues
  {
    var inputs := Map(ToInput, orders);
    assert inputs[k].orderNumber == "";
    OrderRouter.BlankNumberNamedInRejection(fileName, inputs, k);
  }

  /** The state of the submission step. */
  class Submission {
    const data: seq<ParsedOrder>
    const file: Option<CsvFileUpload.File>
    var isSubmitting: bool
    var error: Option<string>
    var isComplete: bool
    /** The mutations sent, in order. */
    var sent: seq<ImportRequest>
    /** How many times the parent's `onSuccess` was called. */
    var successes: nat

    constructor(data: seq<ParsedOrder>, file: Option<CsvFileUpload.File>)
      ensures this.data == data && this.file == file
      ensures !isSubmitting && error.None? && !isComplete && sent == [] && successes == 0
    {
      this.data := data;
      this.file := file;
      isSubmitting := false;
      error := None;
      isComplete := false;
      sent := [];
      successes := 0;
    }

    /** `validTrackingCount` */
    function ValidTrackingCount(): nat {
      |ValidOrders(data)|
    }

    /** Whether the import button is disabled. */
    function ButtonDisabled(): bool
      reads this
    {
      isSubmitting || isComplete || ValidTrackingCount() == 0
    }

    /** `handleSubmit`: without a file or data it does nothing; without a valid order it shows
        an error and sends nothing; otherwise it sends the file name with the valid orders and
        waits. Clicking the enabled button always sends. */
    method HandleSubmit()
      modifies this
      ensures file.None? || data == [] ==>
        && isSubmitting == old(isSubmitting) && error == old(error) && isComplete == old(isComplete)
        && sent == old(sent) && successes == old(successes)
      ensures file.Some? && data != [] && ValidOrders(data) == [] ==>
        && !isSubmitting && error == Some(NoValidCodesMessage) && sent == old(sent)
      ensures file.Some? && data != [] && ValidOrders(data) != [] ==>
        && isSubmitting && error.None? && sent == old(sent) + [ImportRequest(file.value.name, ValidOrders(data))]
      ensures isComplete == old(isComplete) && successes == old(successes)
      ensures file.Some? && !old(ButtonDisabled()) ==> |sent| == |old(sent)| + 1
    {
      if file.None? || data == [] {
        return;
      }
      isSubmitting := true;
      error := None;
      var valid := ValidOrders(data);
      if |valid| == 0 {
        error := Some(NoValidCodesMessage);
        isSubmitting := false;
        return;
      }
      sent := sent + [ImportRequest(file.value.name, valid)];
    }

    /** The mutation's callbacks: success completes the step and tells the parent, an error
        shows its message, and either way submitting ends. After a success the button stays
        disabled. */
    method MutationSettled(outcome: Settled)
      modifies this
      ensures !isSubmitting && sent == old(sent)
      ensures outcome.Succeeded? ==> isComplete && successes == old(successes) + 1 && error == old(error)
      ensures outcome.Succeeded? ==> ButtonDisabled()
      ensures outcome.Failed? ==> error == Some(outcome.message) && isComplete == old(isComplete) && successes == old(successes)
    {
      match outcome {
        case Succeeded =>
          isComplete := true;
          successes := successes + 1;
        case Failed(message) =>
          error := Some(message);
      }
      isSubmitting := false;
    }
  }
}
