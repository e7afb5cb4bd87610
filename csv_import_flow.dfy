/** The three-step CSV import wizard (`CSVImportFlow`): upload, preview, submit. The upload
    step reports the file and the parsed orders, and Back and Next move between the steps. */
module CsvImportFlow {
  import opened Common
  import opened OrderValidator
  import CsvParser
  import CsvFileUpload

  datatype Step = Upload | Preview | Submit

  /** The position of a step in the wizard. */
  function Rank(s: Step): nat {
    match s
    case Upload => 0
    case Preview => 1
    case Submit => 2
  }

  /** `handleBack`: one step back, and nothing at the first step. */
  function Back(s: Step): (r: Step)
    ensures Rank(r) == if Rank(s) == 0 then 0 else Rank(s) - 1
  {
    match s
    case Upload => Upload
    case Preview => Upload
    case Submit => Preview
  }

  /** `handleNext`: only the preview moves on; from the upload step Next does nothing, because
      the data has to arrive first. */
  function Next(s: Step): (r: Step)
    ensures s == Preview ==> Rank(r) == Rank(s) + 1
    ensures s != Preview ==> r == s
  {
    match s
    case Preview => Submit
    case _ => s
  }

  /** Back undoes Next where Next moves, and Next undoes Back from the last step. */
  lemma BackNextInverse(s: Step)
    ensures Next(s) != s ==> Back(Next(s)) == s
    ensures s == Submit ==> Next(Back(s)) == s
  {
  }

  /** The wizard's state. */
  class Flow {
    var currentStep: Step
    var file: Option<CsvFileUpload.File>
    var parsedData: seq<ParsedOrder>

    constructor()
      ensures currentStep == Upload && file.None? && parsedData == []
    {
      currentStep := Upload;
      file := None;
      parsedData := [];
    }

    /** `handleFileSelect` */
    method HandleFileSelect(selected: CsvFileUpload.File)
      modifies this
      ensures file == Some(selected) && currentStep == old(currentStep) && parsedData == old(parsedData)
    {
      file := Some(selected);
    }

    /** `handleDataParsed`: keeps the orders and shows the preview, from whatever step. */
    method HandleDataParsed(data: seq<ParsedOrder>)
      modifies this
      ensures parsedData == data && currentStep == Preview && file == old(file)
    {
      parsedData := data;
      currentStep := Preview;
    }

    method HandleBack()
      modifies this
      ensures currentStep == Back(old(currentStep)) && file == old(file) && parsedData == old(parsedData)
    {
      match currentStep {
        case Preview => currentStep := Upload;
        case Submit => currentStep := Preview;
        case Upload =>
      }
    }

    method HandleNext()
      modifies this
      ensures currentStep == Next(old(currentStep)) && file == old(file) && parsedData == old(parsedData)
    {
      if currentStep == Preview {
        currentStep := Submit;
      }
    }

    /** `handleSubmitSuccess` only refreshes cached queries and shows a toast: the wizard stays
        on the submit step with its data. */
    method HandleSubmitSuccess()
      modifies this
      ensures currentStep == old(currentStep) && file == old(file) && parsedData == old(parsedData)
    {
    }
  }

  /** A valid file that parses takes a fresh wizard to the preview, holding that file and the
      orders the CSV parser keeps. */
  method UploadThenPreview(picker: CsvFileUpload.Picker, file: CsvFileUpload.File,
                           tokenise: CsvFileUpload.File -> CsvFileUpload.Tokenised)
    returns (flow: Flow)
    requires CsvFileUpload.ValidateFile(file).None? && tokenise(file).Rows?
    modifies picker
    ensures flow.currentStep == Preview && flow.file == Some(file)
    ensures flow.parsedData == CsvParser.ParseRows(tokenise(file).rows)
  {
    var before := picker.notices;
    picker.HandleFile(file, tokenise);
    var reported := picker.notices[|before|..];
    assert reported == [CsvFileUpload.FileSelected(file), CsvFileUpload.DataParsed(CsvParser.ParseRows(tokenise(file).rows))];
    flow := new Flow();
    flow.HandleFileSelect(reported[0].file);
    flow.HandleDataParsed(reported[1].orders);
  }

  /** Next then Back from the preview returns to the preview with the file and the orders kept:
      stepping back from the submit step loses nothing. */
  method NextThenBack(flow: Flow)
    requires flow.currentStep == Preview
    modifies flow
    ensures flow.currentStep == Preview
    ensures flow.file == old(flow.file) && flow.parsedData == old(flow.parsedData)
  {
    flow.HandleNext();
    flow.HandleBack();
  }
}
