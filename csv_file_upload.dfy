/** The file picker of the CSV import (`CSVFileUpload`): it accepts a ".csv" file of at most
    5 MiB, parses it, and hands the file and the parsed orders to its parent. The CSV tokeniser
    is an oracle; what it yields goes through the row filter of `CSVParser.parseOrders`. */
module CsvFileUpload {
  import opened Common
  import opened OrderValidator
  import CsvParser

  const MaxFileSize: nat := 5 * 1024 * 1024
  const NotCsvMessage: string := "Please upload a CSV file"
  const TooLargeMessage: string := "File size should be less than 5MB"

  /** A picked file: its name and its size in bytes. */
  datatype File = File(name: string, size: nat)

  /** What the tokeniser makes of a file's text: rows keyed by header, or an error. */
  datatype Tokenised = Rows(rows: seq<CsvParser.Row>) | TokeniseFailed(message: string)

  /** A call the component makes to its parent. */
  datatype Notice = FileSelected(file: File) | DataParsed(orders: seq<ParsedOrder>)

  /** `validateFile`: the name check comes first and only one error is reported. */
  function ValidateFile(file: File): (error: Option<string>)
    ensures error.None? <==> EndsWith(file.name, ".csv") && file.size <= MaxFileSize
    ensures !EndsWith(file.name, ".csv") ==> error == Some(NotCsvMessage)
    ensures EndsWith(file.name, ".csv") && file.size > MaxFileSize ==> error == Some(TooLargeMessage)
  {
    if !EndsWith(file.name, ".csv") then Some(NotCsvMessage)
    else if file.size > MaxFileSize then Some(TooLargeMessage)
    else None
  }

  /** The extension check is case-sensitive, and a file of exactly 5 MiB is accepted. */
  lemma ValidateFileBoundaries(stem: string)
    ensures ValidateFile(File(stem + ".CSV", 1)) == Some(NotCsvMessage)
    ensures ValidateFile(File(stem + ".csv", MaxFileSize)).None?
    ensures ValidateFile(File(stem + ".csv", MaxFileSize + 1)) == Some(TooLargeMessage)
  {
    var upper := stem + ".CSV";
    assert upper[|upper| - 4..] == ".CSV";
    var lower := stem + ".csv";
    assert lower[|lower| - 4..] == ".csv";
  }

  /** The state of the picker. */
  class Picker {
    var selectedFile: Option<File>
    var isUploading: bool
    var notices: seq<Notice>

    constructor()
      ensures selectedFile.None? && !isUploading && notices == []
    {
      selectedFile := None;
      isUploading := false;
      notices := [];
    }

    /** `handleFile`: an invalid file changes nothing. A valid one is parsed; on success it is
        selected and the parent hears of the file, then of the orders; on failure nothing is
        selected. Either way the picker is not uploading afterwards. */
    method HandleFile(file: File, tokenise: File -> Tokenised)
      modifies this
      ensures ValidateFile(file).Some? ==>
        selectedFile == old(selectedFile) && isUploading == old(isUploading) && notices == old(notices)
      ensures ValidateFile(file).None? ==> !isUploading
      ensures ValidateFile(file).None? && tokenise(file).Rows? ==>
        && selectedFile == Some(file)
        && notices == old(notices) + [FileSelected(file), DataParsed(CsvParser.ParseRows(tokenise(file).rows))]
      ensures ValidateFile(file).None? && tokenise(file).TokeniseFailed? ==>
        selectedFile.None? && notices == old(notices)
    {
      if ValidateFile(file).Some? {
        return;
      }
      isUploading := true;
      match tokenise(file) {
        case Rows(rows) =>
          var parsed := CsvParser.ParseRows(rows);
          selectedFile := Some(file);
          notices := notices + [FileSelected(file)];
          notices := notices + [DataParsed(parsed)];
        case TokeniseFailed(_) =>
          selectedFile := None;
      }
      isUploading := false;
    }

    /** `clearFile` */
    method ClearFile()
      modifies this
      ensures selectedFile.None? && isUploading == old(isUploading) && notices == old(notices)
    {
      selectedFile := None;
    }
  }
}
