/**
 * The command-line data generation: `excel_to_txt` with its three
 * branches (workbook, CSV, and "try as a workbook"), `has_download_files`,
 * `download_files_from_xlsx_csv` and the order of the steps of
 * `generate_data`.
 */
module GenerateDataCli {

  import opened Wrappers
  import opened Strings
  import opened Blob
  import opened Ingest

  /**
   * `excel_to_txt`. `workbook` is what `pd.ExcelFile` opens (the listed
   * sheets, each with what `parse` reads), `csv` what `pd.read_csv` reads;
   * the text goes to `input/{basename}.txt`, which is opened only once the
   * file itself has been read. The result is the error that escapes the
   * function, if any: errors of `.xlsx` and `.csv` files escape, those of
   * other files are logged. A sheet that fails to parse leaves the text
   * written before it in the file. Non-missing cells are written.
   */
  method ExcelToTxt(dir: InputDir, filePath: string, workbook: Result<seq<SheetRead>>, csv: Result<Frame>)
    returns (raised: Option<string>)
    modifies dir
    ensures var target := Basename(filePath) + ".txt";
      if EndsWith(filePath, ".xlsx") then
        (workbook.Failure? ==> raised == Some(workbook.error) && dir.files == old(dir.files))
        && (workbook.Success? ==>
              var w := WorkbookWrite(workbook.value, SkipMissing);
              raised == w.1 && dir.files == old(dir.files)[target := w.0])
      else if EndsWith(filePath, ".csv") then
        (csv.Failure? ==> raised == Some(csv.error) && dir.files == old(dir.files))
        && (csv.Success? ==> raised.None? && dir.files == old(dir.files)[target := CsvText(csv.value, SkipMissing)])
      else
        raised.None?
        && (workbook.Failure? ==> dir.files == old(dir.files))
        && (workbook.Success? ==> dir.files == old(dir.files)[target := WorkbookWrite(workbook.value, SkipMissing).0])
  {
    var target := Basename(filePath) + ".txt";
    if EndsWith(filePath, ".xlsx") {
      if workbook.Failure? {
        return Some(workbook.error);
      }
      var text, error := WriteWorkbook(workbook.value, SkipMissing);
      dir.files := dir.files[target := text];
      return error;
    } else if EndsWith(filePath, ".csv") {
      if csv.Failure? {
        return Some(csv.error);
      }
      var text := WriteCsv(csv.value, SkipMissing);
      dir.files := dir.files[target := text];
    } else {
      if workbook.Success? {
        var text, _ := WriteWorkbook(workbook.value, SkipMissing);
        dir.files := dir.files[target := text];
      }
    }
    return None;
  }

  /** The frame `has_download_files` and `download_files_from_xlsx_csv` read: `read_excel` for `.xlsx`, `read_csv` otherwise. */
  function ReadFrame(filePath: string, excel: Result<Frame>, csv: Result<Frame>): Result<Frame> {
    if EndsWith(filePath, ".xlsx") then excel else csv
  }

  /**
   * `has_download_files`: false for other files; a read error escapes;
   * otherwise true exactly when the frame has a `doc_url` column, whether or
   * not it has rows (the row loop tests the same column labels again).
   */
  method HasDownloadFiles(filePath: string, excel: Result<Frame>, csv: Result<Frame>) returns (r: Result<bool>)
    ensures !EndsWith(filePath, ".xlsx") && !EndsWith(filePath, ".csv") ==> r == Success(false)
    ensures (EndsWith(filePath, ".xlsx") || EndsWith(filePath, ".csv")) ==>
      match ReadFrame(filePath, excel, csv)
      case Failure(e) => r == Failure(e)
      case Success(frame) => r == Success("doc_url" in frame.columns)
  {
    if !EndsWith(filePath, ".xlsx") && !EndsWith(filePath, ".csv") {
      return Success(false);
    }
    var read := ReadFrame(filePath, excel, csv);
    if read.Failure? {
      return Failure(read.error);
    }
    var frame := read.value;
    // The row loop that follows in the source tests each row's labels, which
    // are these same columns, so it cannot change the answer.
    return Success("doc_url" in frame.columns);
  }

  /**
   * `download_files_from_xlsx_csv`: nothing for other files; a read error
   * escapes before any download; otherwise the listed files are downloaded
   * in row order.
   */
  method DownloadFilesFromSheet(dir: InputDir, filePath: string, excel: Result<Frame>, csv: Result<Frame>,
                                urlToName: Cell -> string, fetch: Cell -> Result<string>)
    returns (raised: Option<string>)
    modifies dir
    ensures !EndsWith(filePath, ".xlsx") && !EndsWith(filePath, ".csv") ==> raised.None? && dir.files == old(dir.files)
    ensures (EndsWith(filePath, ".xlsx") || EndsWith(filePath, ".csv")) ==>
      match ReadFrame(filePath, excel, csv)
      case Failure(e) => raised == Some(e) && dir.files == old(dir.files)
      case Success(frame) =>
        raised.None? && dir.files == AfterDownloads(old(dir.files), ListedNames(frame, urlToName), ListedFetches(frame, fetch))
  {
    if !EndsWith(filePath, ".xlsx") && !EndsWith(filePath, ".csv") {
      return None;
    }
    var read := ReadFrame(filePath, excel, csv);
    if read.Failure? {
      return Some(read.error);
    }
    dir.DownloadListed(read.value, urlToName, fetch);
    return None;
  }

  /** A spreadsheet without a `doc_url` column downloads nothing. */
  lemma NoDocUrlNoDownloads(files: map<string, string>, frame: Frame, urlToName: Cell -> string, fetch: Cell -> Result<string>)
    requires "doc_url" !in frame.columns
    ensures AfterDownloads(files, ListedNames(frame, urlToName), ListedFetches(frame, fetch)) == files
  {
  }

  // ---------------------------------------------------------------------
  // generate_data

  /** What `generate_data` does, step by step. */
  datatype Step =
    | ClearInput
    | ClearPdfCache
    | Prepare(path: string, file: string)
    | Convert(path: string, file: string)
    | MakeWritable(path: string)

  /**
   * The steps of `generate_data`, as (path, name) pairs: `originals` is the
   * walk of `original/`, `inputs` the walk of `input/` after the copies, and
   * `converted` the second walk of `input/`, after the conversions, which
   * also lists the text files they wrote.
   */
  function GenerateDataSteps(originals: seq<(string, string)>, inputs: seq<(string, string)>,
                             converted: seq<(string, string)>): (r: seq<Step>)
    ensures |r| == 2 + |originals| + |inputs| + |converted|
    ensures r[0] == ClearInput && r[1] == ClearPdfCache
    ensures forall i :: 0 <= i < |originals| ==> r[2 + i] == Prepare(originals[i].0, originals[i].1)
    ensures forall i :: 0 <= i < |inputs| ==> r[2 + |originals| + i] == Convert(inputs[i].0, inputs[i].1)
    ensures forall i :: 0 <= i < |converted| ==> r[2 + |originals| + |inputs| + i] == MakeWritable(converted[i].0)
  {
    [ClearInput, ClearPdfCache]
    + seq(|originals|, i requires 0 <= i < |originals| => Prepare(originals[i].0, originals[i].1))
    + seq(|inputs|, i requires 0 <= i < |inputs| => Convert(inputs[i].0, inputs[i].1))
    + seq(|converted|, i requires 0 <= i < |converted| => MakeWritable(converted[i].0))
  }

  /** Both directories are cleared before any copy, and every copy comes before every conversion. */
  lemma ClearThenPrepareThenConvert(originals: seq<(string, string)>, inputs: seq<(string, string)>,
                                    converted: seq<(string, string)>, i: nat, j: nat)
    requires i < j < |GenerateDataSteps(originals, inputs, converted)|
    ensures !GenerateDataSteps(originals, inputs, converted)[j].ClearInput?
    ensures GenerateDataSteps(originals, inputs, converted)[j].ClearPdfCache? ==>
      GenerateDataSteps(originals, inputs, converted)[i].ClearInput?
    ensures GenerateDataSteps(originals, inputs, converted)[j].Prepare? ==>
      !GenerateDataSteps(originals, inputs, converted)[i].Convert?
    ensures GenerateDataSteps(originals, inputs, converted)[j].Convert? ==>
      !GenerateDataSteps(originals, inputs, converted)[i].MakeWritable?
  {
    var r := GenerateDataSteps(originals, inputs, converted);
    var n := |originals|;
    if j >= 2 + n + |inputs| {
      assert r[j].MakeWritable?;
    } else if j >= 2 + n {
      assert r[j].Convert?;
      assert !r[i].MakeWritable?;
    } else if j >= 2 {
      assert r[j].Prepare?;
      assert i < 2 + n;
    }
  }
}
