/**
 * The web UI's data generation: `excel_to_txt` always reads the file as a
 * workbook and skips falsy cells; `has_download_files` and
 * `download_files_from_xlsx_csv` read every spreadsheet with `read_excel`.
 */
module GenerateDataLibs {

  import opened Wrappers
  import opened Strings
  import opened Blob
  import opened Ingest

  /**
   * `excel_to_txt`: an error reading or opening the file escapes and writes
   * nothing; otherwise `input/{basename}.txt` holds the sheets in order, with
   * falsy cells skipped, up to the name of the first sheet that fails to
   * parse, whose error escapes.
   */
  method ExcelToTxt(dir: InputDir, filePath: string, workbook: Result<seq<SheetRead>>) returns (raised: Option<string>)
    modifies dir
    ensures workbook.Failure? ==> raised == Some(workbook.error) && dir.files == old(dir.files)
    ensures workbook.Success? ==>
      var w := WorkbookWrite(workbook.value, SkipFalsy);
      raised == w.1 && dir.files == old(dir.files)[Basename(filePath) + ".txt" := w.0]
  {
    if workbook.Failure? {
      return Some(workbook.error);
    }
    var text, error := WriteWorkbook(workbook.value, SkipFalsy);
    dir.files := dir.files[Basename(filePath) + ".txt" := text];
    return error;
  }

  /**
   * `has_download_files`: false for other files; a read error escapes;
   * otherwise true exactly when some row exists and the frame has a
   * `doc_url` column, so an empty sheet gives false.
   */
  method HasDownloadFiles(filePath: string, excel: Result<Frame>) returns (r: Result<bool>)
    ensures !EndsWith(filePath, ".xlsx") && !EndsWith(filePath, ".csv") ==> r == Success(false)
    ensures (EndsWith(filePath, ".xlsx") || EndsWith(filePath, ".csv")) ==>
      match excel
      case Failure(e) => r == Failure(e)
      case Success(frame) => r == Success("doc_url" in frame.columns && |frame.rows| > 0)
  {
    if !EndsWith(filePath, ".xlsx") && !EndsWith(filePath, ".csv") {
      return Success(false);
    }
    if excel.Failure? {
      return Failure(excel.error);
    }
    var frame := excel.value;
    for i := 0 to |frame.rows|
      invariant i > 0 ==> "doc_url" !in frame.columns
    {
      // A row's labels are the frame's columns.
      if "doc_url" in frame.columns {
        return Success(true);
      }
    }
    return Success(false);
  }

  /** `download_files_from_xlsx_csv`, reading the file with `read_excel`. */
  method DownloadFilesFromSheet(dir: InputDir, filePath: string, excel: Result<Frame>,
                                urlToName: Cell -> string, fetch: Cell -> Result<string>)
    returns (raised: Option<string>)
    modifies dir
    ensures !EndsWith(filePath, ".xlsx") && !EndsWith(filePath, ".csv") ==> raised.None? && dir.files == old(dir.files)
    ensures (EndsWith(filePath, ".xlsx") || EndsWith(filePath, ".csv")) ==>
      match excel
      case Failure(e) => raised == Some(e) && dir.files == old(dir.files)
      case Success(frame) =>
        raised.None? && dir.files == AfterDownloads(old(dir.files), ListedNames(frame, urlToName), ListedFetches(frame, fetch))
  {
    if !EndsWith(filePath, ".xlsx") && !EndsWith(filePath, ".csv") {
      return None;
    }
    if excel.Failure? {
      return Some(excel.error);
    }
    dir.DownloadListed(excel.value, urlToName, fetch);
    return None;
  }
}
