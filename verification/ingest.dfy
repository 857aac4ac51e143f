/**
 * What the two data-preparation front ends (the command line and the web
 * UI) share: spreadsheet cells and their text form, the extension-based
 * dispatch of `prepare_file` and `convert_file`, the skip rule of
 * `download_file`, and the extension rule of `download_image`.
 */
module Ingest {

  import opened Wrappers
  import opened Strings

  /** A pandas cell: NaN and None are the missing values; a float carries its printed form. */
  datatype Cell = NaN | NoneValue | Int(i: int) | Float(repr: string, isZero: bool) | Str(s: string) | Bool(b: bool)

  /** `f"{value}"`. */
  function Render(v: Cell): string {
    match v
    case NaN => "nan"
    case NoneValue => "None"
    case Int(i) => IntToString(i)
    case Float(repr, _) => repr
    case Str(s) => s
    case Bool(b) => if b then "True" else "False"
  }

  /** `pd.notna(value)`. */
  predicate NotNa(v: Cell) {
    !v.NaN? && !v.NoneValue?
  }

  /** Python truthiness: NaN is truthy; None, 0, 0.0, "" and False are not. */
  predicate Truthy(v: Cell) {
    match v
    case NaN => true
    case NoneValue => false
    case Int(i) => i != 0
    case Float(_, zero) => !zero
    case Str(s) => s != ""
    case Bool(b) => b
  }

  /** Which cells a serialiser writes: the ones `pd.notna` accepts, or the truthy ones. */
  datatype SkipRule = SkipMissing | SkipFalsy

  predicate Kept(rule: SkipRule, v: Cell) {
    match rule
    case SkipMissing => NotNa(v)
    case SkipFalsy => Truthy(v)
  }

  /** The two rules disagree exactly on NaN (written only by the falsy rule) and on zero, "" and False. */
  lemma SkipRulesDiffer(v: Cell)
    ensures Kept(SkipFalsy, v) && !Kept(SkipMissing, v) <==> v.NaN?
    ensures Kept(SkipMissing, v) && !Kept(SkipFalsy, v) <==>
      v == Int(0) || (v.Float? && v.isZero) || v == Str("") || v == Bool(false)
  {
  }

  /** A data frame: its column labels and its rows, one cell per column. */
  datatype Frame = Frame(columns: seq<string>, rows: seq<seq<Cell>>)

  datatype Sheet = Sheet(name: string, frame: Frame)

  /** A sheet as the opened workbook lists it: its name, and the frame `parse` reads or the exception it raises. */
  datatype SheetRead = SheetRead(name: string, frame: Result<Frame>)

  function CellAt(row: seq<Cell>, c: nat): Cell {
    if c < |row| then row[c] else NoneValue
  }

  /** One written cell: `"【{column}】: {value} "`. */
  function Field(column: string, v: Cell): string {
    "【" + column + "】: " + Render(v) + " "
  }

  /** The cells of a row for the first `|columns|` columns, kept ones only, in column order. */
  function RowFields(columns: seq<string>, row: seq<Cell>, rule: SkipRule): string {
    if columns == [] then ""
    else
      var c := |columns| - 1;
      RowFields(columns[..c], row, rule) + (if Kept(rule, CellAt(row, c)) then Field(columns[c], CellAt(row, c)) else "")
  }

  function RowText(columns: seq<string>, row: seq<Cell>, rule: SkipRule): string {
    RowFields(columns, row, rule) + "\n\n"
  }

  function RowsText(columns: seq<string>, rows: seq<seq<Cell>>, rule: SkipRule): string {
    if rows == [] then "" else RowsText(columns, rows[..|rows| - 1], rule) + RowText(columns, rows[|rows| - 1], rule)
  }

  /** A sheet: its name and "\n\n", then each row's kept cells followed by "\n\n". */
  function SheetText(sheet: Sheet, rule: SkipRule): string {
    sheet.name + "\n\n" + RowsText(sheet.frame.columns, sheet.frame.rows, rule)
  }

  function WorkbookText(sheets: seq<Sheet>, rule: SkipRule): string {
    if sheets == [] then "" else WorkbookText(sheets[..|sheets| - 1], rule) + SheetText(sheets[|sheets| - 1], rule)
  }

  /** How many sheets parse before the first whose parsing raises (all of them when none does). */
  function ParsedCount(listed: seq<SheetRead>): (k: nat)
    ensures k <= |listed|
    ensures forall i :: 0 <= i < k ==> listed[i].frame.Success?
    ensures k < |listed| ==> listed[k].frame.Failure?
  {
    if listed == [] || listed[0].frame.Failure? then 0 else 1 + ParsedCount(listed[1..])
  }

  /** The first `k` sheets, all parsed. */
  function ParsedSheets(listed: seq<SheetRead>, k: nat): seq<Sheet>
    requires k <= |listed| && forall i :: 0 <= i < k ==> listed[i].frame.Success?
  {
    seq(k, i requires 0 <= i < k && listed[i].frame.Success? => Sheet(listed[i].name, listed[i].frame.value))
  }

  /**
   * What the sheet loop leaves in the output file, and the exception that
   * ends it: every parsed sheet in order, then the name of the first sheet
   * that fails to parse, whose error escapes the loop.
   */
  function WorkbookWrite(listed: seq<SheetRead>, rule: SkipRule): (r: (string, Option<string>))
    ensures r.1.None? <==> forall i :: 0 <= i < |listed| ==> listed[i].frame.Success?
    ensures r.1.Some? ==> exists i :: 0 <= i < |listed| && listed[i].frame == Failure(r.1.value)
  {
    var k := ParsedCount(listed);
    var done := WorkbookText(ParsedSheets(listed, k), rule);
    if k == |listed| then (done, None)
    else (done + listed[k].name + "\n\n", Some(listed[k].frame.error))
  }

  /** When every sheet parses, the file holds the whole workbook. */
  lemma AllParsedWritesWorkbook(listed: seq<SheetRead>, sheets: seq<Sheet>, rule: SkipRule)
    requires |sheets| == |listed|
    requires forall i :: 0 <= i < |listed| ==> listed[i] == SheetRead(sheets[i].name, Success(sheets[i].frame))
    ensures WorkbookWrite(listed, rule) == (WorkbookText(sheets, rule), None)
  {
    assert ParsedCount(listed) == |listed|;
    assert ParsedSheets(listed, |listed|) == sheets;
  }

  /**
   * A sheet that fails to parse leaves a file that a successful parse of that
   * sheet would have started the same way: earlier sheets and its name survive.
   */
  lemma PartialWorkbookIsPrefix(listed: seq<SheetRead>, frame: Frame, rule: SkipRule)
    requires WorkbookWrite(listed, rule).1.Some?
    ensures var k := ParsedCount(listed);
      k < |listed|
      && StartsWith(WorkbookText(ParsedSheets(listed, k) + [Sheet(listed[k].name, frame)], rule), WorkbookWrite(listed, rule).0)
  {
    var k := ParsedCount(listed);
    var done := ParsedSheets(listed, k);
    var whole := done + [Sheet(listed[k].name, frame)];
    assert whole[..|whole| - 1] == done;
    var head := WorkbookText(done, rule) + listed[k].name + "\n\n";
    assert WorkbookText(whole, rule) == head + RowsText(frame.columns, frame.rows, rule);
    assert WorkbookText(whole, rule)[..|head|] == head;
  }

  /** The CSV layout: every column name followed by "\n\n", then the rows. */
  function HeaderText(columns: seq<string>): string {
    if columns == [] then "" else HeaderText(columns[..|columns| - 1]) + columns[|columns| - 1] + "\n\n"
  }

  function CsvText(frame: Frame, rule: SkipRule): string {
    HeaderText(frame.columns) + RowsText(frame.columns, frame.rows, rule)
  }

  /** A row whose cells are all skipped contributes just the row separator. */
  lemma {:induction false} SkippedRowIsSeparator(columns: seq<string>, row: seq<Cell>, rule: SkipRule)
    requires forall c :: 0 <= c < |columns| ==> !Kept(rule, CellAt(row, c))
    ensures RowText(columns, row, rule) == "\n\n"
  {
    if columns != [] {
      SkippedRowIsSeparator(columns[..|columns| - 1], row, rule);
    }
  }

  /** A row whose cells are all kept writes every column's field, in column order. */
  lemma {:induction false} FullRowWritesEveryField(columns: seq<string>, row: seq<Cell>, rule: SkipRule, k: nat)
    requires forall c :: 0 <= c < |columns| ==> Kept(rule, CellAt(row, c))
    requires k <= |columns|
    ensures RowFields(columns[..k], row, rule) == FieldsUpTo(columns, row, k)
  {
    if k > 0 {
      assert columns[..k][..k - 1] == columns[..k - 1];
      FullRowWritesEveryField(columns, row, rule, k - 1);
    }
  }

  function FieldsUpTo(columns: seq<string>, row: seq<Cell>, k: nat): string
    requires k <= |columns|
  {
    if k == 0 then "" else FieldsUpTo(columns, row, k - 1) + Field(columns[k - 1], CellAt(row, k - 1))
  }

  /** Sheets are written one after the other: the text of a workbook split in two is the two texts joined. */
  lemma {:induction false} WorkbookTextConcat(a: seq<Sheet>, b: seq<Sheet>, rule: SkipRule)
    ensures WorkbookText(a + b, rule) == WorkbookText(a, rule) + WorkbookText(b, rule)
    decreases |b|
  {
    if b == [] {
      assert a + b == a;
    } else {
      assert (a + b)[..|a + b| - 1] == a + b[..|b| - 1];
      WorkbookTextConcat(a, b[..|b| - 1], rule);
    }
  }

  /** Rows are written one after the other. */
  lemma {:induction false} RowsTextConcat(columns: seq<string>, a: seq<seq<Cell>>, b: seq<seq<Cell>>, rule: SkipRule)
    ensures RowsText(columns, a + b, rule) == RowsText(columns, a, rule) + RowsText(columns, b, rule)
    decreases |b|
  {
    if b == [] {
      assert a + b == a;
    } else {
      assert (a + b)[..|a + b| - 1] == a + b[..|b| - 1];
      RowsTextConcat(columns, a, b[..|b| - 1], rule);
    }
  }

  // ---------------------------------------------------------------------
  // The writing loops of `excel_to_txt`

  /** One row: the kept cells of each column in turn, then "\n\n". */
  method WriteRow(columns: seq<string>, row: seq<Cell>, rule: SkipRule) returns (out: string)
    ensures out == RowText(columns, row, rule)
  {
    out := "";
    for c := 0 to |columns|
      invariant out == RowFields(columns[..c], row, rule)
    {
      assert columns[..c + 1][..c] == columns[..c];
      var v := CellAt(row, c);
      if Kept(rule, v) {
        out := out + Field(columns[c], v);
      }
    }
    assert columns[..|columns|] == columns;
    out := out + "\n\n";
  }

  method WriteRows(columns: seq<string>, rows: seq<seq<Cell>>, rule: SkipRule) returns (out: string)
    ensures out == RowsText(columns, rows, rule)
  {
    out := "";
    for i := 0 to |rows|
      invariant out == RowsText(columns, rows[..i], rule)
    {
      assert rows[..i + 1][..i] == rows[..i];
      var line := WriteRow(columns, rows[i], rule);
      out := out + line;
    }
    assert rows[..|rows|] == rows;
  }

  /** The sheet loop: each sheet's name and "\n\n", then, once it parses, its rows; a failing parse ends the loop. */
  method WriteWorkbook(listed: seq<SheetRead>, rule: SkipRule) returns (out: string, error: Option<string>)
    ensures (out, error) == WorkbookWrite(listed, rule)
  {
    out := "";
    for i := 0 to |listed|
      invariant forall j :: 0 <= j < i ==> listed[j].frame.Success?
      invariant out == WorkbookText(ParsedSheets(listed, i), rule)
    {
      out := out + listed[i].name + "\n\n";
      if listed[i].frame.Failure? {
        assert ParsedCount(listed) == i;
        return out, Some(listed[i].frame.error);
      }
      var body := WriteRows(listed[i].frame.value.columns, listed[i].frame.value.rows, rule);
      out := out + body;
      assert ParsedSheets(listed, i + 1)[..i] == ParsedSheets(listed, i);
    }
    assert ParsedCount(listed) == |listed|;
    return out, None;
  }

  /** The CSV branch: the column names first, then the rows. */
  method WriteCsv(frame: Frame, rule: SkipRule) returns (out: string)
    ensures out == CsvText(frame, rule)
  {
    out := "";
    for c := 0 to |frame.columns|
      invariant out == HeaderText(frame.columns[..c])
    {
      assert frame.columns[..c + 1][..c] == frame.columns[..c];
      out := out + frame.columns[c] + "\n\n";
    }
    assert frame.columns[..|frame.columns|] == frame.columns;
    var body := WriteRows(frame.columns, frame.rows, rule);
    out := out + body;
  }

  // ---------------------------------------------------------------------
  // Dispatch on the file name

  /** What `prepare_file` does with one original file. */
  datatype PrepareAction = DownloadListed | CopyToInput | CopyAs(target: string)

  /**
   * `prepare_file`: its four `if` tests run in order; `hasDownload` is what
   * `has_download_files` gives (it raises when the sheet cannot be read).
   */
  function PrepareFile(file: string, hasDownload: Result<bool>): Result<seq<PrepareAction>> {
    var sheet: Result<seq<PrepareAction>> :=
      if EndsWith(file, ".xlsx") || EndsWith(file, ".csv") then
        match hasDownload
        case Failure(e) => Failure(e)
        case Success(b) => Success(if b then [DownloadListed] else [CopyToInput])
      else Success([]);
    match sheet
    case Failure(e) => Failure(e)
    case Success(acts) =>
      Success(acts
              + (if EndsWith(file, ".txt") then [CopyToInput] else [])
              + (if EndsWith(file, ".md") then [CopyAs(file + ".txt")] else [])
              + (if EndsWith(file, ".pdf") then [CopyToInput] else []))
  }

  lemma EndingsExclusive(file: string, a: string, b: string)
    requires a in {".xlsx", ".csv", ".txt", ".md", ".pdf"} && b in {".xlsx", ".csv", ".txt", ".md", ".pdf"} && a != b
    requires EndsWith(file, a)
    ensures !EndsWith(file, b)
  {
    assert file[|file| - 1] == a[|a| - 1];
    if a[|a| - 1] == b[|b| - 1] {
      assert file[|file| - 2] == a[|a| - 2];
    }
  }

  /**
   * The tests are exclusive, so at most one action happens: text and PDF
   * files are copied, Markdown is copied as `{file}.txt`, spreadsheets are
   * downloaded from when they list documents and copied otherwise, and any
   * other file is ignored.
   */
  lemma PrepareFileCopiesTextAndPdf(file: string, hasDownload: Result<bool>)
    requires EndsWith(file, ".txt") || EndsWith(file, ".pdf")
    ensures PrepareFile(file, hasDownload) == Success([CopyToInput])
  {
    var none: seq<PrepareAction> := [];
    if EndsWith(file, ".txt") {
      EndingsExclusive(file, ".txt", ".xlsx");
      EndingsExclusive(file, ".txt", ".csv");
      EndingsExclusive(file, ".txt", ".md");
      EndingsExclusive(file, ".txt", ".pdf");
      assert none + [CopyToInput] + [] + [] == [CopyToInput];
    } else {
      EndingsExclusive(file, ".pdf", ".xlsx");
      EndingsExclusive(file, ".pdf", ".csv");
      EndingsExclusive(file, ".pdf", ".md");
      assert none + [] + [] + [CopyToInput] == [CopyToInput];
    }
  }

  lemma PrepareFileRenamesMarkdown(file: string, hasDownload: Result<bool>)
    requires EndsWith(file, ".md")
    ensures PrepareFile(file, hasDownload) == Success([CopyAs(file + ".txt")])
  {
    var none: seq<PrepareAction> := [];
    EndingsExclusive(file, ".md", ".xlsx");
    EndingsExclusive(file, ".md", ".csv");
    EndingsExclusive(file, ".md", ".txt");
    EndingsExclusive(file, ".md", ".pdf");
    assert none + [] + [CopyAs(file + ".txt")] + [] == [CopyAs(file + ".txt")];
  }

  lemma PrepareFileReadsSheets(file: string, hasDownload: Result<bool>)
    requires EndsWith(file, ".xlsx") || EndsWith(file, ".csv")
    ensures hasDownload.Failure? ==> PrepareFile(file, hasDownload) == Failure(hasDownload.error)
    ensures hasDownload == Success(true) ==> PrepareFile(file, hasDownload) == Success([DownloadListed])
    ensures hasDownload == Success(false) ==> PrepareFile(file, hasDownload) == Success([CopyToInput])
  {
    var a := if EndsWith(file, ".xlsx") then ".xlsx" else ".csv";
    EndingsExclusive(file, a, ".txt");
    EndingsExclusive(file, a, ".md");
    EndingsExclusive(file, a, ".pdf");
    if hasDownload.Success? {
      var acts: seq<PrepareAction> := if hasDownload.value then [DownloadListed] else [CopyToInput];
      assert acts + [] + [] + [] == acts;
    }
  }

  lemma PrepareFileIgnoresOthers(file: string, hasDownload: Result<bool>)
    requires !EndsWith(file, ".xlsx") && !EndsWith(file, ".csv") && !EndsWith(file, ".txt")
    requires !EndsWith(file, ".md") && !EndsWith(file, ".pdf")
    ensures PrepareFile(file, hasDownload) == Success([])
  {
    var none: seq<PrepareAction> := [];
    assert none + [] + [] + [] == none;
  }

  /** No file name has two of the five endings the dispatch tests. */
  lemma EndingsPairwiseExclusive(file: string)
    ensures !(EndsWith(file, ".xlsx") && EndsWith(file, ".csv"))
    ensures !(EndsWith(file, ".xlsx") && EndsWith(file, ".txt"))
    ensures !(EndsWith(file, ".xlsx") && EndsWith(file, ".md"))
    ensures !(EndsWith(file, ".xlsx") && EndsWith(file, ".pdf"))
    ensures !(EndsWith(file, ".csv") && EndsWith(file, ".txt"))
    ensures !(EndsWith(file, ".csv") && EndsWith(file, ".md"))
    ensures !(EndsWith(file, ".csv") && EndsWith(file, ".pdf"))
    ensures !(EndsWith(file, ".txt") && EndsWith(file, ".md"))
    ensures !(EndsWith(file, ".txt") && EndsWith(file, ".pdf"))
    ensures !(EndsWith(file, ".md") && EndsWith(file, ".pdf"))
  {
    if EndsWith(file, ".xlsx") {
      EndingsExclusive(file, ".xlsx", ".csv");
      EndingsExclusive(file, ".xlsx", ".txt");
      EndingsExclusive(file, ".xlsx", ".md");
      EndingsExclusive(file, ".xlsx", ".pdf");
    }
    if EndsWith(file, ".csv") {
      EndingsExclusive(file, ".csv", ".xlsx");
      EndingsExclusive(file, ".csv", ".txt");
      EndingsExclusive(file, ".csv", ".md");
      EndingsExclusive(file, ".csv", ".pdf");
    }
    if EndsWith(file, ".txt") {
      EndingsExclusive(file, ".txt", ".xlsx");
      EndingsExclusive(file, ".txt", ".csv");
      EndingsExclusive(file, ".txt", ".md");
      EndingsExclusive(file, ".txt", ".pdf");
    }
    if EndsWith(file, ".md") {
      EndingsExclusive(file, ".md", ".xlsx");
      EndingsExclusive(file, ".md", ".csv");
      EndingsExclusive(file, ".md", ".txt");
      EndingsExclusive(file, ".md", ".pdf");
    }
    if EndsWith(file, ".pdf") {
      EndingsExclusive(file, ".pdf", ".xlsx");
      EndingsExclusive(file, ".pdf", ".csv");
      EndingsExclusive(file, ".pdf", ".txt");
      EndingsExclusive(file, ".pdf", ".md");
    }
  }

  lemma SheetIsNotPdf(file: string)
    ensures EndsWith(file, ".xlsx") || EndsWith(file, ".csv") ==> !EndsWith(file, ".pdf")
  {
    EndingsPairwiseExclusive(file);
  }

  /** What `convert_file` starts for one input file. */
  datatype Conversion = SheetToText | PdfToText

  function ConvertFile(file: string): (r: seq<Conversion>)
    ensures |r| <= 1
    ensures SheetToText in r <==> EndsWith(file, ".xlsx") || EndsWith(file, ".csv")
    ensures PdfToText in r <==> EndsWith(file, ".pdf")
  {
    SheetIsNotPdf(file);
    (if EndsWith(file, ".xlsx") || EndsWith(file, ".csv") then [SheetToText] else [])
    + (if EndsWith(file, ".pdf") then [PdfToText] else [])
  }

  // ---------------------------------------------------------------------
  // The project's input directory

  /** One `download_file`: an existing target is kept; a failed request writes nothing. */
  function AfterDownload(files: map<string, string>, name: string, fetched: Result<string>): map<string, string> {
    if name in files || fetched.Failure? then files else files[name := fetched.value]
  }

  /** Downloads one after the other, in row order. */
  function AfterDownloads(files: map<string, string>, names: seq<string>, fetched: seq<Result<string>>): map<string, string>
    requires |names| == |fetched|
  {
    if names == [] then files
    else
      var k := |names| - 1;
      AfterDownload(AfterDownloads(files, names[..k], fetched[..k]), names[k], fetched[k])
  }

  /**
   * Files present before are never replaced, every successful download is
   * present afterwards, nothing else appears, and of two downloads to the
   * same name the first successful one is kept.
   */
  lemma {:induction false} AfterDownloadsProperties(files: map<string, string>, names: seq<string>, fetched: seq<Result<string>>)
    requires |names| == |fetched|
    ensures forall p :: p in files ==> p in AfterDownloads(files, names, fetched) && AfterDownloads(files, names, fetched)[p] == files[p]
    ensures forall i :: 0 <= i < |names| && fetched[i].Success? ==> names[i] in AfterDownloads(files, names, fetched)
    ensures forall p :: p in AfterDownloads(files, names, fetched) ==>
              p in files || exists m :: 0 <= m < |names| && names[m] == p && fetched[m].Success?
    ensures forall i :: 0 <= i < |names| && names[i] !in files && fetched[i].Success?
                       && (forall j :: 0 <= j < i && names[j] == names[i] ==> fetched[j].Failure?)
                       ==> AfterDownloads(files, names, fetched)[names[i]] == fetched[i].value
  {
    if names != [] {
      var k := |names| - 1;
      AfterDownloadsProperties(files, names[..k], fetched[..k]);
      var before := AfterDownloads(files, names[..k], fetched[..k]);
      forall p | p in AfterDownloads(files, names, fetched) && p !in files
        ensures exists m :: 0 <= m < |names| && names[m] == p && fetched[m].Success?
      {
        if p in before {
          var m :| 0 <= m < k && names[..k][m] == p && fetched[..k][m].Success?;
          assert names[m] == p && fetched[m].Success?;
        } else {
          assert names[k] == p && fetched[k].Success?;
        }
      }
      forall i | 0 <= i < |names| && names[i] !in files && fetched[i].Success?
                 && (forall j :: 0 <= j < i && names[j] == names[i] ==> fetched[j].Failure?)
        ensures AfterDownloads(files, names, fetched)[names[i]] == fetched[i].value
      {
        if i == k {
          assert names[k] !in before;
        } else {
          assert names[..k][i] == names[i] && fetched[..k][i] == fetched[i];
        }
      }
    }
  }

  class InputDir {
    /** File name to contents. */
    var files: map<string, string>

    constructor (files: map<string, string>)
      ensures this.files == files
    {
      this.files := files;
    }

    /**
     * `download_file`: `fileName` is what `url_to_name` gives for the URL and
     * `fetched` the response body or the request error. An existing file is
     * never replaced.
     */
    method DownloadFile(fileName: string, fetched: Result<string>)
      modifies this
      ensures files == AfterDownload(old(files), fileName, fetched)
      ensures fileName in old(files) ==> files == old(files)
    {
      if fileName in files {
        return;
      }
      if fetched.Failure? {
        return;
      }
      files := files[fileName := fetched.value];
    }

    /**
     * The loop of `download_files_from_xlsx_csv`: for each row, when the
     * frame has a `doc_url` column, the file named after the row's URL is
     * downloaded. `urlToName` is `url_to_name`; `fetch` the HTTP request.
     */
    method DownloadListed(frame: Frame, urlToName: Cell -> string, fetch: Cell -> Result<string>)
      modifies this
      ensures files == AfterDownloads(old(files), ListedNames(frame, urlToName), ListedFetches(frame, fetch))
    {
      var col := ColumnIndex(frame.columns, "doc_url");
      for i := 0 to |frame.rows|
        invariant files == AfterDownloads(old(files), ListedNames(Upto(frame, i), urlToName), ListedFetches(Upto(frame, i), fetch))
      {
        ListedStep(frame, i, urlToName, fetch);
        if col.Some? {
          var url := CellAt(frame.rows[i], col.value);
          DownloadFile(urlToName(url), fetch(url));
        }
      }
      assert Upto(frame, |frame.rows|) == frame;
    }
  }

  function Upto(frame: Frame, i: nat): Frame
    requires i <= |frame.rows|
  {
    Frame(frame.columns, frame.rows[..i])
  }

  /** One more row adds its URL's download, when there is a `doc_url` column. */
  lemma ListedStep(frame: Frame, i: nat, urlToName: Cell -> string, fetch: Cell -> Result<string>)
    requires i < |frame.rows|
    ensures var col := ColumnIndex(frame.columns, "doc_url");
      var names := ListedNames(Upto(frame, i), urlToName);
      var got := ListedFetches(Upto(frame, i), fetch);
      var names' := ListedNames(Upto(frame, i + 1), urlToName);
      var got' := ListedFetches(Upto(frame, i + 1), fetch);
      |names| == |got| && |names'| == |got'| &&
      if col.None? then names' == names && got' == got
      else
        var url := CellAt(frame.rows[i], col.value);
        |names'| == |names| + 1 && names'[..|names|] == names && got'[..|got|] == got
        && names'[|names|] == urlToName(url) && got'[|got|] == fetch(url)
  {
  }

  /** The position of the first column with this label. */
  function ColumnIndex(columns: seq<string>, name: string): (r: Option<nat>)
    ensures r.None? <==> name !in columns
    ensures r.Some? ==> r.value < |columns| && columns[r.value] == name
  {
    if columns == [] then None
    else if columns[0] == name then Some(0)
    else match ColumnIndex(columns[1..], name)
      case None => None
      case Some(k) => Some(k + 1)
  }

  /** The URLs of the rows, in row order, when there is a `doc_url` column; none otherwise. */
  function ListedUrls(frame: Frame): (r: seq<Cell>)
    ensures "doc_url" !in frame.columns ==> r == []
    ensures "doc_url" in frame.columns ==> |r| == |frame.rows|
  {
    match ColumnIndex(frame.columns, "doc_url")
    case None => []
    case Some(k) => seq(|frame.rows|, i requires 0 <= i < |frame.rows| => CellAt(frame.rows[i], k))
  }

  function ListedNames(frame: Frame, urlToName: Cell -> string): seq<string> {
    var urls := ListedUrls(frame);
    seq(|urls|, i requires 0 <= i < |urls| => urlToName(urls[i]))
  }

  function ListedFetches(frame: Frame, fetch: Cell -> Result<string>): seq<Result<string>> {
    var urls := ListedUrls(frame);
    seq(|urls|, i requires 0 <= i < |urls| => fetch(urls[i]))
  }

  // ---------------------------------------------------------------------
  // Image file names

  function RemoveChars(s: string): (r: string)
    ensures ',' !in r && '&' !in r && '=' !in r && '.' !in r
  {
    Without(Without(Without(Without(s, ','), '&'), '='), '.')
  }

  /** `download_image`'s extension as written: after the last ".", then cut at the first "?". */
  function ImageExtensionAsWritten(url: string): (r: string)
    ensures ',' !in r && '&' !in r && '=' !in r && '.' !in r && '?' !in r
  {
    var ext := BeforeFirst(AfterLast(url, '.'), '?');
    RemoveCharsKeepsAbsent(BeforeFirst(AfterLast(url, '.'), '?'), '?');
    RemoveChars(ext)
  }

  lemma RemoveCharsKeepsAbsent(s: string, c: char)
    requires c !in s
    ensures c !in RemoveChars(s)
  {
  }

  /**
   * A query string holding a "." takes the extension from the query: for
   * `{base}.{ext}?{before}.{after}` the rule as written gives `after`
   * ("img.png?v=1.2" gives "2"), where the path's extension is `ext`.
   */
  lemma QueryDotBreaksExtension(base: string, ext: string, before: string, after: string)
    requires '?' !in base && '.' !in ext && '?' !in ext && ',' !in ext && '&' !in ext && '=' !in ext
    requires '.' !in after && '?' !in after && ',' !in after && '&' !in after && '=' !in after
    ensures var url := base + "." + ext + ("?" + (before + "." + after));
      ImageExtensionAsWritten(url) == after && ImageExtension(url) == ext
  {
    var head := base + "." + ext + "?" + before;
    var url := base + "." + ext + ("?" + (before + "." + after));
    assert url == head + "." + after;
    AfterLastOfSuffix(head, after);
    WithoutUnchanged(after, ',');
    WithoutUnchanged(after, '&');
    WithoutUnchanged(after, '=');
    WithoutUnchanged(after, '.');
    ImageExtensionOfPath(base, ext, Some(before + "." + after));
  }

  /** The extension of the URL's path: cut at the first "?", then after the last ".". */
  function ImageExtension(url: string): (r: string)
    ensures ',' !in r && '&' !in r && '=' !in r && '.' !in r && '?' !in r
  {
    var path := BeforeFirst(url, '?');
    RemoveCharsKeepsAbsent(AfterLast(path, '.'), '?');
    RemoveChars(AfterLast(path, '.'))
  }

  /** For `{base}.{ext}?{query}` or `{base}.{ext}`, the extension is `ext`, whatever the query holds. */
  lemma ImageExtensionOfPath(base: string, ext: string, query: Option<string>)
    requires '?' !in base && '.' !in ext && '?' !in ext && ',' !in ext && '&' !in ext && '=' !in ext
    ensures ImageExtension(base + "." + ext + (if query.Some? then "?" + query.value else "")) == ext
  {
    var path := base + "." + ext;
    var url := path + (if query.Some? then "?" + query.value else "");
    assert BeforeFirst(url, '?') == path by {
      assert url[..|path|] == path;
      if query.Some? {
        assert url[|path|] == '?';
      }
    }
    AfterLastOfSuffix(base, ext);
    WithoutUnchanged(ext, ',');
    WithoutUnchanged(ext, '&');
    WithoutUnchanged(ext, '=');
    WithoutUnchanged(ext, '.');
  }

  lemma AfterLastOfSuffix(base: string, ext: string)
    requires '.' !in ext
    ensures AfterLast(base + "." + ext, '.') == ext
  {
    AfterLastAfterDot(base + ".", ext);
  }

  /** After a prefix ending in ".", a dot-free tail is all that `AfterLast` keeps. */
  lemma {:induction false} AfterLastAfterDot(p: string, ext: string)
    requires p != [] && p[|p| - 1] == '.' && '.' !in ext
    ensures AfterLast(p + ext, '.') == ext
    decreases |ext|
  {
    if ext == [] {
      assert p + ext == p;
    } else {
      var s := p + ext;
      var init := ext[..|ext| - 1];
      var last := ext[|ext| - 1];
      assert s[..|s| - 1] == p + init;
      assert s[|s| - 1] == last;
      assert last != '.';
      assert AfterLast(s, '.') == AfterLast(p + init, '.') + [last];
      AfterLastAfterDot(p, init);
      assert init + [last] == ext;
    }
  }

  /** The two rules agree on URLs without a query string. */
  lemma ExtensionRulesAgreeWithoutQuery(url: string)
    requires '?' !in url
    ensures ImageExtension(url) == ImageExtensionAsWritten(url)
  {
    assert '?' !in AfterLast(url, '.');
  }

  /** `image_{i}.{ext}`. */
  function ImageFileName(index: int, ext: string): string {
    "image_" + IntToString(index) + "." + ext
  }

  /** Distinct images of one document with the same extension never share a file name. */
  lemma ImageFileNameInjective(i: nat, j: nat, ext: string)
    requires ImageFileName(i, ext) == ImageFileName(j, ext)
    ensures i == j
  {
    var a, b := ImageFileName(i, ext), ImageFileName(j, ext);
    NameMiddle(a, NatToString(i), ext);
    NameMiddle(b, NatToString(j), ext);
    DigitsValueOfNatToString(i);
    DigitsValueOfNatToString(j);
  }

  lemma NameMiddle(name: string, digits: string, ext: string)
    requires name == (("image_" + digits) + ".") + ext
    ensures |name| == 7 + |digits| + |ext| && name[6..6 + |digits|] == digits
  {
  }
}
