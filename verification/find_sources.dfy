/**
 * Query-source lookup: the page files in the project's `pdf_cache` whose
 * text contains a snippet the local search used are turned into source
 * records (document, screenshot, page, and a signed URL for each).
 */
module FindSources {

  import opened Wrappers
  import opened Strings
  import Blob
  import PdfTxt

  /** The message `parse_file_info` raises when a name does not match. */
  const ParseError := "输入字符串格式不正确，无法解析！"

  datatype FileInfo = FileInfo(pdfFile: string, screenshotFile: string, pageNumber: nat)

  /** Length of the run of ASCII digits starting at `i` (what a greedy `\d+` takes). */
  function DigitRun(s: string, i: nat): (d: nat)
    requires i <= |s|
    ensures i + d <= |s| && AllDigits(s[i..i + d])
    ensures i + d == |s| || !IsDigit(s[i + d])
    decreases |s| - i
  {
    if i < |s| && IsDigit(s[i]) then
      var d := DigitRun(s, i + 1);
      AllDigitsCons(s, i, d);
      1 + d
    else 0
  }

  lemma AllDigitsCons(s: string, i: nat, d: nat)
    requires i + 1 + d <= |s| && IsDigit(s[i]) && AllDigits(s[i + 1..i + 1 + d])
    ensures AllDigits(s[i..i + 1 + d])
  {
    var t := s[i..i + 1 + d];
    var u := s[i + 1..i + 1 + d];
    forall j | 0 <= j < |t|
      ensures IsDigit(t[j])
    {
      if j > 0 {
        assert t[j] == u[j - 1];
      }
    }
  }

  lemma {:induction false} DigitRunOf(s: string, i: nat, m: nat)
    requires i + m <= |s| && AllDigits(s[i..i + m])
    requires i + m == |s| || !IsDigit(s[i + m])
    ensures DigitRun(s, i) == m
    decreases m
  {
    if m > 0 {
      assert s[i + 1..i + m] == s[i..i + m][1..];
      DigitRunOf(s, i + 1, m - 1);
    }
  }

  /** The lazy group `(.*?\.pdf)` can end at `k`: no newline before it, ".pdf" just before `k`. */
  predicate GroupEndsAt(s: string, k: nat) {
    4 <= k <= |s| && s[k - 4..k] == ".pdf" && '\n' !in s[..k]
  }

  /** The whole pattern `(.*?\.pdf)_page_(\d+)\.png` matches at the start with its group ending at `k`. */
  predicate MatchAt(s: string, k: nat) {
    GroupEndsAt(s, k) && StartsWith(s[k..], "_page_")
    && DigitRun(s, k + 6) > 0 && StartsWith(s[k + 6 + DigitRun(s, k + 6)..], ".png")
  }

  /** The first group end, from `k` on, at which the pattern matches (the lazy quantifier's choice). */
  function FirstMatchFrom(s: string, k: nat): (r: Option<nat>)
    requires k <= |s|
    ensures r.Some? ==> k <= r.value <= |s| && MatchAt(s, r.value)
    ensures r.Some? ==> forall j :: k <= j < r.value ==> !MatchAt(s, j)
    ensures r.None? ==> forall j :: k <= j <= |s| ==> !MatchAt(s, j)
    decreases |s| - k
  {
    if MatchAt(s, k) then Some(k)
    else if k == |s| then None
    else FirstMatchFrom(s, k + 1)
  }

  /** The screenshot name `parse_file_info` rebuilds from the parsed document and page number. */
  function ScreenshotName(pdfFile: string, pageNumber: nat): string {
    pdfFile + "_page_" + NatToString(pageNumber) + ".png"
  }

  /** `parse_file_info`: the pattern is anchored at the start of the name but not at its end. */
  function ParseFileInfo(name: string): (r: Result<FileInfo>)
    ensures r.Failure? <==> forall k :: 0 <= k <= |name| ==> !MatchAt(name, k)
    ensures r.Failure? ==> r.error == ParseError
    ensures r.Success? ==>
      StartsWith(name, r.value.pdfFile) && EndsWith(r.value.pdfFile, ".pdf") && '\n' !in r.value.pdfFile
      && r.value.screenshotFile == ScreenshotName(r.value.pdfFile, r.value.pageNumber)
    ensures r.Success? ==>
      var k := |r.value.pdfFile|;
      MatchAt(name, k) && (forall j :: 0 <= j < k ==> !MatchAt(name, j))
      && r.value.pageNumber == DigitsValue(name[k + 6..k + 6 + DigitRun(name, k + 6)])
  {
    match FirstMatchFrom(name, 0)
    case None => Failure(ParseError)
    case Some(k) => Success(InfoAt(name, k))
  }

  /** The groups of a match whose first group ends at `k`: `int()` of the digits, and the rebuilt screenshot. */
  function InfoAt(s: string, k: nat): (r: FileInfo)
    requires k + 6 <= |s|
    ensures r.pdfFile == s[..k]
    ensures r.pageNumber == DigitsValue(s[k + 6..k + 6 + DigitRun(s, k + 6)])
    ensures r.screenshotFile == ScreenshotName(s[..k], r.pageNumber)
  {
    var d := DigitRun(s, k + 6);
    var n := DigitsValue(s[k + 6..k + 6 + d]);
    FileInfo(s[..k], ScreenshotName(s[..k], n), n)
  }

  lemma ContainsAt(s: string, needle: string, j: nat)
    requires j + |needle| <= |s| && s[j..j + |needle|] == needle
    ensures Contains(s, needle)
    decreases j
  {
    if j > 0 {
      assert s[1..][j - 1..j - 1 + |needle|] == needle;
      ContainsAt(s[1..], needle, j - 1);
    }
  }

  lemma DigitRunBefore(s: string, i: nat, digits: string, rest: string)
    requires i <= |s| && s[i..] == digits + rest && AllDigits(digits)
    requires rest != [] && !IsDigit(rest[0])
    ensures DigitRun(s, i) == |digits|
  {
    assert s[i..i + |digits|] == digits;
    assert s[i + |digits|] == rest[0];
    DigitRunOf(s, i, |digits|);
  }

  /** The pieces of a match assemble into one. */
  lemma MatchAtOf(s: string, k: nat, d: nat)
    requires GroupEndsAt(s, k) && StartsWith(s[k..], "_page_")
    requires DigitRun(s, k + 6) == d && d > 0 && StartsWith(s[k + 6 + d..], ".png")
    ensures MatchAt(s, k)
  {
  }

  lemma MatchAtNameEnd(s: string, pdf: string, digits: string, r1: string, r2: string, r3: string)
    requires EndsWith(pdf, ".pdf") && '\n' !in pdf && |digits| > 0 && AllDigits(digits)
    requires StartsWith(r1, ".png") && r2 == digits + r1 && r3 == "_page_" + r2 && s == pdf + r3
    ensures MatchAt(s, |pdf|) && DigitRun(s, |pdf| + 6) == |digits|
    ensures s[..|pdf|] == pdf && s[|pdf| + 6..|pdf| + 6 + |digits|] == digits
  {
    var k := |pdf|;
    SplitAt(pdf, r3);
    GroupEndsAtName(pdf, r3);
    PageTail(s, k, r2);
    DigitsTail(s, k + 6, digits, r1);
    DigitRunBefore(s, k + 6, digits, r1);
    MatchAtOf(s, k, |digits|);
  }

  /** After "_page_" comes the rest of the name. */
  lemma PageTail(s: string, k: nat, rest: string)
    requires k <= |s| && s[k..] == "_page_" + rest
    ensures StartsWith(s[k..], "_page_") && s[k + 6..] == rest
  {
    assert s[k + 6..] == s[k..][6..];
  }

  lemma DigitsTail(s: string, i: nat, digits: string, rest: string)
    requires i <= |s| && s[i..] == digits + rest
    ensures s[i..i + |digits|] == digits && s[i + |digits|..] == rest
  {
    assert s[i..i + |digits|] == s[i..][..|digits|];
    assert s[i + |digits|..] == s[i..][|digits|..];
  }

  lemma SplitAt(a: string, b: string)
    ensures (a + b)[..|a|] == a && (a + b)[|a|..] == b && StartsWith(a + b, a)
  {
  }

  /** The lazy group can end right after a name that ends in ".pdf" and holds no newline. */
  lemma GroupEndsAtName(pdf: string, rest: string)
    requires EndsWith(pdf, ".pdf") && '\n' !in pdf
    ensures GroupEndsAt(pdf + rest, |pdf|)
  {
    var s := pdf + rest;
    var k := |pdf|;
    assert s[..k] == pdf;
    assert s[k - 4..k] == pdf[k - 4..];
  }

  lemma NoMatchInsideName(pdf: string, tail: string, j: nat)
    requires EndsWith(pdf, ".pdf") && !Contains(pdf, "_page_") && j < |pdf|
    ensures !StartsWith((pdf + tail)[j..], "_page_")
  {
    if j + 6 <= |pdf| {
      NoMatchWithinName(pdf, tail, j);
    } else {
      NoMatchAcrossNameEnd(pdf, tail, j);
    }
  }

  /** A window inside the name would be an occurrence of "_page_" in the name. */
  lemma NoMatchWithinName(pdf: string, tail: string, j: nat)
    requires !Contains(pdf, "_page_") && j + 6 <= |pdf|
    ensures !StartsWith((pdf + tail)[j..], "_page_")
  {
    var s := pdf + tail;
    if StartsWith(s[j..], "_page_") {
      var w := s[j..][..6];
      assert w == pdf[j..j + 6] by {
        forall i | 0 <= i < 6 ensures w[i] == pdf[j + i] {
          assert w[i] == s[j + i];
        }
      }
      ContainsAt(pdf, "_page_", j);
    }
  }

  /** A window across the end of the name holds its final "f", which "_page_" does not. */
  lemma NoMatchAcrossNameEnd(pdf: string, tail: string, j: nat)
    requires EndsWith(pdf, ".pdf") && j < |pdf| < j + 6
    ensures !StartsWith((pdf + tail)[j..], "_page_")
  {
    var s := pdf + tail;
    if j + 6 <= |s| {
      var w := s[j..][..6];
      var m := |pdf| - 1 - j;
      assert pdf[|pdf| - 4..][3] == 'f';
      assert w[m] == s[|pdf| - 1] == pdf[|pdf| - 1];
      NoFInPage(m);
    }
  }

  lemma NoFInPage(m: nat)
    requires m < 6
    ensures "_page_"[m] != 'f'
  {
  }

  /**
   * The name of a page image of a document, with any suffix (".txt", or
   * ".{option}.txt"), parses back to that document and its 1-based page,
   * provided the document's name ends in ".pdf", has no newline and does
   * not itself contain "_page_".
   */
  lemma ParsePageFileName(pdf: string, page: nat, suffix: string)
    requires EndsWith(pdf, ".pdf") && '\n' !in pdf && !Contains(pdf, "_page_")
    ensures ParseFileInfo(PdfTxt.PageImageName(pdf, page) + suffix)
            == Success(FileInfo(pdf, PdfTxt.PageImageName(pdf, page), page + 1))
  {
    var digits := NatToString(page + 1);
    var r1 := ".png" + suffix;
    var r2 := digits + r1;
    var r3 := "_page_" + r2;
    PageFileNameShape(pdf, page, suffix);
    ParseAtNameEnd(PdfTxt.PageImageName(pdf, page) + suffix, pdf, digits, r1, r2, r3);
    DigitsValueOfNatToString(page + 1);
    assert ScreenshotName(pdf, page + 1) == PdfTxt.PageImageName(pdf, page);
  }

  lemma PageFileNameShape(pdf: string, page: nat, suffix: string)
    ensures PdfTxt.PageImageName(pdf, page) + suffix == pdf + ("_page_" + (NatToString(page + 1) + (".png" + suffix)))
  {
  }

  lemma ParseAtNameEnd(s: string, pdf: string, digits: string, r1: string, r2: string, r3: string)
    requires EndsWith(pdf, ".pdf") && '\n' !in pdf && !Contains(pdf, "_page_") && |digits| > 0 && AllDigits(digits)
    requires StartsWith(r1, ".png") && r2 == digits + r1 && r3 == "_page_" + r2 && s == pdf + r3
    ensures ParseFileInfo(s) == Success(FileInfo(pdf, ScreenshotName(pdf, DigitsValue(digits)), DigitsValue(digits)))
  {
    FirstMatchAtNameEnd(s, pdf, digits, r1, r2, r3);
    ParseOfFirstMatch(s, |pdf|);
    MatchAtNameEnd(s, pdf, digits, r1, r2, r3);
    InfoAtNameEnd(s, pdf, digits);
  }

  lemma InfoAtNameEnd(s: string, pdf: string, digits: string)
    requires |pdf| + 6 <= |s| && DigitRun(s, |pdf| + 6) == |digits| && AllDigits(digits)
    requires s[..|pdf|] == pdf && s[|pdf| + 6..|pdf| + 6 + |digits|] == digits
    ensures InfoAt(s, |pdf|) == FileInfo(pdf, ScreenshotName(pdf, DigitsValue(digits)), DigitsValue(digits))
  {
    InfoAtDigits(s, |pdf|, digits);
    var info := InfoAt(s, |pdf|);
    assert info == FileInfo(info.pdfFile, info.screenshotFile, info.pageNumber);
  }

  lemma FirstMatchAtNameEnd(s: string, pdf: string, digits: string, r1: string, r2: string, r3: string)
    requires EndsWith(pdf, ".pdf") && '\n' !in pdf && !Contains(pdf, "_page_") && |digits| > 0 && AllDigits(digits)
    requires StartsWith(r1, ".png") && r2 == digits + r1 && r3 == "_page_" + r2 && s == pdf + r3
    ensures |pdf| <= |s| && FirstMatchFrom(s, 0) == Some(|pdf|)
  {
    MatchAtNameEnd(s, pdf, digits, r1, r2, r3);
    forall j | 0 <= j < |pdf|
      ensures !MatchAt(s, j)
    {
      NoMatchInsideName(pdf, r3, j);
    }
  }

  lemma ParseOfFirstMatch(s: string, k: nat)
    requires k <= |s| && FirstMatchFrom(s, 0) == Some(k)
    ensures ParseFileInfo(s) == Success(InfoAt(s, k))
  {
  }

  lemma InfoAtDigits(s: string, k: nat, digits: string)
    requires k + 6 <= |s| && DigitRun(s, k + 6) == |digits| && s[k + 6..k + 6 + |digits|] == digits && AllDigits(digits)
    ensures InfoAt(s, k).pageNumber == DigitsValue(digits)
  {
  }

  /** A file of the cache directory: its name and its text, or the error reading it raises. */
  datatype CacheFile = CacheFile(name: string, content: Result<string>)

  datatype SourceRecord = SourceRecord(pdfFile: string, screenshotFile: string, pageNumber: nat,
                                       pdfSasUrl: string, pdfSasUrlError: string,
                                       screenshotSasUrl: string, screenshotSasUrlError: string)

  /** The list built so far and `screenshot_sas_url_cache`. */
  datatype ScanState = ScanState(sources: seq<SourceRecord>, screenshotUrls: map<string, string>)

  function Record(ctx: Blob.SasContext, info: FileInfo): SourceRecord {
    var pdf := Blob.GetSasUrl(ctx, info.pdfFile);
    var shot := Blob.GetSasUrl(ctx, info.screenshotFile);
    SourceRecord(info.pdfFile, info.screenshotFile, info.pageNumber, pdf.0, pdf.1, shot.0, shot.1)
  }

  /** One file examined for one snippet; unreadable or unparsable files are skipped. */
  function ScanFile(st: ScanState, text: string, f: CacheFile, ctx: Blob.SasContext): ScanState {
    if f.content.Failure? || !Contains(f.content.value, text) then st
    else match ParseFileInfo(f.name)
      case Failure(_) => st
      case Success(info) =>
        if info.screenshotFile in st.screenshotUrls then st
        else
          var rec := Record(ctx, info);
          ScanState(st.sources + [rec], st.screenshotUrls[info.screenshotFile := rec.screenshotSasUrl])
  }

  /** The inner loop: the directory's files, in listing order, for one snippet. */
  function ScanFiles(st: ScanState, text: string, files: seq<CacheFile>, ctx: Blob.SasContext): ScanState
    decreases |files|
  {
    if files == [] then st else ScanFiles(ScanFile(st, text, files[0], ctx), text, files[1..], ctx)
  }

  /** The outer loop: each snippet not seen before scans the whole directory. */
  function ScanTexts(st: ScanState, seen: set<string>, texts: seq<string>, files: seq<CacheFile>,
                     ctx: Blob.SasContext): ScanState
    decreases |texts|
  {
    if texts == [] then st
    else if texts[0] in seen then ScanTexts(st, seen, texts[1..], files, ctx)
    else ScanTexts(ScanFiles(st, texts[0], files, ctx), seen + {texts[0]}, texts[1..], files, ctx)
  }

  const Empty := ScanState([], map[])

  /**
   * `get_query_sources`: no cache directory or no snippets gives an empty
   * list; a context without a "sources" entry raises the `KeyError`.
   */
  function QuerySources(cacheDir: Option<seq<CacheFile>>, sources: Option<seq<string>>,
                        ctx: Blob.SasContext): Result<seq<SourceRecord>>
  {
    if cacheDir.None? then Success([])
    else if sources.None? then Failure("'sources'")
    else if sources.value == [] then Success([])
    else Success(ScanTexts(Empty, {}, sources.value, cacheDir.value, ctx).sources)
  }

  method GetQuerySources(cacheDir: Option<seq<CacheFile>>, sources: Option<seq<string>>,
                         ctx: Blob.SasContext) returns (r: Result<seq<SourceRecord>>)
    ensures r == QuerySources(cacheDir, sources, ctx)
  {
    if cacheDir.None? {
      return Success([]);
    }
    if sources.None? {
      return Failure("'sources'");
    }
    var texts := sources.value;
    if |texts| == 0 {
      return Success([]);
    }
    var files := cacheDir.value;
    var found: seq<SourceRecord> := [];
    var sourceCache: set<string> := {};
    var screenshotSasUrlCache: map<string, string> := map[];
    var i := 0;
    while i < |texts|
      invariant 0 <= i <= |texts|
      invariant ScanTexts(ScanState(found, screenshotSasUrlCache), sourceCache, texts[i..], files, ctx)
                == ScanTexts(Empty, {}, texts, files, ctx)
    {
      assert texts[i..][1..] == texts[i + 1..];
      var text := texts[i];
      if text in sourceCache {
        i := i + 1;
        continue;
      }
      ghost var start := ScanState(found, screenshotSasUrlCache);
      var j := 0;
      while j < |files|
        invariant 0 <= j <= |files|
        invariant ScanFiles(ScanState(found, screenshotSasUrlCache), text, files[j..], ctx)
                  == ScanFiles(start, text, files, ctx)
      {
        assert files[j..][1..] == files[j + 1..];
        var f := files[j];
        j := j + 1;
        if f.content.Failure? || !Contains(f.content.value, text) {
          continue;
        }
        var parsed := ParseFileInfo(f.name);
        if parsed.Failure? {
          continue;
        }
        var info := parsed.value;
        if info.screenshotFile in screenshotSasUrlCache {
          continue;
        }
        var pdfUrl := Blob.GetSasUrl(ctx, info.pdfFile);
        var shotUrl := Blob.GetSasUrl(ctx, info.screenshotFile);
        found := found + [SourceRecord(info.pdfFile, info.screenshotFile, info.pageNumber,
                                       pdfUrl.0, pdfUrl.1, shotUrl.0, shotUrl.1)];
        screenshotSasUrlCache := screenshotSasUrlCache[info.screenshotFile := shotUrl.0];
      }
      sourceCache := sourceCache + {text};
      i := i + 1;
    }
    return Success(found);
  }

  // ---------------------------------------------------------------------
  // Properties of the scan

  function Screens(sources: seq<SourceRecord>): (r: seq<string>)
    ensures |r| == |sources| && forall i :: 0 <= i < |r| ==> r[i] == sources[i].screenshotFile
  {
    if sources == [] then [] else Screens(sources[..|sources| - 1]) + [sources[|sources| - 1].screenshotFile]
  }

  /** The URL cache holds exactly the screenshots listed, and none is listed twice. */
  ghost predicate Consistent(st: ScanState) {
    (forall i, j :: 0 <= i < j < |st.sources| ==> st.sources[i].screenshotFile != st.sources[j].screenshotFile)
    && (forall s :: s in st.screenshotUrls <==> s in Screens(st.sources))
  }

  /** Every listed record comes from a file holding one of the snippets, parsed and signed as the source does. */
  ghost predicate Sound(st: ScanState, texts: seq<string>, files: seq<CacheFile>, ctx: Blob.SasContext) {
    forall r :: r in st.sources ==> (exists f, t :: f in files && t in texts && From(r, f, t, ctx))
  }

  /** Record `r` is what file `f`, holding snippet `t`, yields. */
  ghost predicate From(r: SourceRecord, f: CacheFile, t: string, ctx: Blob.SasContext) {
    f.content.Success? && Contains(f.content.value, t)
    && ParseFileInfo(f.name) == Success(FileInfo(r.pdfFile, r.screenshotFile, r.pageNumber))
    && r == Record(ctx, FileInfo(r.pdfFile, r.screenshotFile, r.pageNumber))
  }

  /** A readable, parsable file holding `text`. */
  ghost predicate Hit(f: CacheFile, text: string) {
    f.content.Success? && Contains(f.content.value, text) && ParseFileInfo(f.name).Success?
  }

  /** Every hit for `text` among `files` already has its screenshot listed. */
  ghost predicate Covered(st: ScanState, text: string, files: seq<CacheFile>) {
    forall f :: f in files && Hit(f, text) ==> ParseFileInfo(f.name).value.screenshotFile in st.screenshotUrls
  }

  lemma ScanFileGrows(st: ScanState, text: string, f: CacheFile, ctx: Blob.SasContext)
    ensures st.screenshotUrls.Keys <= ScanFile(st, text, f, ctx).screenshotUrls.Keys
    ensures Hit(f, text) ==> ParseFileInfo(f.name).value.screenshotFile in ScanFile(st, text, f, ctx).screenshotUrls
  {
  }

  lemma {:induction false} ScanFilesCovers(st: ScanState, text: string, files: seq<CacheFile>, ctx: Blob.SasContext)
    ensures st.screenshotUrls.Keys <= ScanFiles(st, text, files, ctx).screenshotUrls.Keys
    ensures Covered(ScanFiles(st, text, files, ctx), text, files)
    decreases |files|
  {
    if files != [] {
      var next := ScanFile(st, text, files[0], ctx);
      ScanFileGrows(st, text, files[0], ctx);
      ScanFilesCovers(next, text, files[1..], ctx);
      var fin := ScanFiles(st, text, files, ctx);
      forall f | f in files && Hit(f, text)
        ensures ParseFileInfo(f.name).value.screenshotFile in fin.screenshotUrls
      {
        if f != files[0] {
          assert f in files[1..];
        }
      }
    }
  }

  lemma ScanFileKeeps(st: ScanState, text: string, f: CacheFile, ctx: Blob.SasContext,
                      texts: seq<string>, files: seq<CacheFile>)
    requires Consistent(st) && Sound(st, texts, files, ctx)
    requires f in files && text in texts
    ensures Consistent(ScanFile(st, text, f, ctx)) && Sound(ScanFile(st, text, f, ctx), texts, files, ctx)
  {
    var st' := ScanFile(st, text, f, ctx);
    if st' != st {
      var info := ParseFileInfo(f.name).value;
      var rec := Record(ctx, info);
      assert st'.sources == st.sources + [rec];
      AppendKeepsConsistent(st, rec);
      assert From(rec, f, text, ctx);
      forall r | r in st'.sources
        ensures exists f, t :: f in files && t in texts && From(r, f, t, ctx)
      {
        if r != rec {
          assert r in st.sources;
        }
      }
    }
  }

  lemma AppendKeepsConsistent(st: ScanState, rec: SourceRecord)
    requires Consistent(st) && rec.screenshotFile !in st.screenshotUrls
    ensures Consistent(ScanState(st.sources + [rec], st.screenshotUrls[rec.screenshotFile := rec.screenshotSasUrl]))
  {
    var srcs := st.sources + [rec];
    assert srcs[..|srcs| - 1] == st.sources;
    assert Screens(srcs) == Screens(st.sources) + [rec.screenshotFile];
    forall i | 0 <= i < |st.sources|
      ensures st.sources[i].screenshotFile != rec.screenshotFile
    {
      assert Screens(st.sources)[i] == st.sources[i].screenshotFile;
    }
  }

  lemma {:induction false} ScanFilesKeeps(st: ScanState, text: string, files: seq<CacheFile>, ctx: Blob.SasContext,
                                          texts: seq<string>, all: seq<CacheFile>)
    requires Consistent(st) && Sound(st, texts, all, ctx)
    requires (forall f :: f in files ==> f in all) && text in texts
    ensures Consistent(ScanFiles(st, text, files, ctx)) && Sound(ScanFiles(st, text, files, ctx), texts, all, ctx)
    decreases |files|
  {
    if files != [] {
      ScanFileKeeps(st, text, files[0], ctx, texts, all);
      ScanFilesKeeps(ScanFile(st, text, files[0], ctx), text, files[1..], ctx, texts, all);
    }
  }

  /** Scanning a snippet whose hits are all listed already changes nothing. */
  lemma {:induction false} ScanFilesCovered(st: ScanState, text: string, files: seq<CacheFile>, ctx: Blob.SasContext)
    requires Covered(st, text, files)
    ensures ScanFiles(st, text, files, ctx) == st
    decreases |files|
  {
    if files != [] {
      assert ScanFile(st, text, files[0], ctx) == st;
      assert Covered(st, text, files[1..]) by {
        forall f | f in files[1..] && Hit(f, text)
          ensures ParseFileInfo(f.name).value.screenshotFile in st.screenshotUrls
        {
          assert f in files;
        }
      }
      ScanFilesCovered(st, text, files[1..], ctx);
    }
  }

  /** Scanning the directory twice for one snippet gives what scanning it once gives. */
  lemma RescanChangesNothing(st: ScanState, text: string, files: seq<CacheFile>, ctx: Blob.SasContext)
    ensures ScanFiles(ScanFiles(st, text, files, ctx), text, files, ctx) == ScanFiles(st, text, files, ctx)
  {
    ScanFilesCovers(st, text, files, ctx);
    ScanFilesCovered(ScanFiles(st, text, files, ctx), text, files, ctx);
  }

  /** The outer loop without `source_cache`: every snippet scans the directory. */
  function ScanEvery(st: ScanState, texts: seq<string>, files: seq<CacheFile>, ctx: Blob.SasContext): ScanState
    decreases |texts|
  {
    if texts == [] then st else ScanEvery(ScanFiles(st, texts[0], files, ctx), texts[1..], files, ctx)
  }

  /** Skipping snippets already seen is only an optimisation: the result is the same without it. */
  lemma {:induction false} SkippingSeenIsOptimisation(st: ScanState, seen: set<string>, texts: seq<string>,
                                                      files: seq<CacheFile>, ctx: Blob.SasContext)
    requires forall t :: t in seen ==> Covered(st, t, files)
    ensures ScanTexts(st, seen, texts, files, ctx) == ScanEvery(st, texts, files, ctx)
    decreases |texts|
  {
    if texts != [] {
      var t := texts[0];
      if t in seen {
        ScanFilesCovered(st, t, files, ctx);
        SkippingSeenIsOptimisation(st, seen, texts[1..], files, ctx);
      } else {
        var next := ScanFiles(st, t, files, ctx);
        ScanFilesCovers(st, t, files, ctx);
        SkippingSeenIsOptimisation(next, seen + {t}, texts[1..], files, ctx);
      }
    }
  }

  lemma {:induction false} ScanTextsKeeps(st: ScanState, seen: set<string>, texts: seq<string>, files: seq<CacheFile>,
                                          ctx: Blob.SasContext, all: seq<string>)
    requires Consistent(st) && Sound(st, all, files, ctx)
    requires forall t :: t in texts ==> t in all
    ensures Consistent(ScanTexts(st, seen, texts, files, ctx)) && Sound(ScanTexts(st, seen, texts, files, ctx), all, files, ctx)
    decreases |texts|
  {
    if texts != [] {
      var t := texts[0];
      if t in seen {
        ScanTextsKeeps(st, seen, texts[1..], files, ctx, all);
      } else {
        ScanFilesKeeps(st, t, files, ctx, all, files);
        ScanTextsKeeps(ScanFiles(st, t, files, ctx), seen + {t}, texts[1..], files, ctx, all);
      }
    }
  }

  lemma {:induction false} ScanTextsCovers(st: ScanState, seen: set<string>, texts: seq<string>,
                                           files: seq<CacheFile>, ctx: Blob.SasContext)
    requires forall t :: t in seen ==> Covered(st, t, files)
    ensures forall t :: t in seen || t in texts ==> Covered(ScanTexts(st, seen, texts, files, ctx), t, files)
    decreases |texts|
  {
    if texts != [] {
      var t := texts[0];
      if t in seen {
        ScanTextsCovers(st, seen, texts[1..], files, ctx);
      } else {
        var next := ScanFiles(st, t, files, ctx);
        ScanFilesCovers(st, t, files, ctx);
        forall u | u in seen ensures Covered(next, u, files) {
          assert Covered(st, u, files);
        }
        ScanTextsCovers(next, seen + {t}, texts[1..], files, ctx);
      }
    }
  }

  /** No screenshot is listed twice. */
  lemma QuerySourcesDistinct(cacheDir: Option<seq<CacheFile>>, sources: Option<seq<string>>, ctx: Blob.SasContext)
    requires QuerySources(cacheDir, sources, ctx).Success?
    ensures var rs := QuerySources(cacheDir, sources, ctx).value;
      forall i, j :: 0 <= i < j < |rs| ==> rs[i].screenshotFile != rs[j].screenshotFile
  {
    if cacheDir.Some? && sources.Some? && sources.value != [] {
      ScanTextsKeeps(Empty, {}, sources.value, cacheDir.value, ctx, sources.value);
    }
  }

  /**
   * Every record comes from a readable cache file that holds one of the
   * snippets; its fields are what parsing that file's name gives, and its
   * URLs and errors are what signing the document and the screenshot gives.
   */
  lemma QuerySourcesSound(cacheDir: Option<seq<CacheFile>>, sources: Option<seq<string>>, ctx: Blob.SasContext)
    requires QuerySources(cacheDir, sources, ctx).Success?
    ensures forall r :: r in QuerySources(cacheDir, sources, ctx).value ==>
      (exists f, t :: f in cacheDir.value && t in sources.value && From(r, f, t, ctx))
  {
    if cacheDir.Some? && sources.Some? && sources.value != [] {
      ScanTextsKeeps(Empty, {}, sources.value, cacheDir.value, ctx, sources.value);
    }
  }

  /** Every readable, parsable cache file holding some snippet has its screenshot listed. */
  lemma QuerySourcesComplete(files: seq<CacheFile>, texts: seq<string>, ctx: Blob.SasContext, f: CacheFile, t: string)
    requires f in files && t in texts && Hit(f, t)
    ensures ParseFileInfo(f.name).value.screenshotFile in Screens(QuerySources(Some(files), Some(texts), ctx).value)
  {
    ScanTextsCovers(Empty, {}, texts, files, ctx);
    ScanTextsKeeps(Empty, {}, texts, files, ctx, texts);
  }

  /** A missing cache directory or an empty snippet list gives no sources; a context without sources raises. */
  lemma QuerySourcesEdgeCases(files: seq<CacheFile>, sources: Option<seq<string>>, ctx: Blob.SasContext)
    ensures QuerySources(None, sources, ctx) == Success([])
    ensures QuerySources(Some(files), Some([]), ctx) == Success([])
    ensures QuerySources(Some(files), None, ctx).Failure?
  {
  }
}
