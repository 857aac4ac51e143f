# graphrag_webui core, modelled in Dafny

graphrag_webui is a web UI, a command line and a small HTTP API around
Microsoft GraphRAG. Users create projects and feed them documents:
spreadsheets, CSV, Markdown, text and PDF files, with PDF pages turned into
text by OCR or vision models. The tool then builds a GraphRAG index for
each project and answers local, global and drift searches over it. Answers
are attributed to the PDF pages they came from, with signed blob-storage
links to the page screenshots.

This project models the rules at the centre of that system as Dafny
datatypes, functions, classes and methods, and proves properties about them:

- the API's bounded local-search cache (first in, first out, 20 entries),
  its API-key check and the result shape of the three search endpoints;
- source attribution: the page-file name grammar, which inverts the PDF
  page-cache naming, and the deduplicating scan of the page cache;
- answer trimming before display;
- project naming, the access predicates, the project listing and the
  built-index check;
- blob container naming, upload content settings and signed URLs;
- filtering, batching and upload sequencing for Azure AI Search;
- the spreadsheet and CSV serialisers, the extension dispatch and the
  download and image-extension rules of data preparation, in the command
  line and in the web UI variant;
- `.env` merging, the required-file check, the index-preview partition,
  settings normalisation with backup and restore around `graphrag index`,
  and project initialisation;
- the token-usage classifiers and tallies, the streaming search callbacks
  and the index-preview dispatch.

Each Python module is one Dafny module. Code that changes state step by
step is modelled as a class whose methods say in their postconditions
what the new state is, or as a method whose loop is proved against a
specification function. Examples are the cache, the blob account, the
search store, the input directory, the project tree, the build workspace,
the PDF page cache and the callbacks. Pure code becomes functions. Some
things are outside the code: the file system, YAML, HTTP, the Azure SDKs,
the LLM and OCR calls, and the clock. Each of these is a parameter: a
listing, a `Result` value or a function argument.

## Model

| member | source | states |
|---|---|---|
| `AppApi.CheckApiKey` | app_api.py:66-69 | the only error the key check raises is "Invalid api-key" |
| `AppApi.CheckApiKeyRefusesIff` | app_api.py:66-69 | the key is refused exactly when `API_KEY` is set, non-empty and differs from the supplied key |
| `AppApi.CheckApiKeyAccepts` | app_api.py:66-69 | an unset or empty `API_KEY` accepts any key; the configured key is always accepted |
| `AppApi.AfterSetWellFormed` | app_api.py:44-45 | a set keeps the cache well formed: distinct keys in insertion order, exactly the stored entries, never more than 20 |
| `AppApi.AfterSetStores` | app_api.py:63 | after a set, the query is a key and maps to the stored result |
| `AppApi.AfterSetEvictsOldest` | app_api.py:61-63 | at the limit the first-inserted key is evicted (FIFO); every other key keeps its result and place, and the new query goes last unless already present |
| `AppApi.AfterSetBelowLimitKeeps` | app_api.py:61-63 | below the limit nothing is evicted and every other entry and the key order are kept |
| `AppApi.LocalSearchCache.constructor` | app_api.py:44 | the cache starts empty and well formed |
| `AppApi.LocalSearchCache.Get` | app_api.py:48-54 | `None` when the request's cache flag is off; otherwise the entry stored under the verbatim query, or `None` when there is none; a read changes nothing |
| `AppApi.LocalSearchCache.Set` | app_api.py:57-63 | with the flag off nothing changes; with it on the cache becomes the evict-then-insert state, and stays well formed |
| `AppApi.LocalSearchCache.LocalSearch` | app_api.py:73-110 | answers what `LocalSearchResponse` describes; only a freshly built answer is cached, and only when the flag is on; errors and cache hits leave the cache alone |
| `AppApi.LocalSearchRefusesBadKey` | app_api.py:75-76 | about `LocalSearchResponse`, the answer of the local search endpoint: a refused key gives `{"error": "Invalid api-key"}` before the cache is consulted |
| `AppApi.LocalSearchShape` | app_api.py:92-110 | about `LocalSearchResponse`: a fresh local answer has message "ok" and the query; `sources` is present exactly when `query_source` is set, `context_data` exactly when asked; an engine failure becomes an error response |
| `AppApi.CachedResultIgnoresFlags` | app_api.py:78-80 | a cached result is returned as stored, whatever flags the later request carries |
| `AppApi.GlobalSearch` | app_api.py:114-143 | "ok" and the query, never `sources`, `context_data` exactly when asked; a refused key gives the key error |
| `AppApi.DriftSearch` | app_api.py:146-173 | the same shape as global search; a refused key gives the key error |
| `AppApi.EngineFailureIsReported` | app_api.py:140-143 | an engine failure surfaces as `{"error": str(e)}` from the global and drift endpoints |
| `FindSources.DigitRun` | libs/find_sources.py:9 | the greedy `\d+` run: every character taken is a digit and the next one is not |
| `FindSources.FirstMatchFrom` | libs/find_sources.py:9 | the lazy group's choice: the returned end is a match and no earlier end is; `None` means no end matches |
| `FindSources.ParseFileInfo` | libs/find_sources.py:8-16 | fails with the fixed message exactly when no prefix of the name matches `(.*?\.pdf)_page_(\d+)\.png`; on success the document is the shortest newline-free prefix ending in ".pdf" at which the pattern matches (no shorter one does), the page number is `int()` of the whole digit run after "_page_", and the screenshot is rebuilt from the two |
| `FindSources.InfoAt` | libs/find_sources.py:11-14 | the groups at a match: the document is the text before the group end, the page number is `int()` of the digit run after "_page_", and the screenshot is `{document}_page_{page}.png` |
| `FindSources.ParsePageFileName` | libs/find_sources.py:8-14 | round trip with the page-cache naming: a page image name of page index p, followed by any suffix, parses to the document, that image name and page p+1 (document ends in ".pdf", has no newline and no "_page_") |
| `FindSources.GetQuerySources` | libs/find_sources.py:19-66 | the nested loops compute exactly `QuerySources`: snippets in order, unseen ones only, files in listing order |
| `FindSources.ScanFilesCovers` | libs/find_sources.py:40-60 | after scanning the directory for a snippet, every readable, parsable file holding it has its screenshot in the URL cache |
| `FindSources.ScanFilesKeeps` | libs/find_sources.py:40-60 | the inner loop keeps the URL cache equal to the listed screenshots, none listed twice, and every record sound |
| `FindSources.ScanFilesCovered` | libs/find_sources.py:47-48 | scanning for a snippet whose hits are all listed already changes nothing |
| `FindSources.RescanChangesNothing` | libs/find_sources.py:37-38 | scanning the directory twice for one snippet gives what scanning it once gives |
| `FindSources.SkippingSeenIsOptimisation` | libs/find_sources.py:33-38 | skipping snippets already seen gives the same records as scanning for every snippet |
| `FindSources.ScanTextsKeeps` | libs/find_sources.py:36-64 | the outer loop keeps the consistency and soundness invariants |
| `FindSources.ScanTextsCovers` | libs/find_sources.py:36-64 | after the outer loop every snippet's hits are listed |
| `FindSources.QuerySourcesDistinct` | libs/find_sources.py:47-48 | about `QuerySources`, the result of `get_query_sources`: no two records share a screenshot file |
| `FindSources.QuerySourcesSound` | libs/find_sources.py:45-59 | every record comes from a readable cache file holding a snippet; its fields are the parse of that file's name and its URLs and errors are the signing results |
| `FindSources.QuerySourcesComplete` | libs/find_sources.py:40-60 | every readable, parsable cache file that holds some snippet has its screenshot listed |
| `FindSources.QuerySourcesEdgeCases` | libs/find_sources.py:23-31 | no cache directory or an empty snippet list gives `[]`; a context without "sources" raises |
| `RenderContext.GetRealResponse` | libs/render_context.py:6-7 | never fails; the result holds no "["; without "[" it is the stripped answer, otherwise the stripped text before the first "[" (so an answer starting with "[" gives "") |
| `RenderContext.RenderResponse` | libs/render_context.py:77-80 | shows the stripped answer, and the length it reports is that of the trimmed raw answer |
| `RenderContext.TrimAfterStripIsTrim` | libs/render_context.py:78-79 | trimming the stripped answer gives the same text as trimming the raw answer |
| `RenderContext.GetRealResponseIdempotent` | libs/render_context.py:6-7 | trimming twice is trimming once |
| `RenderContext.StripIdempotent` | libs/render_context.py:7 | `strip()` applied twice is `strip()` once |
| `RenderContext.StripSlice` | libs/render_context.py:7 | `strip()` keeps a contiguous slice and removes only white space on either side |
| `PdfTxt.PageImageName` | libs/pdf_txt.py:30 | the image name of 0-based page p is `{pdf}_page_{p+1}.png` and ends in ".png" |
| `PdfTxt.PageImageNameInjective` | libs/pdf_txt.py:30 | distinct pages of one document never share an image name |
| `PdfTxt.NewPageTask` | libs/pdf_txt.py:23-33 | the option loses every space; image, text and AI-text paths lie under the project's `pdf_cache`, the text paths being the image path plus ".txt" or ".{option}.txt" |
| `PdfTxt.FullTextPath` | libs/pdf_txt.py:208 | the document text path is `{pdf_path}.{option without spaces}.txt` |
| `PdfTxt.UnknownOptionGivesEmpty` | libs/pdf_txt.py:63-84 | about `RunExtractors`, the five `if` tests of `get_ai_txt`: an option equal to none of the five extracts nothing and completes with `("", "")` |
| `PdfTxt.VisionOptionSelectsItsExtractor` | libs/pdf_txt.py:65-67 | about `RunExtractors`: a vision option yields exactly its extractor's pair, or the initial empty pair when it raises |
| `PdfTxt.DiOptionLeavesPromptEmpty` | libs/pdf_txt.py:78-79 | about `RunExtractors`: Document Intelligence sets only the text; the prompt stays "" |
| `PdfTxt.PageCacheDir.constructor` | libs/pdf_txt.py:209-210 | the cache directory holds the given files |
| `PdfTxt.PageCacheDir.GetAiTxt` | libs/pdf_txt.py:55-90 | a cached AI text is returned with an empty prompt and nothing is written; otherwise the image file holds the rendering, the returned text is what the extractors produce in order, and the text is cached only when they complete; a failing rendering writes nothing and returns its error; no other file changes |
| `PdfTxt.PageCacheDir.AssembleText` | libs/pdf_txt.py:236-246 | the file written is "\n" and then "\n\n" plus the text of each page, in page order. Page i's text comes from its own cache file when one exists; otherwise its image was rendered and the text is what the extractors produce. Afterwards page i's text file exists exactly when it was cached or its extractors completed, and it holds the page's text; cached text files are never overwritten. A page whose rendering raises ends the pass after its "\n\n": it was not cached and the error is its image's error. The cache directory changes only where the pass put files: an uncached page's image file holds its rendering, a cached page's image file is left as it was, every new text file is the text file of a page of this pass, and every other file keeps its presence and contents |
| `PdfTxt.AiTxtPathInjective` | libs/pdf_txt.py:32 | distinct pages of one document never share a text cache file |
| `PdfTxt.ImgPathInjective` | libs/pdf_txt.py:30 | distinct pages of one document never share an image file in the cache directory |
| `PdfTxt.FreshImageOutsideKeys` | libs/pdf_txt.py:30-32 | the image file of the next page is not its own text file and not a file of any earlier page of the pass |
| `PdfTxt.WriteKeepsTextFiles` | libs/pdf_txt.py:45 | writing a page image leaves every ".txt" file as it was |
| `PdfTxt.AssembledAppend` | libs/pdf_txt.py:242-246 | one more page adds "\n\n" and its text to the end |
| `PdfTxt.AssembledLength` | libs/pdf_txt.py:237-246 | the file holds one leading newline, two per page and every page text |
| `PdfTxt.AssembledPrefix` | libs/pdf_txt.py:240-246 | the text of the first k pages is a prefix of the whole file |
| `PdfTxt.PageTextAtOffset` | libs/pdf_txt.py:240-246 | page i's text, preceded by "\n\n", sits at its computed offset, so the pages appear in order |
| `PdfTxt.FormatBoundingBox` | libs/pdf_txt.py:249-252 | "N/A" for a missing or empty polygon; a single point renders as "[x, y]" |
| `PdfTxt.FormatSplits` | libs/pdf_txt.py:252 | formatting a polygon made of two parts joins the two parts' renderings with ", " |
| `Common.RequiredArtifactsCount` | libs/common.py:53-66 | the required list names twelve distinct artifacts |
| `Common.IsBuiltIff` | libs/common.py:42-68 | built exactly when the output directory exists and lists all twelve artifacts; a missing or empty directory is not built |
| `Common.IsBuiltIgnoresExtras` | libs/common.py:68 | extra files, and the order of the listing, do not change the verdict |
| `Common.IsAdminIff` | libs/common.py:93-103 | characterises `IsAdmin`: admin when there is no `config.yaml` or no authenticated user, otherwise exactly when `username.lower()` is "admin" |
| `Common.CanTestProjectIff` | libs/common.py:106-136 | characterises `CanTestProject` (through `IsProjectAdmin` and the prefix): for an authenticated user under a configuration, a project can be used exactly by the admin or when its name starts with `username.lower()` with "_admin" removed |
| `Common.ProjectAdminCanTest` | libs/common.py:106-136 | relates `IsProjectAdmin` and `CanTestProject`: a project admin can always use the project; without authentication every check passes |
| `Common.GetProjectPrefixByUsername` | libs/common.py:139-150 | "" without a configuration, `username.lower()` with every "_admin" removed when authenticated, the boolean `True` otherwise |
| `Common.TrailingNewlineAccepted` | libs/common.py:159-166 | as written, the name "a\n" passes the check and reaches the project name, although it holds a character outside the allowed set |
| `Common.FormatProjectName` | libs/common.py:159-166 | fails with the fixed message exactly when the name holds a character other than letters, digits, "_" and "-" (the empty name passes); otherwise the lowercased name, prefixed by the unlowered username and "_" for a non-admin |
| `Common.ValidationsAgreeWithoutNewline` | libs/common.py:160 | the written and intended checks agree on every name not ending in a newline |
| `Common.GetProjectNames` | libs/common.py:179-190 | an admin gets the whole listing; anyone else exactly the projects `can_test_project` accepts, in listing order |
| `Common.TestableMembers` | libs/common.py:186-190 | a project is listed exactly when it is in the directory and the user may use it |
| `Common.TestableConcat` | libs/common.py:187-189 | the filter keeps listing order: filtering two concatenated listings filters each in turn |
| `Blob.ContainerName` | libs/blob.py:12-16 | the container name is "graphrag", the project name without "_" and "-", then "cache"; it holds no "_" or "-" and starts and ends with the fixed words |
| `Blob.RemovingSeparators` | libs/blob.py:13-15 | the two `replace` calls on the whole name remove the separators from the project part only |
| `Blob.SameContainerIff` | libs/blob.py:13-15 | two projects share a container exactly when their names agree once "_" and "-" are dropped |
| `Blob.ContentSettingsFor` | libs/blob.py:38-43 | ".png" is served inline as image/png and ".pdf" inline as application/pdf; anything else gets no content settings |
| `Blob.Basename` | libs/blob.py:27 | the base name holds no "/" and ends the path |
| `Blob.BlobAccount.constructor` | libs/blob.py:29 | the account starts with no containers and no public ones |
| `Blob.BlobAccount.UploadFile` | libs/blob.py:19-49 | nothing happens without a connection string; a client error changes nothing and is reported; otherwise the container is created when missing, the file is stored under its base name with its content settings and the container made public; a read error or a failing upload leaves only the created container; a failing access-policy call leaves the file stored in a container that is not public; every error is reported, never raised |
| `Blob.GetSasUrl` | libs/blob.py:52-75 | never raises: `("", str(e))` when the client or the signer fails, otherwise `(https://{account}.blob.core.windows.net/{container}/{blob}?{token}, "")` for a read-only token expiring one hour after now |
| `AzureAiSearch.RecordsFromDocuments` | libs/azure_ai_search.py:80-89 | a document is uploaded exactly when its vector is not `None`, with its id, vector, text and JSON-encoded attributes |
| `AzureAiSearch.BuildBatch` | libs/azure_ai_search.py:80-89 | the comprehension keeps the documents with a vector, in input order |
| `AzureAiSearch.NumBatchesIsCeiling` | libs/azure_ai_search.py:93-94 | the number of batches is ceil(n / 200): enough to cover n, with no batch left empty, and 0 exactly when n is 0 |
| `AzureAiSearch.BatchBounds` | libs/azure_ai_search.py:96-99 | every batch is non-empty and holds at most 200 records |
| `AzureAiSearch.RecordInItsBatch` | libs/azure_ai_search.py:96-99 | record k lies in batch k / 200, at position k % 200 |
| `AzureAiSearch.Batches` | libs/azure_ai_search.py:96-99 | the i-th batch is the slice `[i*200, min((i+1)*200, n))` |
| `AzureAiSearch.BatchesCover` | libs/azure_ai_search.py:96-99 | the first m batches, put back together, are exactly the first min(200m, n) records, in order |
| `AzureAiSearch.AllBatchesCover` | libs/azure_ai_search.py:96-99 | all batches together are the records: disjoint, complete and in order |
| `AzureAiSearch.UploadCalls` | libs/azure_ai_search.py:96-104 | there are `num_batches` upload calls, plus one when n > 0 |
| `AzureAiSearch.UploadCallsShape` | libs/azure_ai_search.py:96-104 | one upload per batch and then one of the whole batch, so each record is sent twice; no record means no call |
| `AzureAiSearch.SearchStore.constructor` | libs/azure_ai_search.py:27-29 | the store starts with the given index names and no calls |
| `AzureAiSearch.SearchStore.LoadDocuments` | libs/azure_ai_search.py:27-104 | the calls issued are the index calls and then the upload calls; with `overwrite` the index exists afterwards, without it the index set is unchanged |
| `AzureAiSearch.SearchStore.UploadInBatches` | libs/azure_ai_search.py:93-104 | the loop issues exactly the upload calls, in order, and touches no index |
| `AzureAiSearch.IndexCallsOrder` | libs/azure_ai_search.py:31-78 | about `IndexCalls`: without `overwrite` the index is left alone; with it an existing index is deleted before the index is created again |
| `GenerateDataCli.ExcelToTxt` | cli/generate_data.py:71-116 | A `.xlsx` file writes `input/{basename}.txt` with the sheets' names and rows; a `.csv` file writes its column names and rows. In both, an error opening or reading the file escapes and nothing is written. A sheet that fails to parse leaves the earlier sheets and its own name in the file, and its error escapes. Any other file is tried as a workbook in the same way, but its errors are only logged. Only non-missing cells are written. |
| `GenerateDataCli.HasDownloadFiles` | cli/generate_data.py:144-167 | False for files that are not spreadsheets; a read error escapes; otherwise true exactly when the frame has a `doc_url` column, even a frame with no rows. |
| `GenerateDataCli.DownloadFilesFromSheet` | cli/generate_data.py:170-189 | Nothing happens for files that are not spreadsheets. A read error escapes before any download. Otherwise the input directory ends as the row-ordered downloads of the listed URLs leave it. |
| `GenerateDataCli.NoDocUrlNoDownloads` | cli/generate_data.py:186-189 | A sheet without a `doc_url` column leaves the input directory exactly as it was. |
| `GenerateDataCli.GenerateDataSteps` | cli/generate_data.py:17-47 | The step list: clear `input`, clear the PDF cache, prepare every original, convert every file of the walk of `input` after the copies, then make writable every file of a second walk of `input`, which also lists the converted text files. |
| `GenerateDataCli.ClearThenPrepareThenConvert` | cli/generate_data.py:17-47 | Ordering: no clearing after the start; the cache is cleared right after `input`; no preparing after a conversion; no converting after a permission change. |
| `GenerateDataLibs.ExcelToTxt` | libs/generate_data.py:127-142 | Every file is read as a workbook. An error reading or opening it escapes without writing. Otherwise `input/{basename}.txt` holds the sheets in order, with falsy cells skipped, up to the name of the first sheet that fails to parse, whose error escapes. |
| `GenerateDataLibs.HasDownloadFiles` | libs/generate_data.py:169-179 | False for files that are not spreadsheets; a read error escapes; otherwise true exactly when the frame has a `doc_url` column and at least one row, so an empty sheet gives false. |
| `GenerateDataLibs.DownloadFilesFromSheet` | libs/generate_data.py:182-194 | As in the command line, but every spreadsheet is read with `read_excel`. |
| `Ingest.SkipRulesDiffer` | libs/generate_data.py:139-140 | The falsy rule of the web UI and the `pd.notna` rule of the command line (cli/generate_data.py:84) disagree exactly on NaN, which only the falsy rule writes, and on 0, 0.0, "" and False, which only the `notna` rule writes. |
| `Ingest.SkippedRowIsSeparator` | cli/generate_data.py:82-86 | A row whose cells are all skipped writes only the "\n\n" separator. |
| `Ingest.FullRowWritesEveryField` | cli/generate_data.py:82-86 | A row whose cells are all kept writes `【column】: value ` for every column, in column order. |
| `Ingest.WorkbookTextConcat` | cli/generate_data.py:79-86 | Sheets are written one after another: the text of a split workbook is the two texts joined. |
| `Ingest.RowsTextConcat` | cli/generate_data.py:82-86 | Rows are written one after another, in the same way. |
| `Ingest.WriteRow` | cli/generate_data.py:83-86 | The column loop writes exactly the row text: the kept fields in column order, then "\n\n". |
| `Ingest.WriteRows` | cli/generate_data.py:82-86 | The row loop writes the row texts in row order. |
| `Ingest.WriteWorkbook` | cli/generate_data.py:79-86 | The sheet loop leaves exactly what `WorkbookWrite` describes: each sheet's name and "\n\n", then its rows once it parses, in workbook order; the first failing parse ends the loop with its error. |
| `Ingest.WorkbookWrite` | cli/generate_data.py:79-86 | An error is reported exactly when some sheet fails to parse, and it is that sheet's error. |
| `Ingest.ParsedCount` | cli/generate_data.py:79-81 | Every sheet before the count parses, and the sheet at the count, when there is one, fails. |
| `Ingest.AllParsedWritesWorkbook` | cli/generate_data.py:79-86 | When every sheet parses, the file holds the whole workbook text and no error is reported. |
| `Ingest.PartialWorkbookIsPrefix` | cli/generate_data.py:79-86 | A failing sheet leaves a file that starts the text the workbook would have had if that sheet had parsed. |
| `Ingest.WriteCsv` | cli/generate_data.py:93-99 | Every column name followed by "\n\n", then the rows. |
| `Ingest.PrepareFileCopiesTextAndPdf` | cli/generate_data.py:119-138 | About `PrepareFile`: a `.txt` or `.pdf` file is copied to `input` and nothing else happens. |
| `Ingest.PrepareFileRenamesMarkdown` | cli/generate_data.py:131-135 | About `PrepareFile`: a `.md` file is copied to `input` as `{file}.txt` and nothing else happens. |
| `Ingest.PrepareFileReadsSheets` | cli/generate_data.py:120-125 | About `PrepareFile`: a spreadsheet is downloaded from when it lists documents and copied otherwise. When reading it fails, the error escapes. |
| `Ingest.PrepareFileIgnoresOthers` | cli/generate_data.py:119-138 | About `PrepareFile`: a file with none of the five endings causes no action. |
| `Ingest.EndingsPairwiseExclusive` | cli/generate_data.py:119-138 | No file name has two of the five endings, so at most one branch of `prepare_file` (and of its twin at libs/generate_data.py:145-163) runs. |
| `Ingest.ConvertFile` | cli/generate_data.py:59-68 | At most one conversion: sheet-to-text exactly for `.xlsx`/`.csv`, PDF-to-text exactly for `.pdf` (the same in libs/generate_data.py:116-124). |
| `Ingest.AfterDownloadsProperties` | cli/generate_data.py:192-213 | Row-ordered downloads never replace an existing file. Every successful download is present afterwards and nothing else appears. Of two downloads to one new name, the first successful one is kept. |
| `Ingest.InputDir.DownloadFile` | cli/generate_data.py:192-213 | An existing target is left alone. A failed request writes nothing. Otherwise the body is stored under the URL's file name. The web UI's twin is libs/generate_data.py:197-218. |
| `Ingest.InputDir.DownloadListed` | cli/generate_data.py:186-189 | The row loop leaves the directory as the downloads of the `doc_url` cells, in row order, leave it. |
| `Ingest.ListedStep` | cli/generate_data.py:186-189 | One more row adds exactly one download, of that row's URL, when there is a `doc_url` column, and none otherwise. |
| `Ingest.ColumnIndex` | cli/generate_data.py:187 | Finds the `doc_url` label exactly when the frame has it, at a position holding that label. |
| `Ingest.ListedUrls` | cli/generate_data.py:186-188 | One URL per row when there is a `doc_url` column, none otherwise. |
| `Ingest.RemoveChars` | cli/generate_data.py:238-241 | The extension keeps none of ",", "&", "=", ".". |
| `Ingest.ImageExtensionAsWritten` | cli/generate_data.py:236-241 | The extension as written: after the last ".", cut at the first "?", cleaned. It never holds "?" or the removed characters. |
| `Ingest.QueryDotBreaksExtension` | cli/generate_data.py:236 | For `{base}.{ext}?{before}.{after}` the rule as written gives `after` ("img.png?v=1.2" gives "2"), while the corrected rule gives `ext`. |
| `Ingest.ImageExtension` | cli/generate_data.py:236-241 | The corrected rule: the extension of the URL's path, cut at "?" first. |
| `Ingest.ImageExtensionOfPath` | cli/generate_data.py:236-241 | For `{base}.{ext}` with or without a query, the corrected rule gives `ext`, whatever the query holds. |
| `Ingest.ImageFileNameInjective` | cli/generate_data.py:241 | About `ImageFileName`, the name `image_{i}.{ext}`: distinct image indices with one extension never give the same file name. |
| `Ingest.ExtensionRulesAgreeWithoutQuery` | cli/generate_data.py:236-241 | Without a "?", the two rules agree. The same rule is at libs/generate_data.py:241-246. |
| `FileProcessor.LinePairSplits` | file_processor.py:167-168 | A used line splits at its first "=": the key holds no "=", and key, "=" and value rebuild the stripped line. |
| `FileProcessor.AssignKeys` | file_processor.py:166-169 | A key is defined exactly when some used line carries it. |
| `FileProcessor.AssignLastWins` | file_processor.py:169 | When a key is repeated, the value from the last line carrying it wins. |
| `FileProcessor.EntriesOfLine` | file_processor.py:167 | A used line contributes its pair. A comment, or a line without "=", contributes nothing. |
| `FileProcessor.CommandEnvironment` | file_processor.py:161-173 | Without a `.env` file the command sees the process environment. Otherwise it sees that environment overlaid with the `.env` pairs, read in file order. |
| `FileProcessor.CommandEnvironmentOverrides` | file_processor.py:172-173 | The overlay keeps every other variable and takes the `.env` value where both define one. |
| `FileProcessor.SelectPartitions` | file_processor.py:236-241 | Each artifact lands in exactly one of the missing and existing lists, once, according to whether it is present. |
| `FileProcessor.RunIndexPreview` | file_processor.py:216-241 | No result when the output directory is absent. Otherwise it returns the missing and the existing artifacts among the seven, in list order. |
| `FileProcessor.RequiredPaths` | file_processor.py:93-115 | Seven paths are checked, the project directory first. |
| `FileProcessor.CheckGraphragSettings` | file_processor.py:88-123 | True exactly when the project directory, its three files and its three directories all exist. The twin is file_processor2.py:90-129. |
| `FileProcessor.CheckPaths` | file_processor.py:94-120 | The early-return checks, done in order, accept exactly when all seven paths exist. |
| `FileProcessor.RequiredPathsOfPlainName` | file_processor.py:93-115 | For an ordinary name, the paths are `projects/{name}` and its `.env`, `settings.yaml`, `settings_default.yaml`, `prompts`, `input` and `original`. |
| `FileProcessor2.InitProjectName` | file_processor2.py:271-272 | A non-empty name is kept. The empty name becomes `cli_` followed by the date. |
| `FileProcessor2.SettingsFromTemplateSteps` | file_processor2.py:232-247 | The three middle replacements change nothing. Only the container name and the project path prefixes are rewritten. |
| `FileProcessor2.PlainTemplateUnchanged` | file_processor2.py:232-247 | A template with no default container name and no project paths is written out unchanged. |
| `FileProcessor2.Projects.InitGraphragProject` | file_processor2.py:260-292 | Fails, after creating only `projects`, exactly when the project directory already exists. On success it creates the project, keeps the initial settings as `settings_default.yaml`, and writes the rewritten `settings.yaml` and the `.env` template. |
| `FileProcessor2.Projects.OverwriteSettingsYaml` | file_processor2.py:217-251 | Copies `settings.yaml` to `settings_default.yaml` when it exists. Then `settings.yaml` holds the rewritten template. No directory changes. |
| `FileProcessor2.WithSettings` | file_processor2.py:219-249 | After the overwrite, `settings.yaml` holds the rewritten template. |
| `FileProcessor2.InitialisedSettings` | file_processor2.py:286-290 | After initialisation: `settings.yaml` is the rewritten template and `.env` is the `.env` template. `settings_default.yaml` holds the settings that were there before. The three writes do not clash. |
| `BuildIndex.Normalize` | cli/build_index.py:35-42 | A mapping stays a mapping. Any other loaded value either comes back unchanged or raises. |
| `BuildIndex.NormalizeMapping` | cli/build_index.py:35-42 | On a mapping it fails exactly when a present storage, reporting or cache section is not a mapping. Otherwise each present section gets its relative `base_dir`, absent sections stay absent, `root_dir` is removed and every other key is unchanged. The twin is file_processor2.py:389-396. |
| `BuildIndex.SetBaseDirFacts` | cli/build_index.py:35-40 | One section's rewrite fails exactly on a present non-mapping and touches only that section. |
| `BuildIndex.NormalizeIdempotent` | cli/build_index.py:35-42 | Normalising settings that are already normalised changes nothing. |
| `BuildIndex.BackupIsNotSettings` | cli/build_index.py:26-27 | The backup path never equals the settings path. |
| `BuildIndex.Workspace.BuildIndex` | cli/build_index.py:14-72 | A missing `settings.yaml` raises before anything changes. Otherwise it returns True exactly when the settings load and normalise and starting the index command raises nothing; a non-zero exit status of the command is not detected (cli/build_index.py:79-107 never reads it). The command sees the normalised settings inside the project directory, with its three working directories. Afterwards the original settings are back, the backup is gone and the working directory is restored. |
| `BuildIndex.Workspace.Normalized` | cli/build_index.py:29-66 | The body of the outer `try`. A load or normalisation failure returns False and changes nothing. Otherwise the settings are rewritten, the command runs once in the project directory, and the working directory is restored. |
| `BuildIndex.Workspace.MakeWorkDirs` | cli/build_index.py:54-55 | Creates exactly `output`, `logs` and `cache` under the current directory. |
| `TokenAnalyzer.FileTypeCases` | token_analyzer.py:144-158 | A call's type is one of six values. It is `entity_extraction_continuation` exactly for continuation files in the entity-extraction folder, and `unknown` exactly for other folders. Outside the entity-extraction folder the file name plays no part. |
| `TokenAnalyzer.FirstOf` | token_analyzer.py:164-176 | The first item that classifies, in list order, with no classifying item before it. None exactly when no item classifies. |
| `TokenAnalyzer.GetContentType` | token_analyzer.py:160-192 | The loops return what the content-type rule says: the input messages are tried first, then the output choices. |
| `TokenAnalyzer.CommunityAnalystFirst` | token_analyzer.py:169-170 | A message naming the community analyst is classified `community_analysis`, whatever other keywords it holds. |
| `TokenAnalyzer.InputBeforeOutput` | token_analyzer.py:163-179 | A classifying first input message decides the type, whatever the output says. |
| `TokenAnalyzer.ContentTypeValues` | token_analyzer.py:160-192 | A classified call is one of the four content types. |
| `TokenAnalyzer.TalliedKeepsOrder` | token_analyzer.py:75-83 | Recording a file keeps the record order in step with the records: each path is listed once, and only recorded paths are listed. |
| `TokenAnalyzer.UncountedFileChangesNothing` | token_analyzer.py:42-99 | About `CountFile`, one file of the loop: a file without `usage`, or that cannot be read or parsed, changes no statistic. |
| `TokenAnalyzer.TalliedAdds` | token_analyzer.py:52-93 | What `CountFile` does with a file that has `usage`: a counted file adds its counts to its type, to its "{type}_{content}" row when the content is classified, and to its model. It is recorded under its path. Every other row is unchanged. |
| `TokenAnalyzer.AnalyzeTokens` | token_analyzer.py:24-99 | The loop over the cache folders gives the folder-by-folder tally, skipping entries that are not folders, and keeps the record order consistent. |
| `TokenAnalyzer.CountFolder` | token_analyzer.py:32-99 | The loop over one folder's files gives that folder's tally. |
| `TokenAnalyzer.MainRowListedAsDetail` | token_analyzer.py:126-127 | The detail listing as written shows the main row `community_report` for a single community report with no recognised content. |
| `TokenAnalyzer.DetailRowsOfCountedFile` | token_analyzer.py:86-93 | With the corrected filter, counting a file adds exactly its "{type}_{content}" row to the detail listing, and nothing when its content is not classified. |
| `TokenAnalyzer.MainTypeStatsAreSums` | token_analyzer.py:106-111 | Each type's row in the per-type table is the sum of the recorded files of that type. |
| `TokenAnalyzer.SumOverTally` | token_analyzer.py:114-117 | Adding counts to one listed type adds them to the summed total once. Adding to an unlisted type leaves the total as it was. |
| `TokenAnalyzer.SummariseByType` | token_analyzer.py:106-123 | The per-type table holds a row exactly for each type seen, and the grand total equals the sum of every recorded file's total. |
| `TokenAnalyzer.TallyByType` | token_analyzer.py:106-111 | The first loop builds the per-type table and lists each type once. The rows add up to the sum over all records. |
| `TokenAnalyzer.SumTotals` | token_analyzer.py:114-117 | The second loop sums the listed types' totals. |
| `TokenAnalyzer.SingleEncodingNotCounted` | token_analyzer.py:227-235 | A PDF cache file whose JSON is encoded only once is never counted, because of the second decode. |
| `TokenAnalyzer.PdfTotalsAreCountedSum` | token_analyzer.py:219-263 | The overall PDF-cache totals are the sum over exactly the files that have a non-empty `usage`. |
| `TokenAnalyzer.AnalyzePdfCacheTokens` | token_analyzer.py:194-269 | No result when the directory is missing or holds no `*.cache.json` file. Otherwise the loop's statistics equal the file-by-file fold. |
| `Search.ConcatAppend` | libs/search.py:13-16 | The buffer splits at any point of the token stream. |
| `Search.ConcatHoldsToken` | libs/search.py:15 | Every token appears in the buffer, at the offset the tokens before it give. |
| `Search.LLMCallback.constructor` | libs/search.py:8-11 | Starts with an empty buffer and an empty placeholder. |
| `Search.LLMCallback.OnLlmNewToken` | libs/search.py:13-16 | The token is appended, the buffer stays the concatenation of every token received, and the placeholder shows the whole answer so far. |
| `Search.GlobalSearchLLMCallback.constructor` | libs/search.py:21-25 | Starts with no map-phase contexts or outputs. |
| `Search.GlobalSearchLLMCallback.OnMapResponseStart` | libs/search.py:27-29 | The contexts are replaced, not appended to, and the outputs are kept. |
| `Search.GlobalSearchLLMCallback.OnMapResponseEnd` | libs/search.py:34-36 | The outputs are replaced and the contexts are kept. |
| `IndexPreview.ArtifactNaming` | cli/index_preview.py:10-23 | Every preview type opens `create_final_{value}.parquet`. |
| `IndexPreview.UnknownTypeOpensNothing` | cli/index_preview.py:9-23 | A value opens an artifact exactly when it is one of the seven values of cli/types.py:4-11. |
| `IndexPreview.ArtifactInjective` | cli/index_preview.py:10-23 | Different types open different artifacts. |
| `IndexPreview.ValueInjective` | cli/types.py:4-11 | The seven type values are pairwise different. |
| `IndexPreview.PreviewCoversPipelineArtifacts` | cli/index_preview.py:10-23 | The artifacts the preview can open are exactly the seven the pipeline checks in file_processor.py:223-231. |
| `IndexPreview.GetParquetFile` | cli/index_preview.py:26-35 | A missing file is reported by name and nothing is read. Otherwise the result is the row count of `{project}/output/{artifact}`. |
| `IndexPreview.IndexPreview` | cli/index_preview.py:9-23 | No preview when the value matches no branch. Otherwise it previews `create_final_{value}.parquet`. |
| `Strings.ReplaceCharIsWithout` | cli/generate_data.py:238-241 | `replace(c, "")` for a single character removes exactly that character and nothing else. |
| `Strings.StripKeeps` | file_processor.py:167-168 | An "=" found before stripping is still there after `strip()`, so the split at the first "=" always yields a key and a value. |
| `Strings.DigitsValueOfNatToString` | libs/find_sources.py:12-14 | `int(str(n)) == n`, which the page-number round trip relies on. |

## Left out

- File system, YAML, HTTP, Azure SDK, LLM, OCR and clock calls are parameters. Directory listings and file contents are sequences and maps. `yaml.safe_load`/`yaml.dump`, `url_to_name`, the HTTP request, the SAS signer, the PDF extractors and the search engines are functions or `Result` values passed in. The current time and date are arguments.
- Logging, `print` and the Streamlit widgets are not modelled, except the text the answer placeholder shows.
- `load_dotenv` at the start of `build_index` is not modelled. The environment of the index command is modelled where it is built explicitly (file_processor.py:161-173).
- The `graphrag index` subprocess is a recorded run: its working directory, settings text and directories. Its outcome is a parameter.
- The parallel first pass over PDF pages (the thread pool in libs/pdf_txt.py:221-234) is left out. Only the ordered, sequential assembly is modelled.
- cli/pdf_txt.py, which the command line calls to convert PDFs, is not part of this model. `convert_file` is modelled up to the choice of conversion.
- libs/config.py is not part of this model. The application name and the five PDF vision options are parameters.
- The permission change at the end of `generate_data` is a recorded step. File modes are not modelled. The second walk of `input` is a parameter of its own; the model does not derive it from the conversions.
- `download_file`: a failed request writes nothing, and a partially written file after an error mid-stream is not modelled. Of `download_image`, only the extension and the file name are modelled; the request and the write are not.
- The index schema that `load_documents` builds for Azure AI Search is not modelled. Only the delete and create calls and the uploads are.
- Pandas cells are a small datatype. A float carries its printed form. NaN and None are the missing values for `pd.notna`. NaN is truthy and 0, 0.0, "" and False are falsy for the web UI's skip rule.
- Paths are plain strings joined as `os.path.join` joins them on POSIX. No `pathlib` normalisation is modelled.
- `Common.FormatProjectName`: `lower()` is modelled on ASCII letters only. This is exact here, because only names made of ASCII letters, digits, "_" and "-" reach it; the username prefix is not lowercased. The access rules (`IsAdmin`, `IsProjectAdmin`, `GetProjectPrefixByUsername`, `CanTestProject`) take Python's full Unicode `username.lower()` as a field of the session instead of computing it.
- `TokenAnalyzer.GetContentType`: `content.lower()` is modelled on ASCII letters only. The keywords are ASCII, so the two differ only on the few characters whose Unicode lowercase is ASCII (KELVIN SIGN lowers to "k", and U+0130 to "i" and a combining dot). None of these can complete a keyword.
- `FindSources.DigitRun`: `\d` and `int()` are modelled on the ASCII digits only. Python also accepts other Unicode decimal digits in both; page cache names hold only ASCII digits.
- `FileProcessor.CheckGraphragSettings`: the `except` branch that returns False is not modelled. Existence tests do not raise in the model.
- `TokenAnalyzer.AnalyzeTokens`: file modification times, the sorted print order and the final file count are not modelled. A cache file whose JSON is not an object is treated like an unreadable one; the source also skips it, through its exception handler.
- `TokenAnalyzer.AnalyzePdfCacheTokens`: the per-file listing sorted by total is printing only and is not modelled.
- `BuildIndex.Workspace.BuildIndex`: a failure of `yaml.dump`, of `makedirs` or of changing directory is not modelled. Only a failure to load or normalise the settings, and an exception raised while starting the index command, are. The command's exit status is never read by the source, so a failing index run still returns True.
- Hashing (`generate_text_fingerprint`) and the size formatting of file listings are outside the modelled core.

## Findings

| source | as written | input that shows it | evidently intended | confidence | as-written member | corrected member |
|---|---|---|---|---|---|---|
| libs/common.py:159-161 | `re.match("^[A-Za-z0-9_-]*$", v)`: `$` also matches before a final newline, so a name ending in "\n" passes validation and the newline reaches the project name | "a\n" is accepted and gives the project name "a\n" | only letters, digits, "_" and "-" are accepted, as the error message says | not executed | `Common.FormatProjectNameAsWritten` (`Common.TrailingNewlineAccepted`) | `Common.FormatProjectName` |
| cli/generate_data.py:236-241 | the extension is taken after the last "." of the whole URL, then cut at "?", so a "." in the query string decides it | "img.png?v=1.2" gives the extension "2" and the file `image_{i}.2` | the extension of the URL's path, cut at "?" first: "png" | not executed | `Ingest.ImageExtensionAsWritten` (`Ingest.QueryDotBreaksExtension`) | `Ingest.ImageExtension` (`Ingest.ImageExtensionOfPath`) |
| token_analyzer.py:126-131 | the per-content-type listing keeps every key holding "_", and the main types `community_report`, `entity_extraction` and `entity_extraction_continuation` hold "_" too | one community report without a recognised content lists `community_report` under the content-type heading | only the "{type}_{content}" rows are listed | not executed | `TokenAnalyzer.DetailRowsAsWritten` (`TokenAnalyzer.MainRowListedAsDetail`) | `TokenAnalyzer.DetailRows` (`TokenAnalyzer.DetailRowsOfCountedFile`) |
