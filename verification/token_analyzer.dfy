/**
 * The token-usage report over a project's LLM cache: classification of
 * cache files by folder and by content, and the per-type, per-model and
 * per-file token tallies of `analyze_tokens` and
 * `analyze_pdf_cache_tokens`.
 */
module TokenAnalyzer {

  import opened Wrappers
  import opened Strings

  // ---------------------------------------------------------------------
  // Classification

  /** `get_file_type`: the kind of call from the cache folder it was stored in. */
  function FileType(filename: string, subdir: string): string {
    if subdir == "community_reporting" then "community_report"
    else if subdir == "entity_extraction" then
      (if Contains(filename, "extract-continuation") then "entity_extraction_continuation" else "entity_extraction")
    else if subdir == "summarize_descriptions" then "summarize"
    else if subdir == "text_embedding" then "embedding"
    else "unknown"
  }

  /** The file name matters only in the entity-extraction folder; every other folder maps to one type. */
  lemma FileTypeCases(filename: string, subdir: string)
    ensures FileType(filename, subdir) in {"community_report", "entity_extraction_continuation", "entity_extraction",
                                           "summarize", "embedding", "unknown"}
    ensures FileType(filename, subdir) == "entity_extraction_continuation" <==>
              subdir == "entity_extraction" && Contains(filename, "extract-continuation")
    ensures FileType(filename, subdir) == "unknown" <==>
              subdir !in {"community_reporting", "entity_extraction", "summarize_descriptions", "text_embedding"}
    ensures subdir != "entity_extraction" ==> forall other :: FileType(other, subdir) == FileType(filename, subdir)
  {
  }

  /** A JSON value that is or is not a string. */
  datatype Content = Text(s: string) | NotText

  /**
   * The parts of a cached call the report reads. `messages` is
   * `data["input"]["messages"]` (None when either key is absent), each
   * message's `content` (None when absent); `choices` is
   * `data["result"]["choices"]`, each choice's `message.content` (None when
   * either is absent); `usage` and `model` are read from `data["result"]`.
   */
  datatype Entry = Entry(messages: Option<seq<Option<Content>>>, choices: Option<seq<Option<Content>>>,
                         usage: Option<Usage>, model: Option<string>)

  /** A `usage` object: the three counts when present, and whether it has any other key. */
  datatype Usage = Usage(completion: Option<int>, prompt: Option<int>, total: Option<int>, otherKeys: bool)

  /** What an input message's content says about the call, strongest keyword first. */
  function MessageType(content: Option<Content>): Option<string> {
    // `message.get("content", "")`: a missing content is the empty string
    var c := if content.Some? then content.value else Text("");
    match c
    case NotText => None
    case Text(s) =>
      var t := Lower(s);
      if Contains(t, "community analyst") then Some("community_analysis")
      else if Contains(t, "entity extraction") then Some("entity_extraction")
      else if Contains(t, "summarize") then Some("summarization")
      else if Contains(t, "embedding") then Some("embedding")
      else None
  }

  /** What an output choice's content says about the call. */
  function ChoiceType(content: Option<Content>): Option<string> {
    match content
    case None => None
    case Some(NotText) => None
    case Some(Text(s)) =>
      var t := Lower(s);
      if Contains(t, "community") && Contains(t, "report") then Some("community_analysis")
      else if Contains(t, "entity") && Contains(t, "extraction") then Some("entity_extraction")
      else if Contains(t, "summary") || Contains(t, "summarize") then Some("summarization")
      else None
  }

  /** The first classified item of a list, in list order. */
  function FirstOf(items: seq<Option<Content>>, classify: Option<Content> -> Option<string>): (r: Option<string>)
    ensures r.Some? ==> exists i :: 0 <= i < |items| && classify(items[i]) == r && forall j :: 0 <= j < i ==> classify(items[j]).None?
    ensures r.None? ==> forall i :: 0 <= i < |items| ==> classify(items[i]).None?
  {
    if items == [] then None
    else if classify(items[0]).Some? then classify(items[0])
    else
      var r := FirstOf(items[1..], classify);
      assert forall i :: 0 <= i < |items[1..]| ==> items[1..][i] == items[i + 1];
      if r.Some? then
        assert exists i :: 0 <= i < |items[1..]| && classify(items[1..][i]) == r && forall j :: 0 <= j < i ==> classify(items[1..][j]).None?;
        r
      else r
  }

  /**
   * `get_content_type`: the input messages are looked at first, in order;
   * only when none of them classifies the call are the output choices
   * looked at; None when nothing matches.
   */
  function ContentType(e: Entry): Option<string> {
    var fromInput := if e.messages.Some? then FirstOf(e.messages.value, MessageType) else None;
    if fromInput.Some? then fromInput
    else if e.choices.Some? then FirstOf(e.choices.value, ChoiceType)
    else None
  }

  /** The loops of `get_content_type`, returning at the first match. */
  method GetContentType(e: Entry) returns (r: Option<string>)
    ensures r == ContentType(e)
  {
    if e.messages.Some? {
      var messages := e.messages.value;
      for i := 0 to |messages|
        invariant forall j :: 0 <= j < i ==> MessageType(messages[j]).None?
      {
        var t := MessageType(messages[i]);
        if t.Some? {
          FirstOfAt(messages, MessageType, i);
          return t;
        }
      }
      FirstOfNone(messages, MessageType);
    }
    if e.choices.Some? {
      var choices := e.choices.value;
      for i := 0 to |choices|
        invariant forall j :: 0 <= j < i ==> ChoiceType(choices[j]).None?
      {
        var t := ChoiceType(choices[i]);
        if t.Some? {
          FirstOfAt(choices, ChoiceType, i);
          return t;
        }
      }
      FirstOfNone(choices, ChoiceType);
    }
    return None;
  }

  lemma {:induction false} FirstOfAt(items: seq<Option<Content>>, classify: Option<Content> -> Option<string>, i: nat)
    requires i < |items| && classify(items[i]).Some?
    requires forall j :: 0 <= j < i ==> classify(items[j]).None?
    ensures FirstOf(items, classify) == classify(items[i])
  {
    if i > 0 {
      FirstOfAt(items[1..], classify, i - 1);
    }
  }

  lemma {:induction false} FirstOfNone(items: seq<Option<Content>>, classify: Option<Content> -> Option<string>)
    requires forall j :: 0 <= j < |items| ==> classify(items[j]).None?
    ensures FirstOf(items, classify).None?
  {
    if items != [] {
      FirstOfNone(items[1..], classify);
    }
  }

  /** Keyword precedence: a message naming the community analyst wins over every other keyword it holds. */
  lemma CommunityAnalystFirst(s: string)
    requires Contains(Lower(s), "community analyst")
    ensures MessageType(Some(Text(s))) == Some("community_analysis")
  {
  }

  /** An input message that classifies the call decides it, whatever the output says. */
  lemma InputBeforeOutput(e: Entry, t: string)
    requires e.messages.Some? && |e.messages.value| > 0 && MessageType(e.messages.value[0]) == Some(t)
    ensures ContentType(e) == Some(t)
  {
  }

  // ---------------------------------------------------------------------
  // Tallies

  datatype Totals = Totals(completion: int, prompt: int, total: int)

  const Zero := Totals(0, 0, 0)

  function Add(a: Totals, b: Totals): Totals {
    Totals(a.completion + b.completion, a.prompt + b.prompt, a.total + b.total)
  }

  /** `usage.get(key, 0)` for the three counts. */
  function Counts(u: Usage): Totals {
    Totals(if u.completion.Some? then u.completion.value else 0,
           if u.prompt.Some? then u.prompt.value else 0,
           if u.total.Some? then u.total.value else 0)
  }

  /** A `defaultdict` of totals: a missing key reads as zero. */
  function Get(m: map<string, Totals>, k: string): Totals {
    if k in m then m[k] else Zero
  }

  /** `stats[key][...] += ...` for the three counts. */
  function Tally(m: map<string, Totals>, k: string, t: Totals): map<string, Totals> {
    m[k := Add(Get(m, k), t)]
  }

  /** The record kept per counted file. */
  datatype FileRecord = FileRecord(fileType: string, model: string, counts: Totals, contentType: Option<string>)

  /** One file of a cache folder: its name and its parsed content (Failure: unreadable or not JSON). */
  datatype CacheFile = CacheFile(name: string, data: Result<Entry>)

  /** A cache sub-folder listing; entries that are not folders are skipped. */
  datatype Folder = Folder(name: string, isDir: bool, files: seq<CacheFile>)

  /** The statistics `analyze_tokens` gathers; `order` lists the recorded paths in insertion order. */
  datatype Stats = Stats(byType: map<string, Totals>, byModel: map<string, Totals>,
                         files: map<string, FileRecord>, order: seq<string>)

  const Start := Stats(map[], map[], map[], [])

  /** The record of a file whose result carries `usage`; a missing model name reads "unknown". */
  function Record(e: Entry, fileType: string): FileRecord
    requires e.usage.Some?
  {
    FileRecord(fileType, if e.model.Some? then e.model.value else "unknown", Counts(e.usage.value), ContentType(e))
  }

  /**
   * What a counted file does to the statistics: its counts go to its type,
   * to its model and, when its content is classified, to its
   * "{type}_{content}" row; `file_token_stats[path] = ...` puts a new path at
   * the end of the order and leaves a known one in its place.
   */
  function Tallied(s: Stats, path: string, rec: FileRecord): Stats {
    var byType := Tally(s.byType, rec.fileType, rec.counts);
    Stats(if rec.contentType.Some? then Tally(byType, rec.fileType + "_" + rec.contentType.value, rec.counts) else byType,
          Tally(s.byModel, rec.model, rec.counts),
          s.files[path := rec],
          if path in s.files then s.order else s.order + [path])
  }

  /** What one cache file adds: nothing unless it parsed and its result carries `usage`. */
  function CountFile(s: Stats, path: string, fileType: string, data: Result<Entry>): Stats {
    if data.Failure? || data.value.usage.None? then s else Tallied(s, path, Record(data.value, fileType))
  }

  function CountFiles(s: Stats, dir: string, folder: string, files: seq<CacheFile>): Stats {
    if files == [] then s
    else
      var k := |files| - 1;
      var f := files[k];
      CountFile(CountFiles(s, dir, folder, files[..k]), PathJoin(dir, f.name), FileType(f.name, folder), f.data)
  }

  function CountFolders(s: Stats, cacheDir: string, folders: seq<Folder>): Stats {
    if folders == [] then s
    else
      var k := |folders| - 1;
      var before := CountFolders(s, cacheDir, folders[..k]);
      var d := folders[k];
      if d.isDir then CountFiles(before, PathJoin(cacheDir, d.name), d.name, d.files) else before
  }

  /** Every recorded path is listed once in the order, and the order lists nothing else. */
  ghost predicate OrderMatches(s: Stats) {
    (forall i, j :: 0 <= i < j < |s.order| ==> s.order[i] != s.order[j])
    && (forall p :: p in s.files <==> p in s.order)
  }

  lemma TalliedKeepsOrder(s: Stats, path: string, rec: FileRecord)
    requires OrderMatches(s)
    ensures OrderMatches(Tallied(s, path, rec))
  {
  }

  /** A file without `usage`, or that cannot be read or parsed, changes no statistic. */
  lemma UncountedFileChangesNothing(s: Stats, path: string, fileType: string, data: Result<Entry>)
    requires data.Failure? || data.value.usage.None?
    ensures CountFile(s, path, fileType, data) == s
  {
  }

  /**
   * A counted file adds its counts to its type, to its type-and-content row
   * when its content is classified, and to its model, and is recorded under
   * its path; every other row is unchanged.
   */
  lemma TalliedAdds(s: Stats, path: string, rec: FileRecord, key: string)
    ensures var r := Tallied(s, path, rec);
      var sub := if rec.contentType.Some? then Some(rec.fileType + "_" + rec.contentType.value) else None;
      && Get(r.byType, key) == (if key == rec.fileType || Some(key) == sub then Add(Get(s.byType, key), rec.counts) else Get(s.byType, key))
      && Get(r.byModel, key) == (if key == rec.model then Add(Get(s.byModel, key), rec.counts) else Get(s.byModel, key))
      && r.files == s.files[path := rec]
  {
    if rec.contentType.Some? {
      assert |rec.fileType + "_" + rec.contentType.value| > |rec.fileType|;
    }
  }

  /** The loops of `analyze_tokens` that fill the three dictionaries, folder by folder. */
  method AnalyzeTokens(cacheDir: string, folders: seq<Folder>) returns (s: Stats)
    ensures s == CountFolders(Start, cacheDir, folders)
    ensures OrderMatches(s)
  {
    s := Start;
    for i := 0 to |folders|
      invariant s == CountFolders(Start, cacheDir, folders[..i])
      invariant OrderMatches(s)
    {
      assert folders[..i + 1][..i] == folders[..i];
      var d := folders[i];
      if d.isDir {
        s := CountFolder(s, PathJoin(cacheDir, d.name), d.name, d.files);
      }
    }
    assert folders[..|folders|] == folders;
  }

  /** The inner loop over the files of one cache folder. */
  method CountFolder(s0: Stats, dir: string, folder: string, files: seq<CacheFile>) returns (s: Stats)
    requires OrderMatches(s0)
    ensures s == CountFiles(s0, dir, folder, files)
    ensures OrderMatches(s)
  {
    s := s0;
    for j := 0 to |files|
      invariant s == CountFiles(s0, dir, folder, files[..j])
      invariant OrderMatches(s)
    {
      var f := files[j];
      var path := PathJoin(dir, f.name);
      var fileType := FileType(f.name, folder);
      CountFilesStep(s0, dir, folder, files, j);
      if f.data.Success? && f.data.value.usage.Some? {
        var e := f.data.value;
        var model := if e.model.Some? then e.model.value else "unknown";
        var contentType := GetContentType(e);
        var rec := FileRecord(fileType, model, Counts(e.usage.value), contentType);
        TalliedKeepsOrder(s, path, rec);
        s := Tallied(s, path, rec);
      }
    }
    assert files[..|files|] == files;
  }

  lemma CountFilesStep(s0: Stats, dir: string, folder: string, files: seq<CacheFile>, j: nat)
    requires j < |files|
    ensures var f := files[j];
      var before := CountFiles(s0, dir, folder, files[..j]);
      CountFiles(s0, dir, folder, files[..j + 1]) ==
        if f.data.Success? && f.data.value.usage.Some?
        then Tallied(before, PathJoin(dir, f.name), Record(f.data.value, FileType(f.name, folder)))
        else before
  {
    assert files[..j + 1][..j] == files[..j];
  }

  // ---------------------------------------------------------------------
  // The content-type listing

  /** The values `get_file_type` returns. */
  const MainTypes: set<string> := {"community_report", "entity_extraction_continuation", "entity_extraction",
                                   "summarize", "embedding", "unknown"}

  /** The values `get_content_type` returns. */
  const ContentTypes: set<string> := {"community_analysis", "entity_extraction", "summarization", "embedding"}

  lemma {:induction false} FirstOfClassifies(items: seq<Option<Content>>, classify: Option<Content> -> Option<string>)
    requires forall c :: classify(c).None? || classify(c).value in ContentTypes
    ensures FirstOf(items, classify).None? || FirstOf(items, classify).value in ContentTypes
  {
  }

  /** A classified call is one of the four content types. */
  lemma ContentTypeValues(e: Entry)
    ensures ContentType(e).None? || ContentType(e).value in ContentTypes
  {
    if e.messages.Some? {
      FirstOfClassifies(e.messages.value, MessageType);
    }
    if e.choices.Some? {
      FirstOfClassifies(e.choices.value, ChoiceType);
    }
  }

  /**
   * The rows printed under the per-content-type heading, as written: every
   * key holding "_", which is meant to pick the "{type}_{content}" rows.
   */
  function DetailRowsAsWritten(byType: map<string, Totals>): set<string> {
    set k | k in byType && '_' in k
  }

  /** A single community report without a recognised content puts its main row under the content heading. */
  lemma MainRowListedAsDetail(path: string, model: string, counts: Totals)
    ensures DetailRowsAsWritten(Tallied(Start, path, FileRecord("community_report", model, counts, None)).byType)
            == {"community_report"}
  {
    var r := Tallied(Start, path, FileRecord("community_report", model, counts, None)).byType;
    assert r.Keys == {"community_report"};
    assert '_' in "community_report" by { assert "community_report"[9] == '_'; }
  }

  /** The rows of the per-content-type heading: the keys that are not a main type. */
  function DetailRows(byType: map<string, Totals>): set<string> {
    set k | k in byType && k !in MainTypes
  }

  /**
   * Counting a file adds to the content listing exactly its
   * "{type}_{content}" row, and nothing when its content is not classified.
   */
  lemma DetailRowsOfCountedFile(s: Stats, path: string, rec: FileRecord)
    requires rec.fileType in MainTypes
    requires rec.contentType.None? || rec.contentType.value in ContentTypes
    ensures rec.contentType.None? ==> DetailRows(Tallied(s, path, rec).byType) == DetailRows(s.byType)
    ensures rec.contentType.Some? ==>
              DetailRows(Tallied(s, path, rec).byType) == DetailRows(s.byType) + {rec.fileType + "_" + rec.contentType.value}
  {
    if rec.contentType.Some? {
      var sub := rec.fileType + "_" + rec.contentType.value;
      assert |sub| == |rec.fileType| + 1 + |rec.contentType.value|;
      assert sub[0] == rec.fileType[0];
      // only two main types have a length that such a row can reach, and each starts differently
      assert |sub| == 17 ==> rec.fileType == "unknown" && sub[0] != "entity_extraction"[0];
      assert |sub| == 30 ==> rec.fileType == "community_report" && sub[0] != "entity_extraction_continuation"[0];
      assert sub !in MainTypes;
    }
  }

  // ---------------------------------------------------------------------
  // Per-type summary

  /** The sum of the records' counts over `order`, of type `t` only when `t` is given. */
  function SumRecords(order: seq<string>, files: map<string, FileRecord>, t: Option<string>): Totals
    requires forall p :: p in order ==> p in files
  {
    if order == [] then Zero
    else
      var k := |order| - 1;
      var r := files[order[k]];
      var rest := SumRecords(order[..k], files, t);
      if t.None? || r.fileType == t.value then Add(rest, r.counts) else rest
  }

  /** The per-type table built from the per-file records, in record order. */
  function MainTypeStats(order: seq<string>, files: map<string, FileRecord>): map<string, Totals>
    requires forall p :: p in order ==> p in files
  {
    if order == [] then map[]
    else
      var k := |order| - 1;
      var r := files[order[k]];
      Tally(MainTypeStats(order[..k], files), r.fileType, r.counts)
  }

  /** Each type's row is the sum of the records of that type. */
  lemma {:induction false} MainTypeStatsAreSums(order: seq<string>, files: map<string, FileRecord>, t: string)
    requires forall p :: p in order ==> p in files
    ensures Get(MainTypeStats(order, files), t) == SumRecords(order, files, Some(t))
  {
    if order != [] {
      MainTypeStatsAreSums(order[..|order| - 1], files, t);
    }
  }

  /** The sum over the listed types of their rows. */
  function SumOver(types: seq<string>, m: map<string, Totals>): Totals {
    if types == [] then Zero else Add(SumOver(types[..|types| - 1], m), Get(m, types[|types| - 1]))
  }

  /** No type is listed twice. */
  predicate Distinct(types: seq<string>) {
    types == [] || (Distinct(types[..|types| - 1]) && types[|types| - 1] !in types[..|types| - 1])
  }

  /** Adding to one listed type adds to the sum once. */
  lemma {:induction false} SumOverTally(types: seq<string>, m: map<string, Totals>, t: string, x: Totals)
    requires Distinct(types)
    ensures t in types ==> SumOver(types, Tally(m, t, x)) == Add(SumOver(types, m), x)
    ensures t !in types ==> SumOver(types, Tally(m, t, x)) == SumOver(types, m)
  {
    if types != [] {
      var k := |types| - 1;
      var init, last := types[..k], types[k];
      assert types == init + [last];
      SumOverTally(init, m, t, x);
      var g := Get(Tally(m, t, x), last);
      assert g == if last == t then Add(Get(m, last), x) else Get(m, last);
      assert SumOver(types, Tally(m, t, x)) == Add(SumOver(init, Tally(m, t, x)), g);
    }
  }

  /**
   * The per-type summary and its grand total: each record's type goes into
   * `types` when first seen, and the total is summed over `types`. The
   * grand total equals the sum of every record's counts.
   */
  method SummariseByType(order: seq<string>, files: map<string, FileRecord>)
    returns (main: map<string, Totals>, types: seq<string>, totalAll: int)
    requires forall p :: p in order ==> p in files
    ensures main == MainTypeStats(order, files)
    ensures forall t :: t in main <==> t in types
    ensures totalAll == SumRecords(order, files, None).total
  {
    main, types := TallyByType(order, files);
    totalAll := SumTotals(types, main);
  }

  /** The first loop: `main_type_stats`, with the types in the order they were first seen. */
  method TallyByType(order: seq<string>, files: map<string, FileRecord>)
    returns (main: map<string, Totals>, types: seq<string>)
    requires forall p :: p in order ==> p in files
    ensures main == MainTypeStats(order, files)
    ensures forall t :: t in main <==> t in types
    ensures SumOver(types, main) == SumRecords(order, files, None)
  {
    main := map[];
    types := [];
    for i := 0 to |order|
      invariant main == MainTypeStats(order[..i], files)
      invariant forall t :: t in main <==> t in types
      invariant Distinct(types)
      invariant SumOver(types, main) == SumRecords(order[..i], files, None)
    {
      var r := files[order[i]];
      ghost var before := types;
      if r.fileType !in types {
        types := types + [r.fileType];
      }
      TallyStep(order, files, i, main, before, types);
      main := Tally(main, r.fileType, r.counts);
    }
    assert order[..|order|] == order;
  }

  /** One more record: the table and the running sum grow by its counts, and its type is listed once. */
  lemma TallyStep(order: seq<string>, files: map<string, FileRecord>, i: nat,
                  main: map<string, Totals>, types: seq<string>, types': seq<string>)
    requires forall p :: p in order ==> p in files
    requires i < |order|
    requires main == MainTypeStats(order[..i], files)
    requires (forall t :: t in main <==> t in types) && Distinct(types)
    requires SumOver(types, main) == SumRecords(order[..i], files, None)
    requires types' == if files[order[i]].fileType in types then types else types + [files[order[i]].fileType]
    ensures var r := files[order[i]];
      var main' := Tally(main, r.fileType, r.counts);
      && main' == MainTypeStats(order[..i + 1], files)
      && (forall t :: t in main' <==> t in types') && Distinct(types')
      && SumOver(types', main') == SumRecords(order[..i + 1], files, None)
  {
    var r := files[order[i]];
    RecordsStep(order, files, i);
    ListType(main, types, r.fileType, r.counts, types');
  }

  /** Tallying a type that is listed, or listing it first, keeps the list in step with the table. */
  lemma ListType(main: map<string, Totals>, types: seq<string>, t: string, x: Totals, types': seq<string>)
    requires (forall k :: k in main <==> k in types) && Distinct(types)
    requires types' == if t in types then types else types + [t]
    ensures forall k :: k in Tally(main, t, x) <==> k in types'
    ensures Distinct(types')
    ensures SumOver(types', Tally(main, t, x)) == Add(SumOver(types, main), x)
  {
    if t !in types {
      SumOverZero(types, main, t);
      assert types'[..|types|] == types;
    }
    SumOverTally(types', main, t, x);
  }

  lemma RecordsStep(order: seq<string>, files: map<string, FileRecord>, i: nat)
    requires forall p :: p in order ==> p in files
    requires i < |order|
    ensures var r := files[order[i]];
      && MainTypeStats(order[..i + 1], files) == Tally(MainTypeStats(order[..i], files), r.fileType, r.counts)
      && SumRecords(order[..i + 1], files, None) == Add(SumRecords(order[..i], files, None), r.counts)
  {
    var pre := order[..i + 1];
    assert pre[..i] == order[..i] && pre[i] == order[i];
  }

  /** The second loop: `total_all`, the sum of the listed types' totals. */
  method SumTotals(types: seq<string>, main: map<string, Totals>) returns (totalAll: int)
    ensures totalAll == SumOver(types, main).total
  {
    totalAll := 0;
    for j := 0 to |types|
      invariant totalAll == SumOver(types[..j], main).total
    {
      SumOverStep(types, main, j);
      totalAll := totalAll + Get(main, types[j]).total;
    }
    assert types[..|types|] == types;
  }

  lemma SumOverStep(types: seq<string>, m: map<string, Totals>, j: nat)
    requires j < |types|
    ensures SumOver(types[..j + 1], m) == Add(SumOver(types[..j], m), Get(m, types[j]))
  {
    var pre := types[..j + 1];
    assert pre[..j] == types[..j] && pre[j] == types[j];
  }

  /** Listing one more type that has no row yet leaves the sum unchanged. */
  lemma SumOverZero(types: seq<string>, m: map<string, Totals>, t: string)
    requires t !in m
    ensures SumOver(types + [t], m) == SumOver(types, m)
  {
    assert (types + [t])[..|types|] == types;
  }

  // ---------------------------------------------------------------------
  // PDF cache

  /** A decoded JSON value: a string, an object with optional `usage` and `model`, or anything else. */
  datatype Json = JStr(s: string) | JObj(usage: Option<Usage>, model: Option<string>) | JOther

  /** Python truthiness of a `usage` dict: empty is false. */
  predicate UsageTruthy(u: Usage) {
    u.completion.Some? || u.prompt.Some? || u.total.Some? || u.otherKeys
  }

  /**
   * The usage of one `*.cache.json` file and its model: the content must
   * decode to a JSON string that decodes again to an object with a
   * non-empty `usage`. Anything else is reported and skipped.
   */
  function PdfUsage(content: Result<string>, decode: string -> Result<Json>): Option<(Usage, string)> {
    if content.Failure? then None
    else match decode(content.value)
      case Success(JStr(inner)) =>
        (match decode(inner)
         case Success(JObj(u, m)) =>
           if u.Some? && UsageTruthy(u.value) then Some((u.value, if m.Some? then m.value else "unknown")) else None
         case _ => None)
      case _ => None
  }

  /** A file whose JSON is encoded only once is never counted. */
  lemma SingleEncodingNotCounted(content: string, decode: string -> Result<Json>, u: Option<Usage>, m: Option<string>)
    requires decode(content) == Success(JObj(u, m))
    ensures PdfUsage(Success(content), decode).None?
  {
  }

  datatype PdfStats = PdfStats(totals: Totals, byModel: map<string, Totals>, files: map<string, Totals>)

  function CountPdf(s: PdfStats, path: string, content: Result<string>, decode: string -> Result<Json>): PdfStats {
    match PdfUsage(content, decode)
    case None => s
    case Some((u, model)) =>
      PdfStats(Add(s.totals, Counts(u)), Tally(s.byModel, model, Counts(u)), s.files[path := Counts(u)])
  }

  function CountPdfs(s: PdfStats, files: seq<(string, Result<string>)>, decode: string -> Result<Json>): PdfStats {
    if files == [] then s
    else
      var k := |files| - 1;
      CountPdf(CountPdfs(s, files[..k], decode), files[k].0, files[k].1, decode)
  }

  /** The sum of the counts of the counted files. */
  function CountedSum(files: seq<(string, Result<string>)>, decode: string -> Result<Json>): Totals {
    if files == [] then Zero
    else
      var k := |files| - 1;
      var u := PdfUsage(files[k].1, decode);
      Add(CountedSum(files[..k], decode), if u.Some? then Counts(u.value.0) else Zero)
  }

  /** The overall totals are the sum over exactly the files with a usable `usage`. */
  lemma {:induction false} PdfTotalsAreCountedSum(files: seq<(string, Result<string>)>, decode: string -> Result<Json>)
    ensures CountPdfs(PdfStats(Zero, map[], map[]), files, decode).totals == CountedSum(files, decode)
  {
    if files != [] {
      PdfTotalsAreCountedSum(files[..|files| - 1], decode);
    }
  }

  /**
   * `analyze_pdf_cache_tokens`: None when the directory is missing or holds
   * no `*.cache.json` file (`jsonFiles` is the glob, each with its content);
   * otherwise the statistics of the loop.
   */
  method AnalyzePdfCacheTokens(dirExists: bool, jsonFiles: seq<(string, Result<string>)>, decode: string -> Result<Json>)
    returns (r: Option<PdfStats>)
    ensures !dirExists || jsonFiles == [] ==> r.None?
    ensures dirExists && jsonFiles != [] ==> r == Some(CountPdfs(PdfStats(Zero, map[], map[]), jsonFiles, decode))
  {
    if !dirExists {
      return None;
    }
    if jsonFiles == [] {
      return None;
    }
    var s := PdfStats(Zero, map[], map[]);
    for i := 0 to |jsonFiles|
      invariant s == CountPdfs(PdfStats(Zero, map[], map[]), jsonFiles[..i], decode)
    {
      assert jsonFiles[..i + 1][..i] == jsonFiles[..i];
      var (path, content) := jsonFiles[i];
      var u := PdfUsage(content, decode);
      if u.Some? {
        var counts := Counts(u.value.0);
        s := PdfStats(Add(s.totals, counts), Tally(s.byModel, u.value.1, counts), s.files[path := counts]);
      }
    }
    assert jsonFiles[..|jsonFiles|] == jsonFiles;
    return Some(s);
  }
}
