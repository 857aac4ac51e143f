/**
 * PDF page caching: the names of a page's image and text files under the
 * project's `pdf_cache`, the cached extraction of one page's text, the
 * ordered assembly of the whole document's text, and bounding-box formatting.
 */
module PdfTxt {

  import opened Wrappers
  import opened Strings
  import Blob

  function CacheBase(projectName: string): string {
    "/app/projects/" + projectName + "/pdf_cache"
  }

  /** The image name of page `pageNum` (0-based) of `pdfName`; file names count pages from 1. */
  function PageImageName(pdfName: string, pageNum: nat): (r: string)
    ensures EndsWith(r, ".png")
  {
    SuffixOfConcat(pdfName + "_page_" + NatToString(pageNum + 1), ".png");
    pdfName + "_page_" + NatToString(pageNum + 1) + ".png"
  }

  /** Distinct pages of one document never share an image name. */
  lemma {:induction false} PageImageNameInjective(pdfName: string, p: nat, q: nat)
    requires PageImageName(pdfName, p) == PageImageName(pdfName, q)
    ensures p == q
  {
    var a, b := PageImageName(pdfName, p), PageImageName(pdfName, q);
    var n := |pdfName| + 6;
    assert NatToString(p + 1) == a[n..|a| - 4];
    assert NatToString(q + 1) == b[n..|b| - 4];
    DigitsValueOfNatToString(p + 1);
    DigitsValueOfNatToString(q + 1);
  }

  /** The paths a `PageTask` computes when it is built. */
  datatype PageTask = PageTask(pdfName: string, projectName: string, option: string,
                               optionFormat: string, imgPath: string, txtPath: string,
                               aiTxtPath: string, pageNum: nat)

  function NewPageTask(pdfPath: string, projectName: string, option: string, pageNum: nat): (t: PageTask)
    ensures ' ' !in t.optionFormat && t.optionFormat == Without(option, ' ')
    ensures t.pdfName == Blob.Basename(pdfPath) && t.option == option && t.pageNum == pageNum
    ensures t.imgPath == CacheBase(projectName) + "/" + PageImageName(Blob.Basename(pdfPath), pageNum)
    ensures EndsWith(t.imgPath, ".png") && EndsWith(t.aiTxtPath, ".txt")
    ensures t.txtPath == t.imgPath + ".txt"
    ensures t.aiTxtPath == t.imgPath + "." + t.optionFormat + ".txt"
  {
    var pdfName := Blob.Basename(pdfPath);
    var format := ReplaceAll(option, " ", "");
    ReplaceCharIsWithout(option, ' ');
    var img := CacheBase(projectName) + "/" + PageImageName(pdfName, pageNum);
    EndsWithConcat(CacheBase(projectName) + "/", PageImageName(pdfName, pageNum), ".png");
    SuffixOfConcat(img + "." + format, ".txt");
    PageTask(pdfName, projectName, option, format, img, img + ".txt", img + "." + format + ".txt", pageNum)
  }

  lemma SuffixOfConcat(a: string, b: string)
    ensures EndsWith(a + b, b)
  {
    assert (a + b)[|a + b| - |b|..] == b;
  }

  lemma EndsWithConcat(a: string, b: string, suffix: string)
    requires EndsWith(b, suffix)
    ensures EndsWith(a + b, suffix)
  {
    assert (a + b)[|a + b| - |suffix|..] == b[|b| - |suffix|..];
  }

  /** The path of the whole document's text: `{pdf_path}.{option without spaces}.txt`. */
  function FullTextPath(pdfPath: string, option: string): (r: string)
    ensures StartsWith(r, pdfPath) && EndsWith(r, ".txt")
    ensures r == pdfPath + "." + Without(option, ' ') + ".txt"
  {
    ReplaceCharIsWithout(option, ' ');
    pdfPath + "." + ReplaceAll(option, " ", "") + ".txt"
  }

  /** The five configured extraction options (their text lives in the application's configuration). */
  datatype VisionOptions = VisionOptions(vision: string, visionTxt: string, visionImage: string,
                                         visionAzure: string, visionDi: string)

  /**
   * What each extractor would produce for the page: a `(prompt, text)` pair
   * from the vision models, the text from Document Intelligence, or the
   * message of the exception it raises.
   */
  datatype Extractors = Extractors(vision: Result<(string, string)>, visionTxt: Result<(string, string)>,
                                   visionImage: Result<(string, string)>, visionAzure: Result<(string, string)>,
                                   di: Result<string>)

  /** The outcome of the extraction block: whether it completed, and the `(prompt, text)` it left. */
  datatype Extraction = Extraction(completed: bool, prompt: string, text: string)

  function Apply(e: Extraction, hit: bool, r: Result<(string, string)>): Extraction {
    if !e.completed || !hit then e
    else match r
      case Failure(_) => Extraction(false, e.prompt, e.text)
      case Success(pt) => Extraction(true, pt.0, pt.1)
  }

  /** The five `if` tests of `get_ai_txt`, run in order; the first exception ends the block. */
  function RunExtractors(option: string, opts: VisionOptions, ex: Extractors): Extraction {
    var e0 := Extraction(true, "", "");
    var e1 := Apply(e0, option == opts.vision, ex.vision);
    var e2 := Apply(e1, option == opts.visionTxt, ex.visionTxt);
    var e3 := Apply(e2, option == opts.visionImage, ex.visionImage);
    var e4 := Apply(e3, option == opts.visionAzure, ex.visionAzure);
    if !e4.completed || option != opts.visionDi then e4
    else match ex.di
      case Failure(_) => Extraction(false, e4.prompt, e4.text)
      case Success(t) => Extraction(true, e4.prompt, t)
  }

  predicate Distinct(opts: VisionOptions) {
    var all := [opts.vision, opts.visionTxt, opts.visionImage, opts.visionAzure, opts.visionDi];
    forall i, j :: 0 <= i < j < 5 ==> all[i] != all[j]
  }

  /** An option equal to none of the five extracts nothing and completes with `("", "")`. */
  lemma UnknownOptionGivesEmpty(option: string, opts: VisionOptions, ex: Extractors)
    requires option !in {opts.vision, opts.visionTxt, opts.visionImage, opts.visionAzure, opts.visionDi}
    ensures RunExtractors(option, opts, ex) == Extraction(true, "", "")
  {
  }

  /** With distinct options, a vision option yields exactly its extractor's pair, or the empty pair on failure. */
  lemma VisionOptionSelectsItsExtractor(option: string, opts: VisionOptions, ex: Extractors)
    requires Distinct(opts) && option == opts.vision
    ensures RunExtractors(option, opts, ex) ==
      match ex.vision
      case Success(pt) => Extraction(true, pt.0, pt.1)
      case Failure(_) => Extraction(false, "", "")
  {
    var all := [opts.vision, opts.visionTxt, opts.visionImage, opts.visionAzure, opts.visionDi];
    assert all[0] != all[1] && all[0] != all[2] && all[0] != all[3] && all[0] != all[4];
  }

  /** With distinct options, Document Intelligence sets only the text and leaves the prompt empty. */
  lemma DiOptionLeavesPromptEmpty(option: string, opts: VisionOptions, ex: Extractors)
    requires Distinct(opts) && option == opts.visionDi
    ensures RunExtractors(option, opts, ex).prompt == ""
    ensures RunExtractors(option, opts, ex).completed <==> ex.di.Success?
    ensures ex.di.Success? ==> RunExtractors(option, opts, ex).text == ex.di.value
  {
    var all := [opts.vision, opts.visionTxt, opts.visionImage, opts.visionAzure, opts.visionDi];
    assert all[0] != all[4] && all[1] != all[4] && all[2] != all[4] && all[3] != all[4];
  }

  /** The project's `pdf_cache` directory: file path to contents. */
  class PageCacheDir {
    var files: map<string, string>

    constructor (files: map<string, string>)
      ensures this.files == files
    {
      this.files := files;
    }

    /**
     * `get_ai_txt`: a cached text is returned with an empty prompt and
     * nothing is rendered; otherwise the page image is written (its
     * rendering may raise), the extractors run, and the text is cached
     * only when they complete. The pair is returned either way.
     */
    method GetAiTxt(task: PageTask, opts: VisionOptions, ex: Extractors,
                    image: Result<string>) returns (r: Result<(string, string)>)
      modifies this
      ensures task.aiTxtPath in old(files) ==>
        r == Success(("", old(files)[task.aiTxtPath])) && files == old(files)
      ensures task.aiTxtPath !in old(files) && image.Failure? ==>
        r == Failure(image.error) && files == old(files)
      ensures task.aiTxtPath !in old(files) && image.Success? ==>
        var e := RunExtractors(task.option, opts, ex);
        var rendered := old(files)[task.imgPath := image.value];
        r == Success((e.prompt, e.text))
        && files == if e.completed then rendered[task.aiTxtPath := e.text] else rendered
      ensures forall p :: p in old(files) && p != task.imgPath ==> p in files && files[p] == old(files)[p]
      ensures AgreeElsewhere(old(files), files, task.imgPath, task.aiTxtPath)
      ensures r.Success? && task.aiTxtPath in old(files) ==> r.value.1 == old(files)[task.aiTxtPath]
      ensures r.Failure? ==> files == old(files) && task.aiTxtPath !in old(files) && image.Failure? && r.error == image.error
      ensures r.Success? && task.aiTxtPath !in old(files) && task.aiTxtPath != task.imgPath ==>
        var e := RunExtractors(task.option, opts, ex);
        image.Success? && task.imgPath in files && files[task.imgPath] == image.value && r.value.1 == e.text
        && (task.aiTxtPath in files <==> e.completed) && (task.aiTxtPath in files ==> files[task.aiTxtPath] == e.text)
    {
      if task.aiTxtPath in files {
        return Success(("", files[task.aiTxtPath]));
      }
      if image.Failure? {
        return Failure(image.error);
      }
      files := files[task.imgPath := image.value];
      var prompt, aiTxt := "", "";
      var completed := true;
      if task.option == opts.vision {
        if ex.vision.Failure? { completed := false; } else { prompt, aiTxt := ex.vision.value.0, ex.vision.value.1; }
      }
      if completed && task.option == opts.visionTxt {
        if ex.visionTxt.Failure? { completed := false; } else { prompt, aiTxt := ex.visionTxt.value.0, ex.visionTxt.value.1; }
      }
      if completed && task.option == opts.visionImage {
        if ex.visionImage.Failure? { completed := false; } else { prompt, aiTxt := ex.visionImage.value.0, ex.visionImage.value.1; }
      }
      if completed && task.option == opts.visionAzure {
        if ex.visionAzure.Failure? { completed := false; } else { prompt, aiTxt := ex.visionAzure.value.0, ex.visionAzure.value.1; }
      }
      if completed && task.option == opts.visionDi {
        if ex.di.Failure? { completed := false; } else { aiTxt := ex.di.value; }
      }
      if completed {
        files := files[task.aiTxtPath := aiTxt];
      }
      return Success((prompt, aiTxt));
    }

    /**
     * The ordered pass of `save_pdf_pages_as_images`: the file starts with
     * "\n"; for each page in order "\n\n" is appended, then the page text
     * when it is not empty. A page whose rendering raises ends the pass,
     * leaving what was written so far.
     */
    method AssembleText(pdfPath: string, projectName: string, option: string, pageCount: nat,
                        opts: VisionOptions, ex: seq<Extractors>, images: seq<Result<string>>)
      returns (written: string, error: Option<string>, ghost texts: seq<string>, ghost paths: seq<string>,
               ghost imgPaths: seq<string>)
      requires |ex| == pageCount && |images| == pageCount
      modifies this
      ensures error.None? ==> |texts| == pageCount && written == AssembledText(texts)
      ensures error.Some? ==> |texts| < pageCount && written == AssembledText(texts) + "\n\n"
      ensures error.Some? ==>
        AiTxtPath(pdfPath, projectName, option, |texts|) !in old(files)
        && images[|texts|].Failure? && error == Some(images[|texts|].error)
      ensures PagePaths(paths, pdfPath, projectName, option) && ImagePaths(imgPaths, pdfPath, projectName, |paths|)
      ensures CachedTextsKept(texts, paths, old(files))
      ensures UncachedTextsExtracted(texts, paths, old(files), option, opts, ex, images)
      ensures PageFilesWritten(texts, paths, old(files), files, option, opts, ex)
      ensures PageImagesWritten(imgPaths, paths, images, old(files), files)
      ensures NewTextFilesArePages(old(files), files, paths)
      ensures KeptOutside(old(files), files, paths + imgPaths)
      ensures TextFilesKept(old(files), files)
    {
      written := "\n";
      texts, paths, imgPaths := [], [], [];
      error := None;
      var page := 0;
      while page < pageCount
        invariant 0 <= page <= pageCount && |texts| == page && error.None?
        invariant written == AssembledText(texts)
        invariant PassKeeps(old(files), files, texts, paths, imgPaths, pdfPath, projectName, option, opts, ex, images)
      {
        var task := NewPageTask(pdfPath, projectName, option, page);
        written := written + "\n\n";
        ghost var before := files;
        var r := GetAiTxt(task, opts, ex[page], images[page]);
        PngIsNotTxt(task.aiTxtPath, task.imgPath);
        FreshPageIsUncached(paths, pdfPath, projectName, option, task, old(files), before);
        if r.Failure? {
          error := Some(r.error);
          return;
        }
        var aiTxt := r.value.1;
        AssembledAppend(texts, aiTxt);
        if aiTxt != "" {
          written := written + aiTxt;
        } else {
          assert written + aiTxt == written;
        }
        PassStep(old(files), before, files, texts, paths, imgPaths, aiTxt, task,
                 pdfPath, projectName, option, opts, ex, images);
        texts, paths, imgPaths := texts + [aiTxt], paths + [task.aiTxtPath], imgPaths + [task.imgPath];
        page := page + 1;
      }
      assert |texts| == pageCount && written == AssembledText(texts);
      assert TextFilesKept(old(files), files);
    }
  }

  function AiTxtPath(pdfPath: string, projectName: string, option: string, page: nat): string {
    NewPageTask(pdfPath, projectName, option, page).aiTxtPath
  }

  /** `paths[i]` is the text cache file of page `i`. */
  ghost predicate PagePaths(paths: seq<string>, pdfPath: string, projectName: string, option: string) {
    forall i :: 0 <= i < |paths| ==> paths[i] == AiTxtPath(pdfPath, projectName, option, i)
  }

  /** Every page whose text file was already cached got exactly the cached text. */
  ghost predicate CachedTextsKept(texts: seq<string>, paths: seq<string>, cache: map<string, string>) {
    |paths| == |texts| && forall i :: 0 <= i < |texts| && paths[i] in cache ==> texts[i] == cache[paths[i]]
  }

  /** Every page whose text file was not cached had its image rendered and got the extractors' text. */
  ghost predicate UncachedTextsExtracted(texts: seq<string>, paths: seq<string>, cache: map<string, string>,
                                         option: string, opts: VisionOptions, ex: seq<Extractors>,
                                         images: seq<Result<string>>) {
    |paths| == |texts| && |texts| <= |ex| && |texts| <= |images|
    && forall i :: 0 <= i < |texts| && paths[i] !in cache ==>
         images[i].Success? && texts[i] == RunExtractors(option, opts, ex[i]).text
  }

  /**
   * A page's text file exists afterwards exactly when it was cached or its
   * extractors completed, and it then holds the page's text.
   */
  ghost predicate PageFilesWritten(texts: seq<string>, paths: seq<string>, cache: map<string, string>,
                                   after: map<string, string>, option: string, opts: VisionOptions,
                                   ex: seq<Extractors>) {
    |paths| == |texts| && |texts| <= |ex|
    && forall i :: 0 <= i < |texts| ==>
         (paths[i] in after <==> paths[i] in cache || RunExtractors(option, opts, ex[i]).completed)
         && (paths[i] in after ==> after[paths[i]] == texts[i])
  }

  /** Every text file the pass created is one of the pages' text files. */
  ghost predicate NewTextFilesArePages(before: map<string, string>, after: map<string, string>, paths: seq<string>) {
    forall p :: p in after && p !in before && EndsWith(p, ".txt") ==> p in paths
  }

  /** `after` differs from `before` at most at the keys `a` and `b`. */
  ghost predicate AgreeElsewhere(before: map<string, string>, after: map<string, string>, a: string, b: string) {
    forall p :: p != a && p != b ==> (p in after <==> p in before) && (p in after ==> after[p] == before[p])
  }

  /** Distinct pages of one document never share a text cache file. */
  lemma AiTxtPathInjective(pdfPath: string, projectName: string, option: string, p: nat, q: nat)
    requires AiTxtPath(pdfPath, projectName, option, p) == AiTxtPath(pdfPath, projectName, option, q)
    ensures p == q
  {
    var name := Blob.Basename(pdfPath);
    var tp, tq := NewPageTask(pdfPath, projectName, option, p), NewPageTask(pdfPath, projectName, option, q);
    var head, fmt := CacheBase(projectName) + "/", Without(option, ' ');
    MiddleOf(tp.aiTxtPath, head, PageImageName(name, p), fmt);
    MiddleOf(tq.aiTxtPath, head, PageImageName(name, q), fmt);
    PageImageNameInjective(name, p, q);
  }

  lemma MiddleOf(x: string, head: string, mid: string, fmt: string)
    requires x == (((head + mid) + ".") + fmt) + ".txt"
    ensures |x| == |head| + |mid| + |fmt| + 5 && x[|head|..|head| + |mid|] == mid
  {
  }

  /** The text file of the next page is new to the pass, so it is present only if it was cached. */
  lemma FreshPageIsUncached(paths: seq<string>, pdfPath: string, projectName: string, option: string,
                            task: PageTask, orig: map<string, string>, before: map<string, string>)
    requires PagePaths(paths, pdfPath, projectName, option)
    requires task == NewPageTask(pdfPath, projectName, option, |paths|)
    requires NewTextFilesArePages(orig, before, paths)
    requires TextFilesKept(orig, before)
    ensures task.aiTxtPath in before <==> task.aiTxtPath in orig
  {
    if task.aiTxtPath in before && task.aiTxtPath !in orig {
      assert task.aiTxtPath in paths;
      var j :| 0 <= j < |paths| && paths[j] == task.aiTxtPath;
      AiTxtPathInjective(pdfPath, projectName, option, j, |paths|);
      assert false;
    }
  }

  lemma UncachedTextsExtend(texts: seq<string>, paths: seq<string>, aiTxt: string, task: PageTask,
                            orig: map<string, string>, before: map<string, string>,
                            option: string, opts: VisionOptions, ex: seq<Extractors>, images: seq<Result<string>>)
    requires UncachedTextsExtracted(texts, paths, orig, option, opts, ex, images)
    requires |texts| < |ex| && |texts| < |images| && task.option == option
    requires task.aiTxtPath in before <==> task.aiTxtPath in orig
    requires task.aiTxtPath !in before ==>
      images[|texts|].Success? && aiTxt == RunExtractors(task.option, opts, ex[|texts|]).text
    ensures UncachedTextsExtracted(texts + [aiTxt], paths + [task.aiTxtPath], orig, option, opts, ex, images)
  {
    var t, q := texts + [aiTxt], paths + [task.aiTxtPath];
    forall i | 0 <= i < |t| && q[i] !in orig
      ensures images[i].Success? && t[i] == RunExtractors(option, opts, ex[i]).text
    {
      if i < |texts| {
        assert t[i] == texts[i] && q[i] == paths[i];
      }
    }
  }

  lemma PageFilesExtend(texts: seq<string>, paths: seq<string>, aiTxt: string, task: PageTask,
                        orig: map<string, string>, before: map<string, string>, after: map<string, string>,
                        pdfPath: string, projectName: string, option: string, opts: VisionOptions,
                        ex: seq<Extractors>)
    requires PageFilesWritten(texts, paths, orig, before, option, opts, ex)
    requires PagePaths(paths, pdfPath, projectName, option) && |texts| < |ex|
    requires task == NewPageTask(pdfPath, projectName, option, |paths|)
    requires AgreeElsewhere(before, after, task.imgPath, task.aiTxtPath)
    requires TextFilesKept(orig, before)
    requires task.aiTxtPath in before <==> task.aiTxtPath in orig
    requires task.aiTxtPath in before ==> aiTxt == before[task.aiTxtPath] && after == before
    requires task.aiTxtPath !in before ==>
      (task.aiTxtPath in after <==> RunExtractors(option, opts, ex[|texts|]).completed)
      && (task.aiTxtPath in after ==> after[task.aiTxtPath] == aiTxt)
    ensures PageFilesWritten(texts + [aiTxt], paths + [task.aiTxtPath], orig, after, option, opts, ex)
  {
    var t, q := texts + [aiTxt], paths + [task.aiTxtPath];
    forall i | 0 <= i < |t|
      ensures (q[i] in after <==> q[i] in orig || RunExtractors(option, opts, ex[i]).completed)
      ensures (q[i] in after ==> after[q[i]] == t[i])
    {
      if i < |texts| {
        assert t[i] == texts[i] && q[i] == paths[i];
        if q[i] == task.aiTxtPath {
          AiTxtPathInjective(pdfPath, projectName, option, i, |paths|);
        }
        assert q[i] != task.imgPath by { PngIsNotTxt(q[i], task.imgPath); }
      }
    }
  }

  lemma NewTextFilesExtend(paths: seq<string>, task: PageTask, orig: map<string, string>,
                           before: map<string, string>, after: map<string, string>)
    requires NewTextFilesArePages(orig, before, paths)
    requires AgreeElsewhere(before, after, task.imgPath, task.aiTxtPath)
    requires EndsWith(task.imgPath, ".png")
    ensures NewTextFilesArePages(orig, after, paths + [task.aiTxtPath])
  {
    var q := paths + [task.aiTxtPath];
    forall p | p in after && p !in orig && EndsWith(p, ".txt")
      ensures p in q
    {
      PngIsNotTxt(p, task.imgPath);
      if p == task.aiTxtPath {
        assert q[|paths|] == p;
      } else {
        assert p in paths;
        var j :| 0 <= j < |paths| && paths[j] == p;
        assert q[j] == p;
      }
    }
  }

  lemma PngIsNotTxt(a: string, b: string)
    requires EndsWith(a, ".txt") && EndsWith(b, ".png")
    ensures a != b
  {
  }

  /** What the ordered pass keeps true of the pages done so far and of the cache directory. */
  ghost predicate PassKeeps(orig: map<string, string>, files: map<string, string>, texts: seq<string>,
                            paths: seq<string>, imgPaths: seq<string>, pdfPath: string, projectName: string,
                            option: string, opts: VisionOptions, ex: seq<Extractors>, images: seq<Result<string>>) {
    PagePaths(paths, pdfPath, projectName, option) && ImagePaths(imgPaths, pdfPath, projectName, |paths|)
    && CachedTextsKept(texts, paths, orig)
    && UncachedTextsExtracted(texts, paths, orig, option, opts, ex, images)
    && PageFilesWritten(texts, paths, orig, files, option, opts, ex)
    && PageImagesWritten(imgPaths, paths, images, orig, files)
    && NewTextFilesArePages(orig, files, paths)
    && KeptOutside(orig, files, paths + imgPaths)
    && TextFilesKept(orig, files)
  }

  /** One page of the pass keeps `PassKeeps`, given what `GetAiTxt` promises for it. */
  lemma PassStep(orig: map<string, string>, before: map<string, string>, after: map<string, string>,
                 texts: seq<string>, paths: seq<string>, imgPaths: seq<string>, aiTxt: string, task: PageTask,
                 pdfPath: string, projectName: string, option: string, opts: VisionOptions,
                 ex: seq<Extractors>, images: seq<Result<string>>)
    requires PassKeeps(orig, before, texts, paths, imgPaths, pdfPath, projectName, option, opts, ex, images)
    requires |paths| < |ex| && |paths| < |images|
    requires task == NewPageTask(pdfPath, projectName, option, |paths|)
    requires AgreeElsewhere(before, after, task.imgPath, task.aiTxtPath)
    requires forall p :: p in before && p != task.imgPath ==> p in after && after[p] == before[p]
    requires task.aiTxtPath in before <==> task.aiTxtPath in orig
    requires task.aiTxtPath in before ==> aiTxt == before[task.aiTxtPath] && after == before
    requires task.aiTxtPath !in before ==>
      var e := RunExtractors(option, opts, ex[|paths|]);
      images[|paths|].Success? && task.imgPath in after && after[task.imgPath] == images[|paths|].value
      && aiTxt == e.text && (task.aiTxtPath in after <==> e.completed)
      && (task.aiTxtPath in after ==> after[task.aiTxtPath] == aiTxt)
    ensures PassKeeps(orig, after, texts + [aiTxt], paths + [task.aiTxtPath], imgPaths + [task.imgPath],
                      pdfPath, projectName, option, opts, ex, images)
  {
    WriteKeepsTextFiles(orig, before, after, task);
    CachedTextsExtend(texts, paths, aiTxt, task.aiTxtPath, orig, before);
    UncachedTextsExtend(texts, paths, aiTxt, task, orig, before, option, opts, ex, images);
    PageFilesExtend(texts, paths, aiTxt, task, orig, before, after, pdfPath, projectName, option, opts, ex);
    NewTextFilesExtend(paths, task, orig, before, after);
    FreshImageOutsideKeys(paths, imgPaths, task, pdfPath, projectName, option);
    PageImagesExtend(imgPaths, paths, images, task, orig, before, after);
    KeptOutsideExtend(paths, imgPaths, task, orig, before, after);
    PagePathsExtend(paths, pdfPath, projectName, option, task);
    ImagePathsExtend(imgPaths, pdfPath, projectName, task, option);
  }

  lemma ImagePathsExtend(imgPaths: seq<string>, pdfPath: string, projectName: string, task: PageTask, option: string)
    requires ImagePaths(imgPaths, pdfPath, projectName, |imgPaths|)
    requires task == NewPageTask(pdfPath, projectName, option, |imgPaths|)
    ensures ImagePaths(imgPaths + [task.imgPath], pdfPath, projectName, |imgPaths| + 1)
  {
    var m := imgPaths + [task.imgPath];
    forall i | 0 <= i < |m|
      ensures m[i] == CacheBase(projectName) + "/" + PageImageName(Blob.Basename(pdfPath), i)
    {
      if i < |imgPaths| {
        assert m[i] == imgPaths[i];
      }
    }
  }

  /** `imgPaths[i]` is the image file of page `i`. */
  ghost predicate ImagePaths(imgPaths: seq<string>, pdfPath: string, projectName: string, n: nat) {
    |imgPaths| == n
    && forall i :: 0 <= i < n ==> imgPaths[i] == CacheBase(projectName) + "/" + PageImageName(Blob.Basename(pdfPath), i)
  }

  /**
   * The image of every page whose text was not cached holds the page's
   * rendering; the image of a cached page is left as it was.
   */
  ghost predicate PageImagesWritten(imgPaths: seq<string>, paths: seq<string>, images: seq<Result<string>>,
                                    cache: map<string, string>, after: map<string, string>) {
    |imgPaths| == |paths| && |paths| <= |images|
    && forall i :: 0 <= i < |imgPaths| ==>
         (paths[i] !in cache ==> images[i].Success? && imgPaths[i] in after && after[imgPaths[i]] == images[i].value)
         && (paths[i] in cache ==> (imgPaths[i] in after <==> imgPaths[i] in cache)
                                   && (imgPaths[i] in after ==> after[imgPaths[i]] == cache[imgPaths[i]]))
  }

  /** Every file outside `keys` keeps its presence and its contents. */
  ghost predicate KeptOutside(before: map<string, string>, after: map<string, string>, keys: seq<string>) {
    forall p :: p !in keys ==> (p in after <==> p in before) && (p in after ==> after[p] == before[p])
  }

  /** Distinct pages of one document never share an image file. */
  lemma ImgPathInjective(pdfPath: string, projectName: string, p: nat, q: nat)
    requires CacheBase(projectName) + "/" + PageImageName(Blob.Basename(pdfPath), p)
          == CacheBase(projectName) + "/" + PageImageName(Blob.Basename(pdfPath), q)
    ensures p == q
  {
    var head := CacheBase(projectName) + "/";
    var name := Blob.Basename(pdfPath);
    assert (head + PageImageName(name, p))[|head|..] == PageImageName(name, p);
    assert (head + PageImageName(name, q))[|head|..] == PageImageName(name, q);
    PageImageNameInjective(name, p, q);
  }

  lemma PageImagesExtend(imgPaths: seq<string>, paths: seq<string>, images: seq<Result<string>>, task: PageTask,
                         orig: map<string, string>, before: map<string, string>, after: map<string, string>)
    requires PageImagesWritten(imgPaths, paths, images, orig, before)
    requires KeptOutside(orig, before, paths + imgPaths)
    requires |paths| < |images|
    requires task.imgPath !in paths + imgPaths
    requires forall i :: 0 <= i < |imgPaths| ==> imgPaths[i] != task.imgPath && imgPaths[i] != task.aiTxtPath
    requires AgreeElsewhere(before, after, task.imgPath, task.aiTxtPath)
    requires task.aiTxtPath in before <==> task.aiTxtPath in orig
    requires task.aiTxtPath in before ==> after == before
    requires task.aiTxtPath !in before ==>
      images[|paths|].Success? && task.imgPath in after && after[task.imgPath] == images[|paths|].value
    ensures PageImagesWritten(imgPaths + [task.imgPath], paths + [task.aiTxtPath], images, orig, after)
  {
    var m, q := imgPaths + [task.imgPath], paths + [task.aiTxtPath];
    forall i | 0 <= i < |m|
      ensures q[i] !in orig ==> images[i].Success? && m[i] in after && after[m[i]] == images[i].value
      ensures q[i] in orig ==> (m[i] in after <==> m[i] in orig) && (m[i] in after ==> after[m[i]] == orig[m[i]])
    {
      if i < |imgPaths| {
        assert m[i] == imgPaths[i] && q[i] == paths[i];
      } else {
        assert m[i] == task.imgPath && q[i] == task.aiTxtPath;
      }
    }
  }

  /** The image file of the next page is neither an earlier page's file nor its own text file. */
  lemma FreshImageOutsideKeys(paths: seq<string>, imgPaths: seq<string>, task: PageTask,
                              pdfPath: string, projectName: string, option: string)
    requires ImagePaths(imgPaths, pdfPath, projectName, |paths|) && PagePaths(paths, pdfPath, projectName, option)
    requires task == NewPageTask(pdfPath, projectName, option, |paths|)
    ensures task.imgPath != task.aiTxtPath && task.imgPath !in paths + imgPaths
    ensures forall i :: 0 <= i < |imgPaths| ==> imgPaths[i] != task.imgPath && imgPaths[i] != task.aiTxtPath
  {
    PngIsNotTxt(task.aiTxtPath, task.imgPath);
    forall i | 0 <= i < |imgPaths|
      ensures imgPaths[i] != task.imgPath && imgPaths[i] != task.aiTxtPath
    {
      if imgPaths[i] == task.imgPath {
        ImgPathInjective(pdfPath, projectName, i, |paths|);
      }
      PngIsNotTxt(task.aiTxtPath, imgPaths[i]);
    }
    forall j | 0 <= j < |paths + imgPaths|
      ensures (paths + imgPaths)[j] != task.imgPath
    {
      if j < |paths| {
        PngIsNotTxt(paths[j], task.imgPath);
      } else {
        assert (paths + imgPaths)[j] == imgPaths[j - |paths|];
      }
    }
  }

  lemma KeptOutsideExtend(paths: seq<string>, imgPaths: seq<string>, task: PageTask,
                          orig: map<string, string>, before: map<string, string>, after: map<string, string>)
    requires KeptOutside(orig, before, paths + imgPaths)
    requires AgreeElsewhere(before, after, task.imgPath, task.aiTxtPath)
    ensures KeptOutside(orig, after, (paths + [task.aiTxtPath]) + (imgPaths + [task.imgPath]))
  {
    var keys := (paths + [task.aiTxtPath]) + (imgPaths + [task.imgPath]);
    forall p | p !in keys
      ensures (p in after <==> p in orig) && (p in after ==> after[p] == orig[p])
    {
      assert keys[|paths|] == task.aiTxtPath && keys[|keys| - 1] == task.imgPath;
    }
  }

  /** Cached text files are never overwritten. */
  ghost predicate TextFilesKept(before: map<string, string>, after: map<string, string>) {
    forall p :: p in before && EndsWith(p, ".txt") ==> p in after && after[p] == before[p]
  }

  lemma WriteKeepsTextFiles(orig: map<string, string>, before: map<string, string>,
                            after: map<string, string>, task: PageTask)
    requires TextFilesKept(orig, before)
    requires EndsWith(task.imgPath, ".png")
    requires forall p :: p in before && p != task.imgPath ==> p in after && after[p] == before[p]
    ensures TextFilesKept(orig, after)
  {
    forall p | p in orig && EndsWith(p, ".txt")
      ensures p in after && after[p] == orig[p]
    {
      assert p != task.imgPath;
    }
  }

  lemma CachedTextsExtend(texts: seq<string>, paths: seq<string>, aiTxt: string, path: string,
                          orig: map<string, string>, before: map<string, string>)
    requires CachedTextsKept(texts, paths, orig)
    requires TextFilesKept(orig, before) && EndsWith(path, ".txt")
    requires path in before ==> aiTxt == before[path]
    ensures CachedTextsKept(texts + [aiTxt], paths + [path], orig)
  {
    CachedLast(aiTxt, path, orig, before);
    var t, q := texts + [aiTxt], paths + [path];
    forall i | 0 <= i < |t| && q[i] in orig
      ensures t[i] == orig[q[i]]
    {
      if i < |texts| {
        assert t[i] == texts[i] && q[i] == paths[i];
      }
    }
  }

  /** A text file present before the pass still holds its original content, so the page read it. */
  lemma CachedLast(aiTxt: string, path: string, orig: map<string, string>, before: map<string, string>)
    requires TextFilesKept(orig, before) && EndsWith(path, ".txt")
    requires path in before ==> aiTxt == before[path]
    ensures path in orig ==> aiTxt == orig[path]
  {
  }

  lemma PagePathsExtend(paths: seq<string>, pdfPath: string, projectName: string, option: string, task: PageTask)
    requires PagePaths(paths, pdfPath, projectName, option)
    requires task == NewPageTask(pdfPath, projectName, option, |paths|)
    ensures PagePaths(paths + [task.aiTxtPath], pdfPath, projectName, option)
  {
    var q := paths + [task.aiTxtPath];
    forall i | 0 <= i < |q|
      ensures q[i] == AiTxtPath(pdfPath, projectName, option, i)
    {
      if i < |paths| {
        assert q[i] == paths[i];
      }
    }
  }

  /** The whole document's text for the given page texts. */
  function AssembledText(texts: seq<string>): string {
    if texts == [] then "\n" else AssembledText(texts[..|texts| - 1]) + "\n\n" + texts[|texts| - 1]
  }

  /** One more page adds "\n\n" and its text. */
  lemma AssembledAppend(texts: seq<string>, text: string)
    ensures AssembledText(texts + [text]) == AssembledText(texts) + "\n\n" + text
  {
    assert (texts + [text])[..|texts|] == texts;
  }

  function SumLengths(texts: seq<string>): nat {
    if texts == [] then 0 else SumLengths(texts[..|texts| - 1]) + |texts[|texts| - 1]|
  }

  /** Where page `i`'s text starts in the assembled file. */
  function PageOffset(texts: seq<string>, i: nat): nat
    requires i < |texts|
  {
    1 + 2 * (i + 1) + SumLengths(texts[..i])
  }

  /** The file holds one leading newline, two per page, and every page text. */
  lemma {:induction false} AssembledLength(texts: seq<string>)
    ensures |AssembledText(texts)| == 1 + 2 * |texts| + SumLengths(texts)
  {
    if texts != [] {
      AssembledLength(texts[..|texts| - 1]);
    }
  }

  lemma {:induction false} AssembledPrefix(texts: seq<string>, k: nat)
    requires k <= |texts|
    ensures |AssembledText(texts[..k])| <= |AssembledText(texts)|
    ensures AssembledText(texts)[..|AssembledText(texts[..k])|] == AssembledText(texts[..k])
    decreases |texts|
  {
    if k < |texts| {
      var init := texts[..|texts| - 1];
      assert texts[..k] == init[..k];
      AssembledPrefix(init, k);
      var m := |AssembledText(texts[..k])|;
      assert AssembledText(texts) == AssembledText(init) + ("\n\n" + texts[|texts| - 1]);
      assert AssembledText(texts)[..m] == AssembledText(init)[..m];
    } else {
      assert texts[..k] == texts;
    }
  }

  /** Page `i`'s text sits, preceded by "\n\n", at its offset: the pages appear in order. */
  lemma PageTextAtOffset(texts: seq<string>, i: nat)
    requires i < |texts|
    ensures PageOffset(texts, i) + |texts[i]| <= |AssembledText(texts)|
    ensures AssembledText(texts)[PageOffset(texts, i) - 2..PageOffset(texts, i) + |texts[i]|] == "\n\n" + texts[i]
  {
    var pre := texts[..i + 1];
    var head, upTo, whole := AssembledText(texts[..i]), AssembledText(pre), AssembledText(texts);
    assert upTo == head + "\n\n" + texts[i] by {
      assert pre[..|pre| - 1] == texts[..i] && pre[|pre| - 1] == texts[i];
    }
    assert |head| == PageOffset(texts, i) - 2 by {
      AssembledLength(texts[..i]);
    }
    assert |upTo| <= |whole| && whole[..|upTo|] == upTo by {
      AssembledPrefix(texts, i + 1);
    }
    PageSlice(whole, head, upTo, texts[i]);
  }

  /** A prefix made of `head`, "\n\n" and `t` shows "\n\n" and `t` right after `head`. */
  lemma PageSlice(whole: string, head: string, upTo: string, t: string)
    requires upTo == head + "\n\n" + t && |upTo| <= |whole| && whole[..|upTo|] == upTo
    ensures whole[|head|..|head| + 2 + |t|] == "\n\n" + t
  {
    DropFirst(head, "\n\n", t);
    SliceOfPrefix(whole, upTo, |head|);
  }

  lemma DropFirst(a: string, b: string, c: string)
    ensures (a + b + c)[|a|..] == b + c
  {
    assert a + b + c == a + (b + c);
  }

  lemma SliceOfPrefix(whole: string, a: string, lo: nat)
    requires |a| <= |whole| && whole[..|a|] == a && lo <= |a|
    ensures whole[lo..|a|] == a[lo..]
  {
    assert whole[lo..|a|] == whole[..|a|][lo..];
  }

  /** A corner of a bounding polygon, its coordinates already rendered by `str`. */
  datatype Point = Point(x: string, y: string)

  function PointText(p: Point): string {
    "[" + p.x + ", " + p.y + "]"
  }

  function PointTexts(box: seq<Point>): (r: seq<string>)
    ensures |r| == |box|
  {
    if box == [] then [] else [PointText(box[0])] + PointTexts(box[1..])
  }

  /** `format_bounding_box`: "N/A" for a missing or empty polygon, else "[x, y]" items joined by ", ". */
  function FormatBoundingBox(box: Option<seq<Point>>): (r: string)
    ensures box.None? || box.value == [] ==> r == "N/A"
    ensures box.Some? && |box.value| == 1 ==> r == PointText(box.value[0])
  {
    if box.None? || box.value == [] then "N/A" else Join(", ", PointTexts(box.value))
  }

  lemma {:induction false} JoinConcat(a: seq<string>, b: seq<string>)
    requires a != [] && b != []
    ensures Join(", ", a + b) == Join(", ", a) + ", " + Join(", ", b)
  {
    if |a| == 1 {
      assert (a + b)[1..] == b;
    } else {
      assert (a + b)[1..] == a[1..] + b;
      JoinConcat(a[1..], b);
    }
  }

  lemma {:induction false} PointTextsConcat(a: seq<Point>, b: seq<Point>)
    ensures PointTexts(a + b) == PointTexts(a) + PointTexts(b)
  {
    if a != [] {
      assert (a + b)[1..] == a[1..] + b;
      PointTextsConcat(a[1..], b);
    } else {
      assert a + b == b;
    }
  }

  /** Formatting a polygon made of two parts joins the two parts' renderings with ", ". */
  lemma FormatSplits(a: seq<Point>, b: seq<Point>)
    requires a != [] && b != []
    ensures FormatBoundingBox(Some(a + b)) == FormatBoundingBox(Some(a)) + ", " + FormatBoundingBox(Some(b))
  {
    PointTextsConcat(a, b);
    JoinConcat(PointTexts(a), PointTexts(b));
  }
}
