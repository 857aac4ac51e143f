/**
 * The query API: the bounded local-search result cache, the API-key check,
 * and the result shaping of the local, global and drift search endpoints.
 */
module AppApi {

  import opened Wrappers
  import Blob
  import FindSources

  /** The request body. */
  datatype Item = Item(query: string, projectName: string, communityLevel: int,
                       dynamicCommunitySelection: bool, querySource: bool,
                       userCache: bool, contextData: bool)

  /**
   * The engine's context data: its "sources" table (the snippet texts; `None`
   * when the entry is absent, empty when it is empty or `None`) and the other
   * tables, carried along unread.
   */
  datatype SearchContext = SearchContext(sources: Option<seq<string>>, tables: string)

  /** A response body: the success shape, whose optional keys are present or not, or `{"error": ...}`. */
  datatype Response =
    | Answer(message: string, response: string, query: string,
             sources: Option<seq<FindSources.SourceRecord>>, contextData: Option<SearchContext>)
    | Error(error: string)

  /** The arguments the endpoints pass to the search engine (the root directory is that of `project`). */
  datatype EngineCall = EngineCall(project: string, query: string, communityLevel: int,
                                   responseType: Option<string>, dynamicCommunitySelection: Option<bool>)

  type Engine = EngineCall -> Result<(string, SearchContext)>

  const CacheLimit: nat := 20
  const InvalidKey := "Invalid api-key"
  const ResponseType := "Multiple Paragraphs"

  /** `check_api_key`: the error it raises, given the project's `API_KEY` after its `.env` is loaded. */
  function CheckApiKey(apiKeyEnv: Option<string>, apiKey: string): (err: Option<string>)
    ensures err.Some? ==> err.value == InvalidKey
  {
    if apiKeyEnv.Some? && apiKeyEnv.value != "" && apiKeyEnv.value != apiKey then Some(InvalidKey) else None
  }

  /** The key is refused exactly when one is configured (non-empty) and the supplied one differs. */
  lemma CheckApiKeyRefusesIff(apiKeyEnv: Option<string>, apiKey: string)
    ensures CheckApiKey(apiKeyEnv, apiKey).Some? <==>
      exists configured :: apiKeyEnv == Some(configured) && configured != "" && configured != apiKey
  {
    if CheckApiKey(apiKeyEnv, apiKey).Some? {
      assert apiKeyEnv == Some(apiKeyEnv.value);
    }
  }

  /** An unset or empty `API_KEY` accepts every key; the configured key itself is always accepted. */
  lemma CheckApiKeyAccepts(apiKeyEnv: Option<string>, apiKey: string)
    ensures apiKeyEnv == None || apiKeyEnv == Some("") ==> CheckApiKey(apiKeyEnv, apiKey) == None
    ensures CheckApiKey(Some(apiKey), apiKey) == None
  {
  }

  // ---------------------------------------------------------------------
  // The local-search cache: a dict, so its keys keep their insertion order.

  /** The dict's state after `local_search_cache[query] = result` (an existing key keeps its place). */
  function Insert(keys: seq<string>, entries: map<string, Response>, query: string, result: Response)
    : (seq<string>, map<string, Response>)
  {
    (if query in keys then keys else keys + [query], entries[query := result])
  }

  /** The dict's state after `set_local_search_cache` with the flag on: pop the oldest key when full, then insert. */
  function AfterSet(keys: seq<string>, entries: map<string, Response>, query: string, result: Response)
    : (seq<string>, map<string, Response>)
  {
    if |keys| >= CacheLimit && keys != [] then Insert(keys[1..], map k | k in entries && k != keys[0] :: entries[k], query, result)
    else Insert(keys, entries, query, result)
  }

  ghost predicate Distinct(keys: seq<string>) {
    forall i, j :: 0 <= i < j < |keys| ==> keys[i] != keys[j]
  }

  ghost predicate WellFormed(keys: seq<string>, entries: map<string, Response>) {
    Distinct(keys) && (forall k :: k in entries <==> k in keys) && |keys| <= CacheLimit
  }

  /** A set keeps the cache well formed: distinct keys, matching entries, at most 20 of them. */
  lemma AfterSetWellFormed(keys: seq<string>, entries: map<string, Response>, query: string, result: Response)
    requires WellFormed(keys, entries)
    ensures WellFormed(AfterSet(keys, entries, query, result).0, AfterSet(keys, entries, query, result).1)
  {
    if |keys| >= CacheLimit {
      var rest := keys[1..];
      forall k | k in rest ensures k != keys[0] {
        var i :| 0 <= i < |rest| && rest[i] == k;
        assert keys[i + 1] == k;
      }
    }
  }

  /** After a set, the stored query reads back as the stored result. */
  lemma AfterSetStores(keys: seq<string>, entries: map<string, Response>, query: string, result: Response)
    ensures var (keys', entries') := AfterSet(keys, entries, query, result);
      query in keys' && query in entries' && entries'[query] == result
  {
  }

  /**
   * When the cache is full, the first-inserted key is the one evicted: every
   * other key and its result survive, in the same order, and the new query
   * comes last unless it was already present.
   */
  lemma AfterSetEvictsOldest(keys: seq<string>, entries: map<string, Response>, query: string, result: Response)
    requires WellFormed(keys, entries) && |keys| == CacheLimit
    ensures var (keys', entries') := AfterSet(keys, entries, query, result);
      (query != keys[0] ==> keys[0] !in entries')
      && (forall k :: k in keys[1..] && k != query ==> k in entries' && entries'[k] == entries[k])
      && keys' == if query in keys[1..] then keys[1..] else keys[1..] + [query]
  {
  }

  /** Below the limit nothing is evicted: every key keeps its result and its place. */
  lemma AfterSetBelowLimitKeeps(keys: seq<string>, entries: map<string, Response>, query: string, result: Response)
    requires |keys| < CacheLimit
    ensures var (keys', entries') := AfterSet(keys, entries, query, result);
      keys'[..|keys|] == keys && (forall k :: k in entries && k != query ==> k in entries' && entries'[k] == entries[k])
  {
  }

  class LocalSearchCache {
    /** The dict's keys in insertion order, and its entries. */
    var keys: seq<string>
    var entries: map<string, Response>

    ghost predicate Valid()
      reads this
    {
      WellFormed(keys, entries)
    }

    constructor ()
      ensures Valid() && keys == [] && entries == map[]
    {
      keys := [];
      entries := map[];
    }

    /** `get_local_search_cache`: only with the flag on, and only for the verbatim query. */
    function Get(item: Item): (r: Option<Response>)
      reads this
      ensures !item.userCache ==> r == None
      ensures item.userCache ==> (r.Some? <==> item.query in entries)
      ensures r.Some? ==> item.query in entries && r.value == entries[item.query]
    {
      if !item.userCache then None
      else if item.query in entries then Some(entries[item.query])
      else None
    }

    /** `set_local_search_cache`: nothing happens with the flag off. */
    method Set(item: Item, result: Response)
      requires Valid()
      modifies this
      ensures Valid()
      ensures !item.userCache ==> keys == old(keys) && entries == old(entries)
      ensures item.userCache ==> (keys, entries) == AfterSet(old(keys), old(entries), item.query, result)
    {
      if !item.userCache {
        return;
      }
      AfterSetWellFormed(keys, entries, item.query, result);
      if |keys| >= CacheLimit {
        var oldest := keys[0];
        entries := map k | k in entries && k != oldest :: entries[k];
        keys := keys[1..];
      }
      if item.query !in keys {
        keys := keys + [item.query];
      }
      entries := entries[item.query := result];
    }

    /**
     * The `/api/local_search` endpoint: a refused key or an engine failure
     * becomes `{"error": ...}`; a cached result is returned as it is;
     * otherwise the result is built, cached (when the flag is on) and returned.
     */
    method LocalSearch(item: Item, apiKeyEnv: Option<string>, apiKey: string, engine: Engine,
                       cacheDir: Option<seq<FindSources.CacheFile>>, sas: Blob.SasContext)
      returns (r: Response)
      requires Valid()
      modifies this
      ensures Valid()
      ensures r == LocalSearchResponse(item, apiKeyEnv, apiKey, engine, cacheDir, sas, old(Get(item)))
      ensures if r.Answer? && old(Get(item)).None?
              then (keys, entries) == (if item.userCache then AfterSet(old(keys), old(entries), item.query, r) else (old(keys), old(entries)))
              else keys == old(keys) && entries == old(entries)
    {
      var err := CheckApiKey(apiKeyEnv, apiKey);
      if err.Some? {
        return Error(err.value);
      }
      var cached := Get(item);
      if cached.Some? {
        return cached.value;
      }
      var call := EngineCall(item.projectName, item.query, item.communityLevel, Some(ResponseType), None);
      var outcome := engine(call);
      if outcome.Failure? {
        return Error(outcome.error);
      }
      var (response, context) := outcome.value;
      var sources: Option<seq<FindSources.SourceRecord>> := None;
      if item.querySource {
        var found := FindSources.GetQuerySources(cacheDir, context.sources, sas.(projectName := item.projectName));
        if found.Failure? {
          return Error(found.error);
        }
        sources := Some(found.value);
      }
      var contextData := if item.contextData then Some(context) else None;
      r := Answer("ok", response, item.query, sources, contextData);
      Set(item, r);
    }
  }

  /** What `/api/local_search` answers, given what the cache held for the request. */
  function LocalSearchResponse(item: Item, apiKeyEnv: Option<string>, apiKey: string, engine: Engine,
                               cacheDir: Option<seq<FindSources.CacheFile>>, sas: Blob.SasContext,
                               cached: Option<Response>): Response
  {
    if CheckApiKey(apiKeyEnv, apiKey).Some? then Error(InvalidKey)
    else if cached.Some? then cached.value
    else match engine(EngineCall(item.projectName, item.query, item.communityLevel, Some(ResponseType), None))
      case Failure(e) => Error(e)
      case Success((response, context)) =>
        var found := if item.querySource
          then FindSources.QuerySources(cacheDir, context.sources, sas.(projectName := item.projectName))
          else Success([]);
        if found.Failure? then Error(found.error)
        else Answer("ok", response, item.query,
                    if item.querySource then Some(found.value) else None,
                    if item.contextData then Some(context) else None)
  }

  /** A shared shape check: the fixed keys, and each optional key present exactly when its flag asks. */
  predicate Shaped(r: Response, item: Item, withSources: bool) {
    r.Answer? ==>
      r.message == "ok" && r.query == item.query
      && (r.sources.Some? <==> withSources && item.querySource)
      && (r.contextData.Some? <==> item.contextData)
  }

  /**
   * With an accepted key, what an endpoint answers for the engine's outcome:
   * its error, or "ok" with the engine's response and, when asked, its context.
   */
  predicate EngineAnswer(r: Response, item: Item, outcome: Result<(string, SearchContext)>) {
    match outcome
    case Failure(e) => r == Error(e)
    case Success((response, context)) =>
      r.Answer? && r.message == "ok" && r.response == response && r.query == item.query
      && r.contextData == (if item.contextData then Some(context) else None)
  }

  /** A refused key is reported before the cache is consulted. */
  lemma LocalSearchRefusesBadKey(item: Item, apiKeyEnv: Option<string>, apiKey: string, engine: Engine,
                                 cacheDir: Option<seq<FindSources.CacheFile>>, sas: Blob.SasContext,
                                 cached: Option<Response>)
    requires CheckApiKey(apiKeyEnv, apiKey).Some?
    ensures LocalSearchResponse(item, apiKeyEnv, apiKey, engine, cacheDir, sas, cached) == Error(InvalidKey)
  {
  }

  /** A freshly built local answer has "ok", the query, sources only when asked, context only when asked. */
  lemma LocalSearchShape(item: Item, apiKeyEnv: Option<string>, apiKey: string, engine: Engine,
                         cacheDir: Option<seq<FindSources.CacheFile>>, sas: Blob.SasContext)
    ensures Shaped(LocalSearchResponse(item, apiKeyEnv, apiKey, engine, cacheDir, sas, None), item, true)
    ensures engine(EngineCall(item.projectName, item.query, item.communityLevel, Some(ResponseType), None)).Failure?
            && CheckApiKey(apiKeyEnv, apiKey).None?
            ==> LocalSearchResponse(item, apiKeyEnv, apiKey, engine, cacheDir, sas, None).Error?
    ensures var outcome := engine(EngineCall(item.projectName, item.query, item.communityLevel, Some(ResponseType), None));
      var r := LocalSearchResponse(item, apiKeyEnv, apiKey, engine, cacheDir, sas, None);
      CheckApiKey(apiKeyEnv, apiKey).None? && outcome.Success? ==>
        var found := FindSources.QuerySources(cacheDir, outcome.value.1.sources, sas.(projectName := item.projectName));
        if item.querySource && found.Failure? then r == Error(found.error)
        else EngineAnswer(r, item, outcome) && (item.querySource ==> r.sources == Some(found.value))
  {
  }

  /** A cached result is served whatever flags the later request carries. */
  lemma CachedResultIgnoresFlags(item: Item, other: Item, apiKeyEnv: Option<string>, apiKey: string, engine: Engine,
                                 cacheDir: Option<seq<FindSources.CacheFile>>, sas: Blob.SasContext, stored: Response)
    requires CheckApiKey(apiKeyEnv, apiKey).None?
    ensures LocalSearchResponse(other, apiKeyEnv, apiKey, engine, cacheDir, sas, Some(stored)) == stored
  {
  }

  /** The `/api/global_search` endpoint. */
  function GlobalSearch(item: Item, apiKeyEnv: Option<string>, apiKey: string, engine: Engine): (r: Response)
    ensures Shaped(r, item, false)
    ensures CheckApiKey(apiKeyEnv, apiKey).Some? ==> r == Error(InvalidKey)
    ensures CheckApiKey(apiKeyEnv, apiKey).None? ==>
      EngineAnswer(r, item, engine(EngineCall(item.projectName, item.query, item.communityLevel, Some(ResponseType),
                                              Some(item.dynamicCommunitySelection))))
  {
    if CheckApiKey(apiKeyEnv, apiKey).Some? then Error(InvalidKey)
    else match engine(EngineCall(item.projectName, item.query, item.communityLevel, Some(ResponseType),
                                 Some(item.dynamicCommunitySelection)))
      case Failure(e) => Error(e)
      case Success((response, context)) =>
        Answer("ok", response, item.query, None, if item.contextData then Some(context) else None)
  }

  /** The `/api/drift_search` endpoint (no response type is passed to the engine). */
  function DriftSearch(item: Item, apiKeyEnv: Option<string>, apiKey: string, engine: Engine): (r: Response)
    ensures Shaped(r, item, false)
    ensures CheckApiKey(apiKeyEnv, apiKey).Some? ==> r == Error(InvalidKey)
    ensures CheckApiKey(apiKeyEnv, apiKey).None? ==>
      EngineAnswer(r, item, engine(EngineCall(item.projectName, item.query, item.communityLevel, None, None)))
  {
    if CheckApiKey(apiKeyEnv, apiKey).Some? then Error(InvalidKey)
    else match engine(EngineCall(item.projectName, item.query, item.communityLevel, None, None))
      case Failure(e) => Error(e)
      case Success((response, context)) =>
        Answer("ok", response, item.query, None, if item.contextData then Some(context) else None)
  }

  /** An engine failure surfaces as `{"error": str(e)}` from either endpoint. */
  lemma EngineFailureIsReported(item: Item, apiKeyEnv: Option<string>, apiKey: string, engine: Engine)
    requires CheckApiKey(apiKeyEnv, apiKey).None?
    ensures engine(EngineCall(item.projectName, item.query, item.communityLevel, Some(ResponseType),
                              Some(item.dynamicCommunitySelection))).Failure? ==>
      GlobalSearch(item, apiKeyEnv, apiKey, engine)
        == Error(engine(EngineCall(item.projectName, item.query, item.communityLevel, Some(ResponseType),
                                   Some(item.dynamicCommunitySelection))).error)
    ensures engine(EngineCall(item.projectName, item.query, item.communityLevel, None, None)).Failure? ==>
      DriftSearch(item, apiKeyEnv, apiKey, engine)
        == Error(engine(EngineCall(item.projectName, item.query, item.communityLevel, None, None)).error)
  {
  }
}
