/**
 * The plugin's server-side state: the site options it reads, the transient store it caches
 * into (searches, pet details and breed lists, each under its own key prefix), the error log
 * and the requests sent upstream. `SearchStep`, `DetailStep` and `BreedsStep` say what one
 * call of `paf_search_pets`, `paf_get_pet_by_id` and `paf_get_breeds_list` does to that state;
 * the methods of `Site` carry them out step by step.
 */
module Site {
  import opened Wrappers
  import opened Php
  import opened Sorting
  import opened JsonApi
  import opened ApiClient

  /** The site options the pipeline reads, as stored (`paf_api_key`, `paf_cache_duration` in minutes, `paf_results_per_page`, and the error-log switch). */
  datatype Config = Config(apiKey: string, cacheMinutes: int, resultsPerPage: int, loggingEnabled: bool)

  /** The HTTP layer's answer to each request: list documents (search, breeds) and item documents (detail). */
  datatype Network = Network(list: Request -> HttpOutcome<ListDoc>, item: Request -> HttpOutcome<ItemDoc>)

  /** The search transient's key: what `md5(serialize(...))` is taken of. */
  datatype SearchKey = SearchKey(petType: string, filters: Pairs, page: int, limit: int)

  /** A transient: the stored value and the lifetime it was stored with, in seconds. */
  datatype Entry<T> = Entry(value: T, ttl: nat)

  /** `paf_get_pet_by_id`'s three outcomes: the document, `null` (not found), or an error. */
  datatype PetLookup = Found(doc: ItemDoc) | NotFound | Failed(error: WpError)

  /** What one call does: its result, the new cache, the log entries written and the requests sent. */
  datatype Outcome<R, C> = Outcome(result: R, cache: C, logged: seq<LogEntry>, sent: seq<Request>)

  const MinuteInSeconds := 60
  const DetailTtl := 5 * MinuteInSeconds
  const BreedsTtl := 24 * 60 * MinuteInSeconds

  const InvalidType := WpError("invalid_type", "Pet type must be dogs or cats")

  predicate ValidPetType(petType: string) {
    petType == "dogs" || petType == "cats"
  }

  /** `paf_log_api_error` writes nothing while logging is switched off. */
  function LogIf(enabled: bool, entry: Option<LogEntry>): (logged: seq<LogEntry>)
    ensures |logged| <= 1
    ensures logged != [] <==> enabled && entry.Some?
    ensures logged != [] ==> logged[0] == entry.value
  {
    if enabled && entry.Some? then [entry.value] else []
  }

  /** A request leaves the site only when a key is configured. */
  function SentIf(cfg: Config, req: Request): seq<Request> {
    if Configured(cfg.apiKey) then [req] else []
  }

  /** The search cache lifetime: `absint(paf_cache_duration) * MINUTE_IN_SECONDS`. */
  function CacheSeconds(cfg: Config): nat {
    Absint(cfg.cacheMinutes) * MinuteInSeconds
  }

  function SearchKeyFor(cfg: Config, petType: string, filters: Pairs, page: int, limit: Option<int>): SearchKey {
    SearchKey(petType, filters, page, limit.GetOr(Absint(cfg.resultsPerPage)))
  }

  function SearchRequestFor(cfg: Config, sanitize: string -> string, petType: string, filters: Pairs, page: int,
                            limit: Option<int>): Request {
    SearchRequest(cfg.apiKey, petType, filters, page, limit.GetOr(Absint(cfg.resultsPerPage)), sanitize)
  }

  /** The search cache holds results for dogs or cats only, each stored for the configured lifetime, which is positive. */
  predicate SearchCacheOk(cfg: Config, cache: map<SearchKey, Entry<ListDoc>>) {
    forall k :: k in cache ==> ValidPetType(k.petType) && cache[k].ttl == CacheSeconds(cfg) > 0
  }

  /** `paf_search_pets`. */
  function SearchStep(cfg: Config, sanitize: string -> string, net: Network, cache: map<SearchKey, Entry<ListDoc>>,
                      petType: string, filters: Pairs, page: int, limit: Option<int>)
    : (o: Outcome<ApiResult<ListDoc>, map<SearchKey, Entry<ListDoc>>>)
    ensures SearchCacheOk(cfg, cache) ==> SearchCacheOk(cfg, o.cache)
  {
    if !ValidPetType(petType) then Outcome(Err(InvalidType), cache, [], [])
    else
      var key := SearchKeyFor(cfg, petType, filters, page, limit);
      var duration := CacheSeconds(cfg);
      if key in cache && duration > 0 then Outcome(Ok(cache[key].value), cache, [], [])
      else
        var req := SearchRequestFor(cfg, sanitize, petType, filters, page, limit);
        var p := Call(cfg.apiKey, req, net.list);
        var stored := if p.result.Ok? && duration > 0 then cache[key := Entry(p.result.doc, duration)] else cache;
        Outcome(p.result, stored, LogIf(cfg.loggingEnabled, p.entry), SentIf(cfg, req))
  }

  /** What one search does to the cache, and what it sends. */
  lemma SearchStepContract(cfg: Config, sanitize: string -> string, net: Network, cache: map<SearchKey, Entry<ListDoc>>,
                           petType: string, filters: Pairs, page: int, limit: Option<int>)
    ensures var o := SearchStep(cfg, sanitize, net, cache, petType, filters, page, limit);
      var key := SearchKeyFor(cfg, petType, filters, page, limit);
      var req := SearchRequestFor(cfg, sanitize, petType, filters, page, limit);
      // A bad pet type is rejected before the cache or the API is touched.
      && (!ValidPetType(petType) ==> o == Outcome(Err(InvalidType), cache, [], []))
      // The cache answers only while the configured lifetime is positive.
      && (ValidPetType(petType) && key in cache && CacheSeconds(cfg) > 0 ==>
            o == Outcome(Ok(cache[key].value), cache, [], []))
      // Otherwise the API is asked, once when a key is configured, and its answer is the result.
      && (ValidPetType(petType) && !(key in cache && CacheSeconds(cfg) > 0) ==>
            var p := Call(cfg.apiKey, req, net.list);
            && o.result == p.result && o.sent == SentIf(cfg, req)
            && o.logged == LogIf(cfg.loggingEnabled, p.entry))
      && (o.sent != [] ==> o.sent == [req])
      // Only successes are stored, under the call's key, for the configured lifetime.
      && (o.result.Err? ==> o.cache == cache)
      // A success fetched while the lifetime is positive is stored.
      && (ValidPetType(petType) && key !in cache && CacheSeconds(cfg) > 0 && o.result.Ok? ==>
            o.cache == cache[key := Entry(o.result.doc, CacheSeconds(cfg))])
      && (o.cache != cache ==>
            CacheSeconds(cfg) > 0 && o.result.Ok? && o.cache == cache[key := Entry(o.result.doc, CacheSeconds(cfg))])
      && o.cache.Keys >= cache.Keys
  {
  }

  /** The search request is a POST exactly when some filter is set, and sorts by distance exactly when a location is. */
  lemma SearchRequestShape(cfg: Config, sanitize: string -> string, net: Network, cache: map<SearchKey, Entry<ListDoc>>,
                           petType: string, filters: Pairs, page: int, limit: Option<int>)
    ensures var o := SearchStep(cfg, sanitize, net, cache, petType, filters, page, limit);
      o.sent != [] ==>
        && (o.sent[0].verb == HttpPost <==> HasFilters(filters))
        && (("sort", PStr("distance")) in o.sent[0].params <==> !EmptyString(Get(filters, "location")))
        && o.sent[0].endpoint == SearchEndpoint(petType)
  {
  }

  /** `paf_get_pet_by_id`'s handling of the API's answer: a not-found error becomes `null`. */
  function LookupOf(r: ApiResult<ItemDoc>): (l: PetLookup)
    ensures l.NotFound? <==> r.Err? && r.error.code == ApiNotFound
    ensures l.Found? <==> r.Ok?
    ensures l.Found? ==> l.doc == r.doc
    ensures l.Failed? ==> l.error == r.error
  {
    match r
    case Ok(doc) => Found(doc)
    case Err(e) => if e.code == ApiNotFound then NotFound else Failed(e)
  }

  const DetailPrefix := "paf_pet_detail_"

  /** Pet details are stored for five minutes. */
  predicate DetailCacheOk(cache: map<string, Entry<ItemDoc>>) {
    forall id :: id in cache ==> cache[id].ttl == DetailTtl
  }

  /** `paf_get_pet_by_id`; the detail cache is keyed by the sanitised id. */
  function DetailStep(cfg: Config, sanitize: string -> string, net: Network, cache: map<string, Entry<ItemDoc>>,
                      petId: string, force: bool)
    : (o: Outcome<PetLookup, map<string, Entry<ItemDoc>>>)
    // A forced refresh neither reads nor writes the cache.
    ensures force ==> o.cache == cache
    ensures force ==>
      var req := DetailRequest(cfg.apiKey, sanitize(petId));
      o.result == LookupOf(Call(cfg.apiKey, req, net.item).result) && o.sent == SentIf(cfg, req)
    ensures !force && sanitize(petId) in cache ==> o == Outcome(Found(cache[sanitize(petId)].value), cache, [], [])
    // An unforced miss asks the API and stores a pet it finds for five minutes.
    ensures !force && sanitize(petId) !in cache ==>
      var req := DetailRequest(cfg.apiKey, sanitize(petId));
      var p := Call(cfg.apiKey, req, net.item);
      && o.result == LookupOf(p.result) && o.sent == SentIf(cfg, req)
      && o.cache == (if p.result.Ok? then cache[sanitize(petId) := Entry(p.result.doc, DetailTtl)] else cache)
    // Only found pets are stored, for five minutes.
    ensures o.cache != cache ==>
      && !force && o.result.Found?
      && o.cache == cache[sanitize(petId) := Entry(o.result.doc, DetailTtl)]
    ensures o.cache.Keys >= cache.Keys
    ensures DetailCacheOk(cache) ==> DetailCacheOk(o.cache)
  {
    var id := sanitize(petId);
    if !force && id in cache then Outcome(Found(cache[id].value), cache, [], [])
    else
      var req := DetailRequest(cfg.apiKey, id);
      var p := Call(cfg.apiKey, req, net.item);
      var stored := if !force && p.result.Ok? then cache[id := Entry(p.result.doc, DetailTtl)] else cache;
      Outcome(LookupOf(p.result), stored, LogIf(cfg.loggingEnabled, p.entry), SentIf(cfg, req))
  }

  /**
   * A pet the API reports missing comes back as `null`, and the 404 has still been written to
   * the error log under API_NOT_FOUND when logging is on.
   */
  lemma NotFoundIsLoggedThenNull(cfg: Config, sanitize: string -> string, net: Network,
                                 cache: map<string, Entry<ItemDoc>>, petId: string, force: bool)
    requires Configured(cfg.apiKey) && cfg.loggingEnabled
    requires force || sanitize(petId) !in cache
    requires var out := net.item(DetailRequest(cfg.apiKey, sanitize(petId))); out.Reply? && out.status == 404
    ensures var o := DetailStep(cfg, sanitize, net, cache, petId, force);
      o.result == NotFound && |o.logged| == 1 && o.logged[0].category == ApiNotFound && o.cache == cache
  {
  }

  /** A breed list as the cache holds it: sorted, and no name empty. */
  predicate BreedListOk(names: seq<string>) {
    SortedBy(names, LexLeq) && forall k :: 0 <= k < |names| ==> !EmptyString(names[k])
  }

  /** The breed list `paf_get_breeds_list` builds from a successful answer: the non-empty names, sorted. */
  function BreedsOf(doc: ListDoc): (names: seq<string>)
    ensures multiset(names) == multiset(NamesOf(doc.data.GetOr([])))
    ensures BreedListOk(names)
  {
    LexLeqIsTotalPreorder();
    var all := NamesOf(doc.data.GetOr([]));
    var names := SortBy(all, LexLeq);
    assert forall k :: 0 <= k < |names| ==> !EmptyString(names[k]) by {
      forall k | 0 <= k < |names|
        ensures !EmptyString(names[k])
      {
        assert names[k] in multiset(all);
        var i :| 0 <= i < |all| && all[i] == names[k];
      }
    }
    names
  }

  /** Breed lists are stored sorted, without empty names, for a day. */
  predicate BreedsCacheOk(cache: map<string, Entry<seq<string>>>) {
    forall t :: t in cache ==> BreedListOk(cache[t].value) && cache[t].ttl == BreedsTtl
  }

  /** `paf_get_breeds_list`; no check of the pet type here. */
  function BreedsStep(cfg: Config, net: Network, cache: map<string, Entry<seq<string>>>, petType: string)
    : (o: Outcome<ApiResult<seq<string>>, map<string, Entry<seq<string>>>>)
    ensures petType in cache ==> o == Outcome(Ok(cache[petType].value), cache, [], [])
    // A miss asks the API, once when a key is configured, and logs its failure.
    ensures petType !in cache ==>
      var req := BreedsRequest(cfg.apiKey, petType);
      var p := Call(cfg.apiKey, req, net.list);
      o.sent == SentIf(cfg, req) && o.logged == LogIf(cfg.loggingEnabled, p.entry)
    // Errors are passed on and not stored.
    ensures o.result.Err? ==>
      var out := Call(cfg.apiKey, BreedsRequest(cfg.apiKey, petType), net.list).result;
      o.cache == cache && out.Err? && o.result.error == out.error
    // A fresh list is the answer's non-empty names, sorted, and is stored for a day.
    ensures petType !in cache && o.result.Ok? ==>
      var out := Call(cfg.apiKey, BreedsRequest(cfg.apiKey, petType), net.list).result;
      && out.Ok? && o.result.doc == BreedsOf(out.doc)
      && o.cache == cache[petType := Entry(o.result.doc, BreedsTtl)]
    ensures o.result.Ok? ==> BreedListOk(o.result.doc) || petType in cache
    ensures o.cache.Keys >= cache.Keys
    ensures BreedsCacheOk(cache) ==> BreedsCacheOk(o.cache)
  {
    if petType in cache then Outcome(Ok(cache[petType].value), cache, [], [])
    else
      var req := BreedsRequest(cfg.apiKey, petType);
      var p := Call(cfg.apiKey, req, net.list);
      var logged := LogIf(cfg.loggingEnabled, p.entry);
      match p.result
      case Err(e) => Outcome(Err(e), cache, logged, SentIf(cfg, req))
      case Ok(doc) =>
        var names := BreedsOf(doc);
        Outcome(Ok(names), cache[petType := Entry(names, BreedsTtl)], logged, SentIf(cfg, req))
  }

  /** The site: its options, the transient store, the error log and the requests sent upstream. */
  class Site {
    const config: Config
    const wp: Wp
    const network: Network
    var searchCache: map<SearchKey, Entry<ListDoc>>
    var detailCache: map<string, Entry<ItemDoc>>
    var breedsCache: map<string, Entry<seq<string>>>
    ghost var log: seq<LogEntry>
    ghost var sent: seq<Request>

    /** What the store always satisfies: search entries are for dogs or cats with the configured lifetime, details live five minutes, breed lists are sorted and live a day. */
    ghost predicate Valid()
      reads this
    {
      SearchCacheOk(config, searchCache) && DetailCacheOk(detailCache) && BreedsCacheOk(breedsCache)
    }

    constructor (config: Config, wp: Wp, network: Network)
      ensures this.config == config && this.wp == wp && this.network == network
      ensures searchCache == map[] && detailCache == map[] && breedsCache == map[]
      ensures log == [] && sent == []
      ensures Valid()
    {
      this.config := config;
      this.wp := wp;
      this.network := network;
      searchCache := map[];
      detailCache := map[];
      breedsCache := map[];
      log := [];
      sent := [];
    }

    /** `paf_api_get` / `paf_api_post`: the key guard, the request, and the processing of its answer. */
    method Send<T>(req: Request, server: Request -> HttpOutcome<T>) returns (r: ApiResult<T>)
      modifies this`log, this`sent
      ensures var p := Call(config.apiKey, req, server);
        && r == p.result
        && log == old(log) + LogIf(config.loggingEnabled, p.entry)
        && sent == old(sent) + SentIf(config, req)
    {
      if !Configured(config.apiKey) {
        log := log + LogIf(config.loggingEnabled, Some(LogEntry(ApiAuth, "API key not configured", req.endpoint, None, None, None)));
        return Err(NoApiKey);
      }
      sent := sent + [req];
      var p := Process(server(req), req);
      log := log + LogIf(config.loggingEnabled, p.entry);
      r := p.result;
    }

    method SearchPets(petType: string, filters: Pairs, page: int, limit: Option<int>) returns (r: ApiResult<ListDoc>)
      requires Valid()
      modifies this`searchCache, this`log, this`sent
      ensures Valid()
      ensures var o := SearchStep(config, wp.sanitizeTextField, network, old(searchCache), petType, filters, page, limit);
        && r == o.result && searchCache == o.cache
        && log == old(log) + o.logged && sent == old(sent) + o.sent
    {
      if !ValidPetType(petType) {
        return Err(InvalidType);
      }
      var lim := if limit.Some? then limit.value else Absint(config.resultsPerPage);
      var key := SearchKey(petType, filters, page, lim);
      var duration := Absint(config.cacheMinutes) * MinuteInSeconds;
      if key in searchCache && duration > 0 {
        return Ok(searchCache[key].value);
      }
      r := FetchSearch(key, duration);
    }

    /** The cache-miss half of `paf_search_pets`: send the request, and store a success while the lifetime is positive. */
    method FetchSearch(key: SearchKey, duration: nat) returns (r: ApiResult<ListDoc>)
      modifies this`searchCache, this`log, this`sent
      ensures var req := SearchRequest(config.apiKey, key.petType, key.filters, key.page, key.limit, wp.sanitizeTextField);
        var p := Call(config.apiKey, req, network.list);
        && r == p.result
        && searchCache == (if p.result.Ok? && duration > 0 then old(searchCache)[key := Entry(p.result.doc, duration)] else old(searchCache))
        && log == old(log) + LogIf(config.loggingEnabled, p.entry)
        && sent == old(sent) + SentIf(config, req)
    {
      var req := BuildSearchRequest(key.petType, key.filters, key.page, key.limit);
      r := Send(req, network.list);
      if r.Ok? && duration > 0 {
        searchCache := searchCache[key := Entry(r.doc, duration)];
      }
    }

    /** The request `paf_search_pets` sends: a POST with the filter body when some filter is set, a GET otherwise. */
    method BuildSearchRequest(petType: string, filters: Pairs, page: int, limit: int) returns (req: Request)
      ensures req == SearchRequest(config.apiKey, petType, filters, page, limit, wp.sanitizeTextField)
    {
      var endpoint := SearchEndpoint(petType);
      var params := SearchParams(filters, page, limit);
      if HasFilters(filters) {
        var body := BuildFilterBody(filters, wp.sanitizeTextField);
        req := MakeRequest(config.apiKey, HttpPost, endpoint, params, body);
      } else {
        req := MakeRequest(config.apiKey, HttpGet, endpoint, params, []);
      }
    }

    method GetPetById(petId: string, force: bool) returns (r: PetLookup)
      requires Valid()
      modifies this`detailCache, this`log, this`sent
      ensures Valid()
      ensures var o := DetailStep(config, wp.sanitizeTextField, network, old(detailCache), petId, force);
        && r == o.result && detailCache == o.cache
        && log == old(log) + o.logged && sent == old(sent) + o.sent
    {
      var id := wp.sanitizeTextField(petId);
      if !force && id in detailCache {
        return Found(detailCache[id].value);
      }
      var response := Send(DetailRequest(config.apiKey, id), network.item);
      if response.Err? && response.error.code == ApiNotFound {
        return NotFound;
      }
      if !force && response.Ok? {
        detailCache := detailCache[id := Entry(response.doc, DetailTtl)];
      }
      r := if response.Ok? then Found(response.doc) else Failed(response.error);
    }

    method GetBreedsList(petType: string) returns (r: ApiResult<seq<string>>)
      requires Valid()
      modifies this`breedsCache, this`log, this`sent
      ensures Valid()
      ensures var o := BreedsStep(config, network, old(breedsCache), petType);
        && r == o.result && breedsCache == o.cache
        && log == old(log) + o.logged && sent == old(sent) + o.sent
    {
      if petType in breedsCache {
        return Ok(breedsCache[petType].value);
      }
      var response := Send(BreedsRequest(config.apiKey, petType), network.list);
      if response.Err? {
        return Err(response.error);
      }
      var names := CollectNames(response.doc.data.GetOr([]));
      LexLeqIsTotalPreorder();
      var sorted := SortBy(names, LexLeq);
      assert sorted == BreedsOf(response.doc);
      breedsCache := breedsCache[petType := Entry(sorted, BreedsTtl)];
      r := Ok(sorted);
    }
  }
}
