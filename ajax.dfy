/**
 * The two AJAX endpoints of the pet search: `paf_filter_pets` (whitelist the posted filters,
 * search one species or both, merge, and answer with the page of pets and the paging flags)
 * and `paf_load_breeds` (the breed list for the filter box).
 */
module Ajax {
  import opened Wrappers
  import opened Php
  import opened Sorting
  import opened JsonApi
  import opened ApiClient
  import opened Site

  // ---------------------------------------------------------------------------------------
  // The filter whitelist

  /** The filter keys the handler copies, in the order it copies them. */
  const WhitelistOrder: seq<string> := ["location", "distance", "breed", "age", "sex", "size"]

  predicate DistinctStrings(keys: seq<string>) {
    forall i, j :: 0 <= i < j < |keys| ==> keys[i] != keys[j]
  }

  /** The sanitised entry for `key` when its raw value is not `empty()`, and nothing otherwise. */
  function KeptEntry(key: string, raw: Pairs, sanitize: string -> string): Pairs {
    if !EmptyString(Get(raw, key)) then [(key, sanitize(Get(raw, key)))] else []
  }

  /** The whitelisted, sanitised filter set built from `raw` for the given keys, in key order. */
  function Kept(keys: seq<string>, raw: Pairs, sanitize: string -> string): Pairs {
    if keys == [] then []
    else Kept(keys[..|keys| - 1], raw, sanitize) + KeptEntry(keys[|keys| - 1], raw, sanitize)
  }

  /** Appending an entry adds exactly its key. */
  lemma HasKeySnoc(a: Pairs, k: string, v: string, j: string)
    ensures HasKey(a + [(k, v)], j) <==> HasKey(a, j) || j == k
  {
    var b := a + [(k, v)];
    if HasKey(a, j) {
      var i :| 0 <= i < |a| && a[i].0 == j;
      assert b[i].0 == j;
    }
    if j == k {
      assert b[|a|].0 == j;
    }
    if HasKey(b, j) {
      var i :| 0 <= i < |b| && b[i].0 == j;
      if i < |a| {
        assert a[i].0 == j;
      }
    }
  }

  /** Reading an array after appending one entry. */
  lemma {:induction false} GetSnoc(a: Pairs, k: string, v: string, j: string)
    ensures Get(a + [(k, v)], j) == if HasKey(a, j) then Get(a, j) else if j == k then v else ""
  {
    if a != [] {
      assert (a + [(k, v)])[1..] == a[1..] + [(k, v)];
      GetSnoc(a[1..], k, v, j);
      if a[0].0 != j {
        HasKeySnoc(a[1..], k, v, j);
        if HasKey(a, j) {
          var i :| 0 <= i < |a| && a[i].0 == j;
          assert a[1..][i - 1].0 == j;
        }
        if HasKey(a[1..], j) {
          var i :| 0 <= i < |a[1..]| && a[1..][i].0 == j;
          assert a[i + 1].0 == j;
        }
      } else {
        assert HasKey(a, j) by { assert a[0].0 == j; }
      }
    }
  }

  /**
   * The whitelisted set has each of the given keys at most once and no other key; a key is
   * present exactly when its raw value is not `empty()`, and then holds the sanitised value.
   */
  lemma {:induction false} KeptShape(keys: seq<string>, raw: Pairs, sanitize: string -> string)
    requires DistinctStrings(keys)
    ensures var kept := Kept(keys, raw, sanitize);
      && DistinctKeys(kept)
      && (forall i :: 0 <= i < |kept| ==> kept[i].0 in keys)
      && (forall k :: k in keys ==> (HasKey(kept, k) <==> !EmptyString(Get(raw, k))))
      && (forall k :: k in keys && !EmptyString(Get(raw, k)) ==> Get(kept, k) == sanitize(Get(raw, k)))
  {
    if keys != [] {
      var init := keys[..|keys| - 1];
      var last := keys[|keys| - 1];
      assert DistinctStrings(init);
      KeptShape(init, raw, sanitize);
      var prev := Kept(init, raw, sanitize);
      var kept := Kept(keys, raw, sanitize);
      forall i | 0 <= i < |init|
        ensures init[i] != last
      {
        assert init[i] == keys[i];
      }
      forall i | 0 <= i < |prev|
        ensures prev[i].0 != last
      {
        assert prev[i].0 in init;
      }
      forall k | k in keys
        ensures HasKey(kept, k) <==> !EmptyString(Get(raw, k))
        ensures !EmptyString(Get(raw, k)) ==> Get(kept, k) == sanitize(Get(raw, k))
      {
        if k != last {
          var i :| 0 <= i < |keys| && keys[i] == k;
          assert k in init by { assert init[i] == k; }
        }
        if !EmptyString(Get(raw, last)) {
          HasKeySnoc(prev, last, sanitize(Get(raw, last)), k);
          GetSnoc(prev, last, sanitize(Get(raw, last)), k);
        } else {
          assert kept == prev;
          if k == last {
            GetFinds(prev, k);
          }
        }
      }
      forall i | 0 <= i < |kept|
        ensures kept[i].0 in keys
      {
        if i < |prev| {
          assert kept[i] == prev[i];
          assert prev[i].0 in init;
        }
      }
      assert DistinctKeys(kept) by {
        forall i, j | 0 <= i < j < |kept|
          ensures kept[i].0 != kept[j].0
        {
          if j == |prev| {
            assert kept[j].0 == last;
            assert kept[i] == prev[i];
          }
        }
      }
    }
  }

  /** One block of the handler's whitelist: copy `key`, sanitised, when its value is not `empty()`. */
  method KeepIfSet(kept: Pairs, key: string, raw: Pairs, sanitize: string -> string) returns (r: Pairs)
    ensures r == kept + KeptEntry(key, raw, sanitize)
  {
    var value := Get(raw, key);
    if !EmptyString(value) {
      r := kept + [(key, sanitize(value))];
    } else {
      r := kept;
    }
  }

  /** The whitelist after the first `n + 1` keys, given the one after the first `n`. */
  lemma WhitelistStep(n: nat, raw: Pairs, sanitize: string -> string)
    requires n < |WhitelistOrder|
    ensures Kept(WhitelistOrder[..n + 1], raw, sanitize)
      == Kept(WhitelistOrder[..n], raw, sanitize) + KeptEntry(WhitelistOrder[n], raw, sanitize)
  {
    assert WhitelistOrder[..n + 1][..n] == WhitelistOrder[..n];
  }

  /** The six whitelist blocks of `paf_handle_filter_pets`, in the source's order. */
  method SanitizeFilters(raw: Pairs, sanitize: string -> string) returns (kept: Pairs)
    ensures kept == Kept(WhitelistOrder, raw, sanitize)
  {
    kept := [];
    assert WhitelistOrder[..0] == [];
    kept := KeepIfSet(kept, "location", raw, sanitize);
    WhitelistStep(0, raw, sanitize);
    kept := KeepIfSet(kept, "distance", raw, sanitize);
    WhitelistStep(1, raw, sanitize);
    kept := KeepIfSet(kept, "breed", raw, sanitize);
    WhitelistStep(2, raw, sanitize);
    kept := KeepIfSet(kept, "age", raw, sanitize);
    WhitelistStep(3, raw, sanitize);
    kept := KeepIfSet(kept, "sex", raw, sanitize);
    WhitelistStep(4, raw, sanitize);
    kept := KeepIfSet(kept, "size", raw, sanitize);
    WhitelistStep(5, raw, sanitize);
    assert WhitelistOrder[..6] == WhitelistOrder;
  }

  /**
   * The handler's filter set is one the search's filter body understands: its keys are filter
   * keys, each once, so the search sends a POST exactly when the body has a clause.
   */
  lemma WhitelistFeedsFilterBody(raw: Pairs, sanitize: string -> string)
    ensures var kept := Kept(WhitelistOrder, raw, sanitize);
      && DistinctKeys(kept)
      && (forall i :: 0 <= i < |kept| ==> kept[i].0 in FilterKeys)
      && (HasFilters(kept) <==> ClausesFor(FilterTable, kept, sanitize) != [])
  {
    var kept := Kept(WhitelistOrder, raw, sanitize);
    KeptShape(WhitelistOrder, raw, sanitize);
    assert forall i :: 0 <= i < |kept| ==> kept[i].0 in FilterKeys by {
      forall i | 0 <= i < |kept|
        ensures kept[i].0 in FilterKeys
      {
        assert kept[i].0 in WhitelistOrder;
      }
    }
    HasFiltersIffClauses(kept, sanitize);
  }

  // ---------------------------------------------------------------------------------------
  // Merging the dogs and cats searches

  /** The distance the merge sorts by: the pet's `distance`, or 9999 when it has none. */
  function DistanceOf(pet: Resource): real {
    if IsSet(pet.attrs, "distance") then ToNumber(pet.attrs["distance"]) else 9999.0
  }

  /** Nearest first: the order the merge means to produce. */
  predicate ByDistance(a: Resource, b: Resource) {
    DistanceOf(a) <= DistanceOf(b)
  }

  lemma ByDistanceIsTotalPreorder()
    ensures TotalPreorder(ByDistance)
  {
  }

  /** The merge's comparator as written: `$dist_a - $dist_b`, which `usort` casts to an integer. */
  function CompareAsWritten(a: Resource, b: Resource): int {
    Trunc(DistanceOf(a) - DistanceOf(b))
  }

  /** The order `usort` derives from that comparator: `a` may precede `b` when the cast difference is not positive. */
  predicate LeqAsWritten(a: Resource, b: Resource) {
    CompareAsWritten(a, b) <= 0
  }

  function PetAt(id: string, distance: real): Resource {
    Resource("animals", id, map["distance" := Float(distance)], map[])
  }

  /**
   * As written, a pet 1.7 miles away and one 1.2 miles away compare as equal, so the sort may
   * keep the farther one first: the comparator accepts that order, distance order does not.
   */
  lemma AsWrittenTiesNearbyPets()
    ensures var far := PetAt("1", 1.7); var near := PetAt("2", 1.2);
      && CompareAsWritten(far, near) == 0 && CompareAsWritten(near, far) == 0
      && SortedBy([far, near], LeqAsWritten) && !SortedBy([far, near], ByDistance)
  {
    var far := PetAt("1", 1.7);
    var near := PetAt("2", 1.2);
    assert DistanceOf(far) == 1.7 && DistanceOf(near) == 1.2;
    assert Trunc(0.5) == 0 && Trunc(-0.5) == 0;
    assert !ByDistance([far, near][0], [far, near][1]);
  }

  /** As written, the comparator is not even transitive, so the order `usort` returns depends on its algorithm. */
  lemma AsWrittenIsNotAnOrder()
    ensures !TotalPreorder(LeqAsWritten)
  {
    var a := PetAt("1", 2.5);
    var b := PetAt("2", 1.6);
    var c := PetAt("3", 0.7);
    assert DistanceOf(a) == 2.5 && DistanceOf(b) == 1.6 && DistanceOf(c) == 0.7;
    assert Trunc(0.9) == 0 && Trunc(1.8) == 1;
    assert LeqAsWritten(a, b) && LeqAsWritten(b, c) && !LeqAsWritten(a, c);
  }

  /** A search contributes to the merge when it succeeded and has `data`. */
  predicate Contributes(r: ApiResult<ListDoc>) {
    r.Ok? && r.doc.data.Some?
  }

  function DataOf(r: ApiResult<ListDoc>): seq<Resource> {
    if Contributes(r) then r.doc.data.value else []
  }

  function IncludedOf(r: ApiResult<ListDoc>): seq<Resource> {
    if Contributes(r) then r.doc.included else []
  }

  function CountOf(r: ApiResult<ListDoc>): int {
    if Contributes(r) then r.doc.meta.count.GetOr(0) else 0
  }

  /** `paf_merge_pet_results`, with the comparator comparing distances themselves. */
  function MergeOf(dogs: ApiResult<ListDoc>, cats: ApiResult<ListDoc>): ListDoc {
    ByDistanceIsTotalPreorder();
    var data := SortBy(DataOf(dogs) + DataOf(cats), ByDistance);
    ListDoc(Some(data), IncludedOf(dogs) + IncludedOf(cats),
      Meta(Some(CountOf(dogs) + CountOf(cats)), Some(|data|), Some(1), Some(1)))
  }

  /**
   * The merged page holds the pets of both searches, reordered and sorted by distance, their
   * side-loaded items in order, the sum of their counts, and says it is page 1 of 1.
   */
  lemma MergeOfContract(dogs: ApiResult<ListDoc>, cats: ApiResult<ListDoc>)
    ensures var m := MergeOf(dogs, cats);
      && m.data.Some?
      && multiset(m.data.value) == multiset(DataOf(dogs) + DataOf(cats))
      && SortedBy(m.data.value, ByDistance)
      && m.included == IncludedOf(dogs) + IncludedOf(cats)
      && m.meta == Meta(Some(CountOf(dogs) + CountOf(cats)), Some(|m.data.value|), Some(1), Some(1))
  {
    ByDistanceIsTotalPreorder();
  }

  /** The merged page starts with a pet at least as near as every pet either search returned. */
  lemma MergeStartsWithNearest(dogs: ApiResult<ListDoc>, cats: ApiResult<ListDoc>)
    requires DataOf(dogs) + DataOf(cats) != []
    ensures var data := MergeOf(dogs, cats).data.value;
      && data != []
      && forall p :: p in DataOf(dogs) + DataOf(cats) ==> DistanceOf(data[0]) <= DistanceOf(p)
  {
    var all := DataOf(dogs) + DataOf(cats);
    var data := MergeOf(dogs, cats).data.value;
    ByDistanceIsTotalPreorder();
    MergeOfContract(dogs, cats);
    assert all[0] in multiset(data);
    SortedHeadIsLeast(data, all, ByDistance);
  }

  /** The merged page holds every pet of both searches and nothing else. */
  lemma MergeKeepsEveryPet(dogs: ApiResult<ListDoc>, cats: ApiResult<ListDoc>, p: Resource)
    ensures p in MergeOf(dogs, cats).data.value <==> p in DataOf(dogs) || p in DataOf(cats)
  {
    var data := MergeOf(dogs, cats).data.value;
    MergeOfContract(dogs, cats);
    assert p in data <==> p in multiset(data);
    assert p in DataOf(dogs) + DataOf(cats) <==> p in multiset(DataOf(dogs) + DataOf(cats));
  }

  /** One block of `paf_merge_pet_results`: add a successful search's pets, side-loads and count. */
  method AddResults(data: seq<Resource>, included: seq<Resource>, count: int, r: ApiResult<ListDoc>)
    returns (data': seq<Resource>, included': seq<Resource>, count': int)
    ensures data' == data + DataOf(r) && included' == included + IncludedOf(r) && count' == count + CountOf(r)
  {
    data', included', count' := data, included, count;
    if r.Ok? && r.doc.data.Some? {
      data' := data' + r.doc.data.value;
      included' := included' + r.doc.included;
      if r.doc.meta.count.Some? {
        count' := count' + r.doc.meta.count.value;
      }
    }
  }

  /** The two blocks of `paf_merge_pet_results` that gather the dogs' and then the cats' results. */
  method GatherResults(dogs: ApiResult<ListDoc>, cats: ApiResult<ListDoc>)
    returns (data: seq<Resource>, included: seq<Resource>, count: int)
    ensures data == DataOf(dogs) + DataOf(cats) && included == IncludedOf(dogs) + IncludedOf(cats)
    ensures count == CountOf(dogs) + CountOf(cats)
  {
    data, included, count := AddResults([], [], 0, dogs);
    data, included, count := AddResults(data, included, count, cats);
  }

  /** `paf_merge_pet_results`. */
  method MergePetResults(dogs: ApiResult<ListDoc>, cats: ApiResult<ListDoc>) returns (merged: ListDoc)
    ensures merged == MergeOf(dogs, cats)
  {
    var data, included, count := GatherResults(dogs, cats);
    data := SortByDistance(data);
    merged := ListDoc(Some(data), included, Meta(Some(count), Some(|data|), Some(1), Some(1)));
  }

  /** The `usort` call of the merge, with the distance comparator. */
  method SortByDistance(pets: seq<Resource>) returns (sorted: seq<Resource>)
    ensures TotalPreorder(ByDistance) && sorted == SortBy(pets, ByDistance)
  {
    ByDistanceIsTotalPreorder();
    sorted := SortBy(pets, ByDistance);
  }

  // ---------------------------------------------------------------------------------------
  // The replies

  /** What an endpoint sends back: `wp_send_json_error` or `wp_send_json_success` with its payload. */
  datatype Reply =
    | JsonError(message: string)
    | JsonPets(pets: seq<Resource>, included: seq<Resource>, hasMore: bool, total: int, page: int)
    | JsonBreeds(breeds: seq<string>)

  const LoadPetsFailure := "Unable to load pets. Please try again later. Error: "

  /** The reply of `paf_handle_filter_pets` to a search response; the grid markup is left out. */
  function Respond(response: ApiResult<ListDoc>, page: nat): Reply {
    match response
    case Err(e) => JsonError(LoadPetsFailure + e.message)
    case Ok(doc) =>
      var m := doc.meta;
      JsonPets(doc.data.GetOr([]), doc.included,
        m.pageReturned.Some? && m.pages.Some? && m.pageReturned.value < m.pages.value,
        m.count.GetOr(0), m.pageReturned.GetOr(page))
  }

  /**
   * A failed search is reported with its message. Otherwise the reply carries the page's pets,
   * the API's total (0 when it gives none) and its page (the requested one when it gives none),
   * and there are more pages exactly when the API reports a current page below its page count.
   */
  lemma RespondPaging(response: ApiResult<ListDoc>, page: nat)
    ensures var reply := Respond(response, page);
      && (response.Err? ==> reply == JsonError(LoadPetsFailure + response.error.message))
      && (response.Ok? ==>
            var m := response.doc.meta;
            && reply.JsonPets?
            && reply.pets == response.doc.data.GetOr([]) && reply.included == response.doc.included
            && (reply.hasMore <==> m.pageReturned.Some? && m.pages.Some? && m.pageReturned.value < m.pages.value)
            && reply.total == m.count.GetOr(0)
            && reply.page == m.pageReturned.GetOr(page))
  {
  }

  const DefaultPetType := "dogs"
  const DefaultPage := 1

  function PostedType(sanitize: string -> string, postType: Option<string>): string {
    if postType.Some? then sanitize(postType.value) else DefaultPetType
  }

  function PostedPage(postPage: Option<int>): nat {
    if postPage.Some? then Absint(postPage.value) else DefaultPage
  }

  /** `paf_handle_filter_pets`: what it replies and what it does to the search cache, the log and the upstream traffic. */
  function FilterPetsStep(cfg: Config, sanitize: string -> string, net: Network, cache: map<SearchKey, Entry<ListDoc>>,
                          postType: Option<string>, postFilters: Option<Pairs>, postPage: Option<int>)
    : (o: Outcome<Reply, map<SearchKey, Entry<ListDoc>>>)
    ensures o.result.JsonPets? || o.result.JsonError?
    ensures SearchCacheOk(cfg, cache) ==> SearchCacheOk(cfg, o.cache)
  {
    var petType := PostedType(sanitize, postType);
    var filters := Kept(WhitelistOrder, postFilters.GetOr([]), sanitize);
    var page := PostedPage(postPage);
    if petType == "either" then
      var dogs := SearchStep(cfg, sanitize, net, cache, "dogs", filters, page, None);
      var cats := SearchStep(cfg, sanitize, net, dogs.cache, "cats", filters, page, None);
      Outcome(Respond(Ok(MergeOf(dogs.result, cats.result)), page), cats.cache,
        dogs.logged + cats.logged, dogs.sent + cats.sent)
    else
      var s := SearchStep(cfg, sanitize, net, cache, petType, filters, page, None);
      Outcome(Respond(s.result, page), s.cache, s.logged, s.sent)
  }

  /**
   * Searching both species never fails and never offers more pages: the merged meta says page 1
   * of 1, whatever the two searches returned.
   */
  lemma EitherNeverFailsNorPages(cfg: Config, sanitize: string -> string, net: Network,
                                 cache: map<SearchKey, Entry<ListDoc>>, postType: Option<string>,
                                 postFilters: Option<Pairs>, postPage: Option<int>)
    requires PostedType(sanitize, postType) == "either"
    ensures var o := FilterPetsStep(cfg, sanitize, net, cache, postType, postFilters, postPage);
      o.result.JsonPets? && !o.result.hasMore && o.result.page == 1
  {
  }

  /** Any other pet type than dogs, cats or either is refused by the search, with nothing sent upstream. */
  lemma UnknownTypeIsRefused(cfg: Config, sanitize: string -> string, net: Network,
                             cache: map<SearchKey, Entry<ListDoc>>, postType: Option<string>,
                             postFilters: Option<Pairs>, postPage: Option<int>)
    requires var t := PostedType(sanitize, postType); t != "either" && !ValidPetType(t)
    ensures var o := FilterPetsStep(cfg, sanitize, net, cache, postType, postFilters, postPage);
      o == Outcome(JsonError(LoadPetsFailure + InvalidType.message), cache, [], [])
  {
  }

  /** A search with the whitelisted filters sends at most one request, a POST exactly when the filter body has a clause. */
  lemma WhitelistedSearchRequest(cfg: Config, sanitize: string -> string, net: Network,
                                 cache: map<SearchKey, Entry<ListDoc>>, petType: string, raw: Pairs, page: int)
    ensures var filters := Kept(WhitelistOrder, raw, sanitize);
      var o := SearchStep(cfg, sanitize, net, cache, petType, filters, page, None);
      && |o.sent| <= 1
      && forall i :: 0 <= i < |o.sent| ==> (o.sent[i].verb == HttpPost <==> ClausesFor(FilterTable, filters, sanitize) != [])
  {
    var filters := Kept(WhitelistOrder, raw, sanitize);
    WhitelistFeedsFilterBody(raw, sanitize);
    SearchStepContract(cfg, sanitize, net, cache, petType, filters, page, None);
    SearchRequestShape(cfg, sanitize, net, cache, petType, filters, page, None);
  }

  /** Every search request the handler sends is a POST exactly when its whitelisted filter set produces a clause. */
  lemma FilterPetsRequests(cfg: Config, sanitize: string -> string, net: Network,
                           cache: map<SearchKey, Entry<ListDoc>>, postType: Option<string>,
                           postFilters: Option<Pairs>, postPage: Option<int>)
    ensures var o := FilterPetsStep(cfg, sanitize, net, cache, postType, postFilters, postPage);
      var filters := Kept(WhitelistOrder, postFilters.GetOr([]), sanitize);
      && |o.sent| <= 2
      && forall i :: 0 <= i < |o.sent| ==>
        (o.sent[i].verb == HttpPost <==> ClausesFor(FilterTable, filters, sanitize) != [])
  {
    var raw := postFilters.GetOr([]);
    var filters := Kept(WhitelistOrder, raw, sanitize);
    var petType := PostedType(sanitize, postType);
    var page := PostedPage(postPage);
    if petType == "either" {
      var dogs := SearchStep(cfg, sanitize, net, cache, "dogs", filters, page, None);
      WhitelistedSearchRequest(cfg, sanitize, net, cache, "dogs", raw, page);
      WhitelistedSearchRequest(cfg, sanitize, net, dogs.cache, "cats", raw, page);
    } else {
      WhitelistedSearchRequest(cfg, sanitize, net, cache, petType, raw, page);
    }
  }

  /** `paf_handle_filter_pets`. */
  method HandleFilterPets(site: Site, postType: Option<string>, postFilters: Option<Pairs>, postPage: Option<int>)
    returns (reply: Reply)
    requires site.Valid()
    modifies site`searchCache, site`log, site`sent
    ensures site.Valid()
    ensures var o := FilterPetsStep(site.config, site.wp.sanitizeTextField, site.network, old(site.searchCache),
                                    postType, postFilters, postPage);
      && reply == o.result && site.searchCache == o.cache
      && site.log == old(site.log) + o.logged && site.sent == old(site.sent) + o.sent
  {
    var sanitize := site.wp.sanitizeTextField;
    var petType := if postType.Some? then sanitize(postType.value) else DefaultPetType;
    var filters := SanitizeFilters(postFilters.GetOr([]), sanitize);
    var page := if postPage.Some? then Absint(postPage.value) else DefaultPage;
    var response: ApiResult<ListDoc>;
    if petType == "either" {
      response := SearchEither(site, filters, page);
    } else {
      response := site.SearchPets(petType, filters, page, None);
    }
    reply := Respond(response, page);
  }

  /** Regrouping the log and the traffic of the two searches, which the solver does not do by itself at a low cost. */
  lemma AppendAssoc<T>(a: seq<T>, b: seq<T>, c: seq<T>)
    ensures (a + b) + c == a + (b + c)
  {
  }

  /** The `either` branch of `paf_handle_filter_pets`: search dogs, then cats, and merge. */
  method SearchEither(site: Site, filters: Pairs, page: int) returns (response: ApiResult<ListDoc>)
    requires site.Valid()
    modifies site`searchCache, site`log, site`sent
    ensures site.Valid()
    ensures var dogs := SearchStep(site.config, site.wp.sanitizeTextField, site.network, old(site.searchCache),
                                   "dogs", filters, page, None);
      var cats := SearchStep(site.config, site.wp.sanitizeTextField, site.network, dogs.cache, "cats", filters, page, None);
      && response == Ok(MergeOf(dogs.result, cats.result)) && site.searchCache == cats.cache
      && site.log == old(site.log) + (dogs.logged + cats.logged) && site.sent == old(site.sent) + (dogs.sent + cats.sent)
  {
    ghost var sanitize := site.wp.sanitizeTextField;
    ghost var d := SearchStep(site.config, sanitize, site.network, site.searchCache, "dogs", filters, page, None);
    ghost var c := SearchStep(site.config, sanitize, site.network, d.cache, "cats", filters, page, None);
    ghost var log0, sent0 := site.log, site.sent;
    var dogs := site.SearchPets("dogs", filters, page, None);
    var cats := site.SearchPets("cats", filters, page, None);
    AppendAssoc(log0, d.logged, c.logged);
    AppendAssoc(sent0, d.sent, c.sent);
    var merged := MergePetResults(dogs, cats);
    response := Ok(merged);
  }

  const InvalidPetType := "Invalid pet type"
  const LoadBreedsFailure := "Unable to load breeds"

  /** `paf_load_breeds_ajax`: the type is checked here, before the breed list is fetched. */
  function LoadBreedsStep(cfg: Config, sanitize: string -> string, net: Network,
                          cache: map<string, Entry<seq<string>>>, postType: Option<string>)
    : (o: Outcome<Reply, map<string, Entry<seq<string>>>>)
    ensures !ValidPetType(PostedType(sanitize, postType)) ==> o == Outcome(JsonError(InvalidPetType), cache, [], [])
    ensures o.result.JsonError? ==> o.result.message in {InvalidPetType, LoadBreedsFailure}
    ensures !o.result.JsonPets?
    // With a well-formed cache, a list sent back is sorted and has no empty name.
    ensures BreedsCacheOk(cache) && o.result.JsonBreeds? ==> BreedListOk(o.result.breeds)
    ensures BreedsCacheOk(cache) ==> BreedsCacheOk(o.cache)
  {
    var petType := PostedType(sanitize, postType);
    if !ValidPetType(petType) then Outcome(JsonError(InvalidPetType), cache, [], [])
    else
      var b := BreedsStep(cfg, net, cache, petType);
      var reply := if b.result.Err? then JsonError(LoadBreedsFailure) else JsonBreeds(b.result.doc);
      Outcome(reply, b.cache, b.logged, b.sent)
  }

  /** `paf_load_breeds_ajax`. */
  method LoadBreedsAjax(site: Site, postType: Option<string>) returns (reply: Reply)
    requires site.Valid()
    modifies site`breedsCache, site`log, site`sent
    ensures site.Valid()
    ensures var o := LoadBreedsStep(site.config, site.wp.sanitizeTextField, site.network, old(site.breedsCache), postType);
      && reply == o.result && site.breedsCache == o.cache
      && site.log == old(site.log) + o.logged && site.sent == old(site.sent) + o.sent
  {
    var petType := if postType.Some? then site.wp.sanitizeTextField(postType.value) else DefaultPetType;
    if petType != "dogs" && petType != "cats" {
      return JsonError(InvalidPetType);
    }
    var breeds := site.GetBreedsList(petType);
    if breeds.Err? {
      return JsonError(LoadBreedsFailure);
    }
    reply := JsonBreeds(breeds.doc);
  }
}
