/**
 * The two shortcodes: the search grid, which only checks that an API key is configured, and
 * the pet detail page, an early-return cascade over the id, the configuration and the result
 * of a forced fetch of the pet.
 */
module Shortcodes {
  import opened Wrappers
  import opened Php
  import opened JsonApi
  import opened ApiClient
  import opened Site

  /** What `[pet_search_grid]` renders: the configuration warning, or the empty grid that the script fills. */
  datatype GridPage = GridNotConfigured | GridMarkup

  function GridShortcode(apiKey: string): (page: GridPage)
    ensures page.GridNotConfigured? <==> !Configured(apiKey)
  {
    if !Configured(apiKey) then GridNotConfigured else GridMarkup
  }

  /** What `[pet_detail]` renders; the markup of each notice and template is left out. */
  datatype DetailPage =
    | MissingId
    | NotConfigured
    | PetNotFound
    | LoadFailed(message: string)
    | InvalidData
    | Detail(pet: Resource, included: seq<Resource>, isAvailable: bool, title: string)

  const DefaultPetName := "Adoptable Pet"
  const AdoptionSuffix := " - Available for Adoption"

  /** A pet is available unless `isAdoptionPending` is set and truthy. */
  function IsAvailable(pet: Resource): (available: bool)
    ensures !available <==> IsSet(pet.attrs, "isAdoptionPending") && !Falsy(pet.attrs["isAdoptionPending"])
  {
    !(IsSet(pet.attrs, "isAdoptionPending") && !Falsy(pet.attrs["isAdoptionPending"]))
  }

  /** The pet's name passed through `escape`, or the default name when it has none. */
  function PetName(pet: Resource, escape: string -> string): string {
    if IsSet(pet.attrs, "name") then escape(ToStr(pet.attrs["name"])) else DefaultPetName
  }

  /** The cascade after the fetch: not found, then error, then missing data, then the page itself. */
  function DetailView(lookup: PetLookup, escHtml: string -> string): DetailPage {
    match lookup
    case NotFound => PetNotFound
    case Failed(e) => LoadFailed(escHtml(e.message))
    case Found(doc) =>
      if doc.data.None? then InvalidData
      else
        var pet := doc.data.value;
        Detail(pet, doc.included, IsAvailable(pet), PetName(pet, escHtml) + AdoptionSuffix)
  }

  /** Each fetch result leads to exactly one outcome, in the order the shortcode tests them. */
  lemma DetailViewCascade(lookup: PetLookup, escHtml: string -> string)
    ensures var page := DetailView(lookup, escHtml);
      && (page.PetNotFound? <==> lookup.NotFound?)
      && (page.LoadFailed? <==> lookup.Failed?)
      && (page.InvalidData? <==> lookup.Found? && lookup.doc.data.None?)
      && (page.Detail? <==> lookup.Found? && lookup.doc.data.Some?)
      && !page.MissingId? && !page.NotConfigured?
      && (page.Detail? ==> page.pet == lookup.doc.data.value && page.included == lookup.doc.included)
  {
  }

  /** `paf_detail_shortcode`, with the detail cache, the log and the traffic it touches. */
  function DetailShortcodeStep(cfg: Config, wp: Wp, net: Network, cache: map<string, Entry<ItemDoc>>, petId: string)
    : (o: Outcome<DetailPage, map<string, Entry<ItemDoc>>>)
    // The fetch is always forced, so the detail cache is never read or written.
    ensures o.cache == cache
    // Both guards return before anything is fetched or logged.
    ensures EmptyString(petId) ==> o == Outcome(MissingId, cache, [], [])
    ensures !EmptyString(petId) && !Configured(cfg.apiKey) ==> o == Outcome(NotConfigured, cache, [], [])
    ensures o.sent != [] ==> o.sent == [DetailRequest(cfg.apiKey, wp.sanitizeTextField(petId))]
    // Otherwise the page is the one for the forced lookup's outcome.
    ensures !EmptyString(petId) && Configured(cfg.apiKey) ==>
      var req := DetailRequest(cfg.apiKey, wp.sanitizeTextField(petId));
      o.result == DetailView(LookupOf(Call(cfg.apiKey, req, net.item).result), wp.escHtml)
  {
    if EmptyString(petId) then Outcome(MissingId, cache, [], [])
    else if !Configured(cfg.apiKey) then Outcome(NotConfigured, cache, [], [])
    else
      var d := DetailStep(cfg, wp.sanitizeTextField, net, cache, petId, true);
      Outcome(DetailView(d.result, wp.escHtml), d.cache, d.logged, d.sent)
  }

  /** With an id and a key, the page shown follows the upstream answer even when the pet is cached. */
  lemma DetailShortcodeIgnoresCache(cfg: Config, wp: Wp, net: Network, cache: map<string, Entry<ItemDoc>>, petId: string)
    requires !EmptyString(petId) && Configured(cfg.apiKey)
    ensures var o := DetailShortcodeStep(cfg, wp, net, cache, petId);
      && o.sent == [DetailRequest(cfg.apiKey, wp.sanitizeTextField(petId))]
      && o == DetailShortcodeStep(cfg, wp, net, map[], petId).(cache := cache)
  {
  }

  /** `paf_search_grid_shortcode`. */
  method SearchGridShortcode(site: Site) returns (page: GridPage)
    ensures page == GridShortcode(site.config.apiKey)
  {
    if EmptyString(site.config.apiKey) {
      return GridNotConfigured;
    }
    page := GridMarkup;
  }

  /** `paf_detail_shortcode`. */
  method DetailShortcode(site: Site, petId: string) returns (page: DetailPage)
    requires site.Valid()
    modifies site`detailCache, site`log, site`sent
    ensures site.Valid()
    ensures var o := DetailShortcodeStep(site.config, site.wp, site.network, old(site.detailCache), petId);
      && page == o.result && site.detailCache == o.cache
      && site.log == old(site.log) + o.logged && site.sent == old(site.sent) + o.sent
  {
    if EmptyString(petId) {
      return MissingId;
    }
    if EmptyString(site.config.apiKey) {
      return NotConfigured;
    }
    var response := site.GetPetById(petId, true);
    if response.NotFound? {
      return PetNotFound;
    }
    if response.Failed? {
      return LoadFailed(site.wp.escHtml(response.error.message));
    }
    var pet := response.doc.data;
    if pet.None? {
      return InvalidData;
    }
    var available := true;
    if IsSet(pet.value.attrs, "isAdoptionPending") && !Falsy(pet.value.attrs["isAdoptionPending"]) {
      available := false;
    }
    var name := if IsSet(pet.value.attrs, "name") then site.wp.escHtml(ToStr(pet.value.attrs["name"])) else DefaultPetName;
    page := Detail(pet.value, response.doc.included, available, name + AdoptionSuffix);
  }
}
