/**
 * The detail page's head: the description, social and structured-data tags of
 * `paf_add_detail_meta_tags` (which fetch the pet afresh) and the document title of
 * `paf_filter_page_title` (which may use the cached pet). The markup itself is left out; the
 * model keeps the values written into it.
 */
module MetaTags {
  import opened Wrappers
  import opened Php
  import opened JsonApi
  import opened ApiClient
  import opened Site
  import opened Rewrite
  import opened Shortcodes

  /** The values the tags carry: name, composed description, image, canonical URL and breeds. */
  datatype TagValues = TagValues(name: string, description: string, image: string, url: string, breed: string)

  const ImageSize := "large"
  const DescriptionWords := 30
  const TitleSuffix := " - Available for Adoption | "

  /** The name, then ` - ` and the breeds when there are any, then `. ` and the description when there is one. */
  function MetaDescription(name: string, breed: string, description: string): (d: string)
    ensures name <= d
    ensures EmptyString(breed) && EmptyString(description) ==> d == name
    ensures !EmptyString(breed) ==> name + " - " + breed <= d
    ensures !EmptyString(description) ==> |d| >= |description| + 2 && d[|d| - |description| - 2..] == ". " + description
    ensures |d| == |name| + (if EmptyString(breed) then 0 else 3 + |breed|)
                          + (if EmptyString(description) then 0 else 2 + |description|)
  {
    var withBreed := if !EmptyString(breed) then name + " - " + breed else name;
    if !EmptyString(description) then withBreed + ". " + description else withBreed
  }

  /** The tag values for a fetched pet; the id in the URL is the requested one. */
  function TagsOf(pet: Resource, included: seq<Resource>, wp: Wp, petId: string): (t: TagValues)
    ensures t.url == DetailUrl(wp, petId)
    ensures !IsSet(pet.attrs, "name") ==> DefaultPetName <= t.description
  {
    var name := PetName(pet, wp.escAttr);
    var description :=
      if IsSet(pet.attrs, "descriptionText") then wp.escAttr(wp.trimWords(ToStr(pet.attrs["descriptionText"]))) else "";
    var breed := BreedNamesOf(pet, included);
    TagValues(name, MetaDescription(name, breed, description), PrimaryImageOf(pet, included, ImageSize, wp.pluginUrl),
      DetailUrl(wp, petId), breed)
  }

  /** `paf_add_detail_meta_tags`: tags only for an id whose forced fetch found a pet with data. */
  function MetaTagsStep(cfg: Config, wp: Wp, net: Network, cache: map<string, Entry<ItemDoc>>, petId: string)
    : (o: Outcome<Option<TagValues>, map<string, Entry<ItemDoc>>>)
    ensures o.cache == cache
    ensures EmptyString(petId) ==> o == Outcome(None, cache, [], [])
  {
    if EmptyString(petId) then Outcome(None, cache, [], [])
    else
      var d := DetailStep(cfg, wp.sanitizeTextField, net, cache, petId, true);
      var tags := if d.result.Found? && d.result.doc.data.Some?
        then Some(TagsOf(d.result.doc.data.value, d.result.doc.included, wp, petId)) else None;
      Outcome(tags, d.cache, d.logged, d.sent)
  }

  /** With a key configured, the tags are emitted exactly when the detail shortcode renders the pet. */
  lemma TagsIffDetailRenders(cfg: Config, wp: Wp, net: Network, cache: map<string, Entry<ItemDoc>>, petId: string)
    requires Configured(cfg.apiKey)
    ensures MetaTagsStep(cfg, wp, net, cache, petId).result.Some?
      <==> DetailShortcodeStep(cfg, wp, net, cache, petId).result.Detail?
    ensures MetaTagsStep(cfg, wp, net, cache, petId).result.Some? ==>
      var page := DetailShortcodeStep(cfg, wp, net, cache, petId).result;
      MetaTagsStep(cfg, wp, net, cache, petId).result.value == TagsOf(page.pet, page.included, wp, petId)
  {
  }

  /** `paf_filter_page_title`: the pet's title when the (possibly cached) lookup finds a pet with data. */
  function TitleStep(cfg: Config, wp: Wp, net: Network, cache: map<string, Entry<ItemDoc>>, petId: string, title: string)
    : (o: Outcome<string, map<string, Entry<ItemDoc>>>)
    ensures EmptyString(petId) ==> o == Outcome(title, cache, [], [])
    // A pet already in the cache is titled without a request.
    ensures !EmptyString(petId) && wp.sanitizeTextField(petId) in cache ==> o.sent == [] && o.cache == cache
  {
    if EmptyString(petId) then Outcome(title, cache, [], [])
    else
      var d := DetailStep(cfg, wp.sanitizeTextField, net, cache, petId, false);
      var t := if d.result.Found? && d.result.doc.data.Some?
        then PetName(d.result.doc.data.value, wp.escHtml) + TitleSuffix + wp.blogName else title;
      Outcome(t, d.cache, d.logged, d.sent)
  }

  /** The title is left as it was in every guard case, and otherwise names the pet and the site. */
  lemma TitleCases(cfg: Config, wp: Wp, net: Network, cache: map<string, Entry<ItemDoc>>, petId: string, title: string)
    ensures var o := TitleStep(cfg, wp, net, cache, petId, title);
      var d := DetailStep(cfg, wp.sanitizeTextField, net, cache, petId, false);
      && (EmptyString(petId) || d.result.NotFound? || d.result.Failed? || d.result.doc.data.None? ==> o.result == title)
      && (!EmptyString(petId) && d.result.Found? && d.result.doc.data.Some? ==>
            var name := PetName(d.result.doc.data.value, wp.escHtml);
            && o.result == name + TitleSuffix + wp.blogName
            && (!IsSet(d.result.doc.data.value.attrs, "name") ==> name == DefaultPetName))
  {
  }

  /** `paf_add_detail_meta_tags`. */
  method AddDetailMetaTags(site: Site, petId: string) returns (tags: Option<TagValues>)
    requires site.Valid()
    modifies site`detailCache, site`log, site`sent
    ensures site.Valid()
    ensures var o := MetaTagsStep(site.config, site.wp, site.network, old(site.detailCache), petId);
      && tags == o.result && site.detailCache == o.cache
      && site.log == old(site.log) + o.logged && site.sent == old(site.sent) + o.sent
  {
    if EmptyString(petId) {
      return None;
    }
    var response := site.GetPetById(petId, true);
    if !response.Found? || response.doc.data.None? {
      return None;
    }
    var pet := response.doc.data.value;
    var included := response.doc.included;
    var wp := site.wp;
    var name := if IsSet(pet.attrs, "name") then wp.escAttr(ToStr(pet.attrs["name"])) else DefaultPetName;
    var description := "";
    if IsSet(pet.attrs, "descriptionText") {
      description := wp.escAttr(wp.trimWords(ToStr(pet.attrs["descriptionText"])));
    }
    var image := PrimaryImage(pet, included, ImageSize, wp.pluginUrl);
    var url := DetailUrl(wp, petId);
    var breed := BreedNames(pet, included);
    var metaDescription := name;
    if !EmptyString(breed) {
      metaDescription := metaDescription + " - " + breed;
    }
    if !EmptyString(description) {
      metaDescription := metaDescription + ". " + description;
    }
    tags := Some(TagValues(name, metaDescription, image, url, breed));
  }

  /** `paf_filter_page_title`. */
  method FilterPageTitle(site: Site, petId: string, title: string) returns (result: string)
    requires site.Valid()
    modifies site`detailCache, site`log, site`sent
    ensures site.Valid()
    ensures var o := TitleStep(site.config, site.wp, site.network, old(site.detailCache), petId, title);
      && result == o.result && site.detailCache == o.cache
      && site.log == old(site.log) + o.logged && site.sent == old(site.sent) + o.sent
  {
    if EmptyString(petId) {
      return title;
    }
    var response := site.GetPetById(petId, false);
    if !response.Found? || response.doc.data.None? {
      return title;
    }
    var pet := response.doc.data.value;
    var name := if IsSet(pet.attrs, "name") then site.wp.escHtml(ToStr(pet.attrs["name"])) else DefaultPetName;
    result := name + TitleSuffix + site.wp.blogName;
  }
}
