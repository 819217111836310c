# Pet Adoption Finder — a verified model of the search, cache and merge pipeline

The Pet Adoption Finder WordPress plugin searches the RescueGroups.org v5 API for adoptable
dogs and cats and shows the results. This project models its core in Dafny:

- **API client**: the API key check, response classification into error categories and log
  entries, the search request (GET without filters, POST with a JSON:API filter body), and
  the detail and breed-list requests. See `api_client.dfy`.
- **Transient cache**: the search, detail and breed-list caches with their keys and lifetimes,
  the cache-first lookups, and the rule that only successes are stored. `site.dfy` holds these
  as pure step functions and as the `Site` class, whose methods update the three caches, the
  error log and the record of requests sent.
- **Related data**: resolving relationships against the `included` array, breed names, and the
  primary and ordered images. See `jsonapi.dfy`.
- **AJAX handlers**: the filter whitelist, the "either" search that merges the dog and cat
  results and sorts them by distance, the JSON replies, and the breed-list endpoint. See
  `ajax.dfy`.
- **Small consumers**:
  - the grid and detail shortcodes (`shortcodes.dfy`);
  - the detail page's meta tags and title (`meta_tags.dfy`);
  - the `pet/<id>/` rewrite rule and detail URL (`rewrite.dfy`).
- **Browser controller** (`pet_finder.dfy`): the search grid's paging state machine, modelled
  as a class whose methods are the page's event handlers. Requests are recorded as they are
  sent, and each answer is delivered as a separate call.

Supporting modules:

- `php.dfy`: PHP value semantics (`empty`, `isset`, `absint`, string conversion, integer
  truncation, ordered arrays).
- `sorting.dfy`: a stable insertion sort standing in for `usort` and `sort`.
- `wrappers.dfy`: `Option`.

WordPress functions (`sanitize_text_field`, `esc_html`, `esc_attr`, `wp_trim_words`,
`home_url`, `get_bloginfo`, the plugin URL) are passed in as uninterpreted function values.
The HTTP server is also a parameter: one function per response type that maps a request to a
transport error or a status with a parsed or unparseable body.

Where the code departs from its own comments, the model follows the code. A
404 on a pet detail fetch is logged as an `API_NOT_FOUND` error before the fetch returns
`null`, although the comment at `includes/api-handler.php:401` says it is not logged.
`Site.NotFoundIsLoggedThenNull` states this.

## Model

| member | source | states |
|---|---|---|
| Php.Absint | includes/api-handler.php:254-255 | `absint` is the magnitude of its argument |
| Php.Trunc | includes/ajax-handlers.php:229-233 | the integer a float comparator result is cast to lies within 1 of it, toward zero |
| Php.Prefix | includes/api-handler.php:188 | `substr($body, 0, 500)` is a prefix of at most 500 characters, the whole string when shorter |
| Php.DigitPrefix | includes/rewrite-rules.php:22 | the longest run of leading digits, stopping at the first non-digit |
| Php.GetFinds | includes/api-handler.php:260 | reading a key of an ordered array yields the first entry under that key, or "" when absent |
| Site.LogIf | includes/error-logger.php:52-58 | an error is written to the log exactly when logging is enabled and there is an error |
| Sorting.Insert | includes/api-handler.php:550 | inserting into a sorted list keeps it sorted and adds exactly the new element |
| Sorting.SortBy | includes/api-handler.php:482-486 | the sorted list is a permutation of its input and ordered by the comparator |
| Sorting.SortedHeadIsLeast | includes/api-handler.php:488 | the first element after sorting is an input element no greater than any other |
| Sorting.LexLeqTotal | includes/api-handler.php:550 | any two breed names are comparable |
| Sorting.LexLeqTransitive | includes/api-handler.php:550 | string order is transitive |
| Sorting.LexLeqIsTotalPreorder | includes/api-handler.php:550 | `sort` on breed names sorts by a total preorder |
| JsonApi.FirstMatch | includes/api-handler.php:432-437 | the inner loop finds the first included item with the reference's type and id, or none exists |
| JsonApi.Related | includes/api-handler.php:423-441 | at most one result per reference, each taken from `included` |
| JsonApi.Resolved | includes/api-handler.php:431-438 | positions of the references that resolve, each a position of `refs` |
| JsonApi.ResolvedOnlyResolvable | includes/api-handler.php:431-438 | every listed position is a reference some included item matches |
| JsonApi.ResolvedIncreasing | includes/api-handler.php:431 | positions are listed in reference order |
| JsonApi.ResolvedComplete | includes/api-handler.php:431-438 | every reference some included item matches is listed |
| JsonApi.RelatedInReferenceOrder | includes/api-handler.php:423-441 | for any references: one result per resolving reference, its first match, in reference order, unresolved references skipped |
| JsonApi.RelatedSound | includes/api-handler.php:423-441 | every related item matches one of the animal's references |
| JsonApi.RelatedWhenAllResolve | includes/api-handler.php:431-438 | when every reference resolves, the results are the first matches, in reference order |
| JsonApi.RelatedData | includes/api-handler.php:423-441 | the nested loops compute `Related` |
| JsonApi.TruthyToStr | includes/api-handler.php:455-456 | a name that passes `!empty` converts to a non-empty string |
| JsonApi.NamesOf | includes/api-handler.php:454-458 | the collected names are non-empty names of the given breeds, and none only when no breed has a name |
| JsonApi.CollectNames | includes/api-handler.php:454-458 | the loop computes `NamesOf` |
| JsonApi.JoinTruthy | includes/api-handler.php:460 | the comma-joined names are falsy exactly when there are none |
| JsonApi.BreedNamesOf | includes/api-handler.php:450-461 | the related breeds' names joined with `, ` (specified by `NamesOf`, `JoinTruthy` and `BreedNamesTruthy`) |
| JsonApi.BreedNamesTruthy | includes/api-handler.php:450-461 | the breed string is non-empty exactly when some related breed has a name |
| JsonApi.BreedNames | includes/api-handler.php:450-461 | `paf_get_breed_names` computes `BreedNamesOf` |
| JsonApi.ByOrderIsTotalPreorder | includes/api-handler.php:482-486 | the picture comparator (order, 999 when unset) is a total preorder |
| JsonApi.AllImages | includes/api-handler.php:505-516 | the images are the related pictures, reordered and sorted by order |
| JsonApi.PrimaryImageChoice | includes/api-handler.php:471-496 | thumbnail first; else a picture of least order, at the requested size or the placeholder; else the placeholder |
| JsonApi.PrimaryImageOf | includes/api-handler.php:471-496 | the primary image (specified by `PrimaryImageChoice`) |
| JsonApi.PrimaryImage | includes/api-handler.php:471-496 | `paf_get_primary_image` computes `PrimaryImageOf` |
| ApiClient.Category | includes/api-handler.php:158-180 | a status maps to a known category, and to `API_RESPONSE` exactly when it is not one of the seven classified codes |
| ApiClient.Process | includes/api-handler.php:136-218 | success exactly on status 200 with a parseable body; every failure yields an error and a log entry with its category, endpoint and status |
| ApiClient.Call | includes/api-handler.php:62-88 | without a key: `no_api_key` and an `API_AUTH` log entry; with one: the processed server answer |
| ApiClient.HasFilters | includes/api-handler.php:286-298 | true exactly when some filter value is non-empty |
| ApiClient.RowFlags | includes/api-handler.php:306-368 | one flag per filter row, set exactly when the row's filter is non-empty |
| ApiClient.ClausesOfPopulatedRows | includes/api-handler.php:306-368 | the body has one clause per populated row, built from that row |
| ApiClient.PopulatedRowsInOrder | includes/api-handler.php:306-368 | the clauses follow the fixed row order: location, distance, age, sex, size, breed |
| ApiClient.ClausesForSnoc | includes/api-handler.php:306-368 | adding a row appends its clause exactly when its filter is set |
| ApiClient.TableStep | includes/api-handler.php:306-368 | each block of the function extends the body by that row's contribution |
| ApiClient.AppendIfSet | includes/api-handler.php:310-316 | one `if (!empty(...))` block appends its clause when the filter is set |
| ApiClient.ClausesFor | includes/api-handler.php:306-368 | the clauses of the populated rows, in row order (specified by `ClausesOfPopulatedRows`, `PopulatedRowsInOrder` and `ClausesForSnoc`) |
| ApiClient.BuildFilterBody | includes/api-handler.php:306-368 | the six blocks build exactly the table-driven clause list |
| ApiClient.RowOf | includes/api-handler.php:306-368 | every filter key has its row in the table |
| ApiClient.HasFiltersIffClauses | includes/api-handler.php:265-270 | for whitelisted, distinct keys, POST is chosen exactly when the filter body has a clause |
| ApiClient.NoClausesWhenNonePopulated | includes/api-handler.php:306-368 | with no filter set the body is empty |
| ApiClient.SearchParams | includes/api-handler.php:253-262 | page, limit and include come first; `sort=distance` is present exactly when a location is set |
| ApiClient.DetailRequest | includes/api-handler.php:391-399 | the detail request: a GET of `/public/animals/<id>` with the include parameters |
| ApiClient.BreedsRequest | includes/api-handler.php:532-533 | the breed-list request: a GET of `/public/animals/breeds/<type>/` |
| ApiClient.SearchRequest | includes/api-handler.php:250-270 | POST with the clause body exactly when filters are set, GET with none otherwise, to the type's search endpoint |
| Site.SearchStep | includes/api-handler.php:229-278 | a search keeps the search cache well formed |
| Site.SearchStepContract | includes/api-handler.php:229-278 | invalid type rejected untouched; cache hit only with a positive lifetime; otherwise the API's answer is the result, one request sent when a key is set and its log entry written; only successes stored, and a success fetched with a positive lifetime is stored, under the call's key, for the configured lifetime |
| Site.SearchRequestShape | includes/api-handler.php:250-270 | a sent search is POST exactly when filters are set and sorts by distance exactly when a location is set |
| Site.LookupOf | includes/api-handler.php:401-404 | an `API_NOT_FOUND` error becomes "not found"; other errors and successes pass through |
| Site.DetailStep | includes/api-handler.php:377-413 | a forced fetch bypasses the cache both ways; otherwise a cached pet is returned without a request, and a miss returns the API's answer (404 as not found) and stores a found pet for five minutes; nothing else is stored |
| Site.NotFoundIsLoggedThenNull | includes/api-handler.php:399-404 | a 404 yields "not found", leaves the cache alone, and is logged as `API_NOT_FOUND` |
| Site.BreedsOf | includes/api-handler.php:539-550 | the list is a permutation of the non-empty breed names, sorted |
| Site.BreedsStep | includes/api-handler.php:524-556 | cache first; a miss sends the request when a key is set and logs its failure; errors passed on and not stored; a fresh list is the sorted names, stored for a day |
| Site.Site.Send | includes/api-handler.php:62-88 | one API call: its result, its log entry when logging is on, and its request when a key is set |
| Site.Site.SearchPets | includes/api-handler.php:229-278 | `paf_search_pets` performs `SearchStep` on the object's cache, log and traffic |
| Site.Site.FetchSearch | includes/api-handler.php:249-277 | a cache miss sends the search and stores a success when the lifetime is positive |
| Site.Site.BuildSearchRequest | includes/api-handler.php:250-270 | the request built is `SearchRequest` |
| Site.Site.GetPetById | includes/api-handler.php:377-413 | `paf_get_pet_by_id` performs `DetailStep` |
| Site.Site.GetBreedsList | includes/api-handler.php:524-556 | `paf_get_breeds_list` performs `BreedsStep` |
| Ajax.KeptShape | includes/ajax-handlers.php:30-49 | the sanitised filters have distinct whitelisted keys; a key is kept exactly when its raw value is non-empty, with the sanitised value |
| Ajax.KeepIfSet | includes/ajax-handlers.php:32-34 | one whitelist block appends the key when its value is set |
| Ajax.WhitelistStep | includes/ajax-handlers.php:30-49 | each whitelist block extends the kept filters by that key's entry |
| Ajax.SanitizeFilters | includes/ajax-handlers.php:30-49 | the six blocks compute `Kept` over the whitelist |
| Ajax.WhitelistFeedsFilterBody | includes/ajax-handlers.php:30-61 | whitelisted filters are filter-body keys, distinct, and choose POST exactly when the body has a clause |
| Ajax.ByDistanceIsTotalPreorder | includes/ajax-handlers.php:229-233 | ordering by distance (9999 when unset) is a total preorder |
| Ajax.AsWrittenTiesNearbyPets | includes/ajax-handlers.php:229-233 | the integer-cast comparator ties pets 1.7 and 1.2 away and accepts the farther one first |
| Ajax.AsWrittenIsNotAnOrder | includes/ajax-handlers.php:229-233 | the integer-cast comparator is not a total preorder (2.5, 1.6, 0.7) |
| Ajax.MergeOf | includes/ajax-handlers.php:194-236 | the merge with the corrected distance comparator (specified by `MergeOfContract`) |
| Ajax.MergeOfContract | includes/ajax-handlers.php:194-238 | the merged data is a permutation of both lists' data sorted by distance; included concatenated; counts summed; one page |
| Ajax.MergeStartsWithNearest | includes/ajax-handlers.php:228-233 | the first merged pet is no farther than any pet of either list |
| Ajax.MergeKeepsEveryPet | includes/ajax-handlers.php:206-226 | a pet is in the merge exactly when it is in the dog or cat results |
| Ajax.AddResults | includes/ajax-handlers.php:206-226 | one block adds a successful response's data, included items and count |
| Ajax.GatherResults | includes/ajax-handlers.php:206-226 | the dogs' then the cats' data, included items and counts are concatenated and summed |
| Ajax.MergePetResults | includes/ajax-handlers.php:194-238 | `paf_merge_pet_results` with the corrected comparator computes `MergeOf` |
| Ajax.SortByDistance | includes/ajax-handlers.php:229-233 | the `usort` call with the corrected comparator sorts by distance |
| Ajax.Respond | includes/ajax-handlers.php:64-93 | the reply to a search response (specified by `RespondPaging`) |
| Ajax.RespondPaging | includes/ajax-handlers.php:64-93 | an error is reported with its message; a success carries the pets and included items, `has_more` exactly when `pageReturned` is below `pages`, the total (0 when absent) and the page (the requested one when absent) |
| Ajax.FilterPetsStep | includes/ajax-handlers.php:21-94 | the handler always answers with pets or an error, and keeps the search cache well formed |
| Ajax.EitherNeverFailsNorPages | includes/ajax-handlers.php:51-58 | an "either" search always succeeds, on a single page |
| Ajax.UnknownTypeIsRefused | includes/ajax-handlers.php:61-69 | any other unknown type is refused with the search error and nothing sent |
| Ajax.WhitelistedSearchRequest | includes/ajax-handlers.php:30-61 | a search with whitelisted filters sends at most one request, POST exactly when the body has a clause |
| Ajax.FilterPetsRequests | includes/ajax-handlers.php:51-62 | a filter request sends at most two API requests, each POST exactly when the body has a clause |
| Ajax.HandleFilterPets | includes/ajax-handlers.php:21-94 | `paf_handle_filter_pets` performs `FilterPetsStep` |
| Ajax.SearchEither | includes/ajax-handlers.php:52-58 | dogs then cats are searched through the cache and merged |
| Ajax.LoadBreedsStep | includes/ajax-handlers.php:246-262 | unknown types refused untouched; only the two error messages; a list sent back is sorted without empty names |
| Ajax.LoadBreedsAjax | includes/ajax-handlers.php:246-262 | `paf_load_breeds_ajax` performs `LoadBreedsStep` |
| Rewrite.WithoutFinalNewline | includes/rewrite-rules.php:22 | `$` ignores at most one final newline |
| Rewrite.MatchPetBody | includes/rewrite-rules.php:22 | a match captures a digit id that makes up the whole string with `pet/` and an optional `/` |
| Rewrite.MatchPetRule | includes/rewrite-rules.php:20-26 | a match captures a digit id that makes up the whole path with `pet/`, an optional `/` and an optional final newline |
| Rewrite.MatchPetRuleComplete | includes/rewrite-rules.php:22 | every `pet/<digits>` path, with or without the slash and a final newline, is matched and captures its digits |
| Rewrite.MatchPetBodyComplete | includes/rewrite-rules.php:22 | `pet/<digits>` with or without the slash is matched and captures its digits |
| Rewrite.DetailPathRoundTrip | includes/rewrite-rules.php:20-45 | the rule maps the detail URL path of a digit id back to that id |
| Rewrite.MatchedPathIsDetailPath | includes/rewrite-rules.php:20-45 | a captured id's detail path is the matched path, up to the final slash and newline |
| Rewrite.NonDigitIdIsRejected | includes/rewrite-rules.php:20-45 | a detail path whose id is not all digits is not matched |
| Rewrite.RegisterQueryVars | includes/rewrite-rules.php:32-35 | `pet_id` is appended and the existing variables are kept in order |
| Shortcodes.GridShortcode | includes/shortcodes.php:45-57 | the warning is shown exactly when no key is configured |
| Shortcodes.IsAvailable | includes/shortcodes.php:141-145 | unavailable exactly when `isAdoptionPending` is set and truthy |
| Shortcodes.DetailView | includes/shortcodes.php:115-145 | the page for a fetch outcome (specified by `DetailViewCascade`) |
| Shortcodes.DetailViewCascade | includes/shortcodes.php:115-145 | not found, error, missing data and the page correspond one-to-one to the fetch outcome |
| Shortcodes.DetailShortcodeStep | includes/shortcodes.php:94-156 | the detail cache is untouched; missing id and missing key return before any request; at most the one detail request; otherwise the page is `DetailView` of the forced lookup |
| Shortcodes.DetailShortcodeIgnoresCache | includes/shortcodes.php:112-113 | with an id and a key the page is fetched whatever the cache holds |
| Shortcodes.SearchGridShortcode | includes/shortcodes.php:45-87 | the shortcode computes `GridShortcode` |
| Shortcodes.DetailShortcode | includes/shortcodes.php:94-156 | the shortcode performs `DetailShortcodeStep` |
| MetaTags.MetaDescription | includes/meta-tags.php:47-54 | starts with the name; ` - ` and breeds when they are truthy; ends with `. ` and the description when it is truthy; nothing else in between |
| MetaTags.TagsOf | includes/meta-tags.php:40-45 | the URL is the detail URL of the requested id; a nameless pet's description starts with "Adoptable Pet" |
| MetaTags.MetaTagsStep | includes/meta-tags.php:19-55 | the forced fetch leaves the detail cache alone; an empty id emits nothing and sends nothing |
| MetaTags.TagsIffDetailRenders | includes/meta-tags.php:19-38 | with a key configured, tags are emitted exactly when the detail shortcode renders the pet, from the same data |
| MetaTags.TitleStep | includes/meta-tags.php:108-131 | an empty id keeps the title; a cached pet is titled without a request |
| MetaTags.TitleCases | includes/meta-tags.php:108-131 | every guard keeps the title; otherwise "name - Available for Adoption \| blog", with "Adoptable Pet" for a nameless pet |
| MetaTags.AddDetailMetaTags | includes/meta-tags.php:19-55 | the hook performs `MetaTagsStep` |
| MetaTags.FilterPageTitle | includes/meta-tags.php:108-131 | the filter performs `TitleStep` |
| PetFinder.FormFilters | assets/js/pet-finder.js:153-162 | the six form fields are sent under the server's whitelist keys, in whitelist order |
| PetFinder.FormReachesServer | assets/js/pet-finder.js:153-162 | the server keeps a form field exactly when it is filled in, sanitised |
| PetFinder.ZipTickIsAdvisory | assets/js/pet-finder.js:117-129 | a ticked ZIP code always reaches the server, sanitised, and any other filled-in location does too |
| PetFinder.ShouldLoadMore | assets/js/pet-finder.js:142-151 | loads exactly when not loading, more remain, and the window's bottom is within 500 pixels of the document's end |
| PetFinder.NoMorePagesAfterLastPage | assets/js/pet-finder.js:142-151 | when the API reports its last page, the reply says no more and scrolling never loads another page |
| PetFinder.WellPagedSnoc | assets/js/pet-finder.js:164-180 | a fresh page-1 request, or the next page of the latest query, keeps the request history well paged |
| PetFinder.LastReset | assets/js/pet-finder.js:164-169 | the latest fresh query at or before a request, with no fresh query between them |
| PetFinder.PagesCountFromReset | assets/js/pet-finder.js:164-180 | the n-th request after a fresh query asks for page n + 1 of the same type and filters |
| PetFinder.LoadingView | assets/js/pet-finder.js:187-192 | a fresh query blanks the grid and hides both notices; a further page only shows the spinner |
| PetFinder.ResultsViewShowsOne | assets/js/pet-finder.js:205-231 | after results exactly one of grid and "no results" is visible; the end message only below results; items replace or are appended |
| PetFinder.ResultsView | assets/js/pet-finder.js:205-231 | the view after a page of results (specified by `ResultsViewShowsOne`) |
| PetFinder.ErrorAfterNoResultsIsHidden | assets/js/pet-finder.js:225-251 | as written, an error after an empty result lands in a hidden grid, with no notice visible |
| PetFinder.ErrorView | assets/js/pet-finder.js:248-251 | an error notice replaces the grid and the grid is visible |
| PetFinder.ErrorIsAlwaysSeen | assets/js/pet-finder.js:248-251 | with the corrected view, an error after an empty result is visible |
| PetFinder.PetSearchGrid.constructor | assets/js/pet-finder.js:10-23 | initial state and `init`: page 1 of dogs with no filters is requested, breed selector disabled |
| PetFinder.PetSearchGrid.LoadPets | assets/js/pet-finder.js:182-203 | `loading` is set, the view updated, and the current query sent |
| PetFinder.PetSearchGrid.ApplyFilters | assets/js/pet-finder.js:164-169 | the form becomes the filters and page 1 is requested afresh with `hasMore` reset |
| PetFinder.PetSearchGrid.EditForm | assets/js/pet-finder.js:117-129 | an edit changes only the form and the ZIP tick, which shows exactly for a ZIP code |
| PetFinder.PetSearchGrid.Submit | assets/js/pet-finder.js:95-98 | submitting applies the form: the form becomes the filters from page 1, the grid is blanked for the fresh query, and the form, type, breed selector, ZIP tick and answered requests stay as they were |
| PetFinder.PetSearchGrid.ClearFilters | assets/js/pet-finder.js:109-114 | the form is reset, the tick hidden, and the empty form applied from page 1 with the grid blanked; the type, breed selector and answered requests stay as they were |
| PetFinder.PetSearchGrid.LoadBreeds | assets/js/pet-finder.js:55-60 | the breed selector is disabled and emptied and the type's breeds requested |
| PetFinder.PetSearchGrid.BreedsAnswered | assets/js/pet-finder.js:70-86 | the selector is enabled either way, with the breeds on success and none otherwise |
| PetFinder.PetSearchGrid.TabClick | assets/js/pet-finder.js:28-52 | the type changes, the breed is cleared and disabled, its breeds fetched (options emptied) unless "either", the grid blanked for a fresh query, and page 1 requested |
| PetFinder.PetSearchGrid.LoadMorePets | assets/js/pet-finder.js:175-180 | the page advances by exactly one and the next page is requested only when not loading and more remain; otherwise no field changes; the query, form and breed selector never change |
| PetFinder.PetSearchGrid.OnScroll | assets/js/pet-finder.js:135-139 | the scroll handler requests the next page exactly when `ShouldLoadMore` holds, and otherwise changes no field |
| PetFinder.PetSearchGrid.Answer | assets/js/pet-finder.js:204-245 | results set `hasMore` and the view as the request asked; errors are shown; `loading` is cleared in every case; the query, form, ZIP tick and breed selector stay as they were |

## Left out

- HTTP and JSON: requests are values. A response is a transport error or a status with an
  already parsed (or unparseable) document. Headers, the 30-second timeout, URL query
  encoding and `wp_json_encode` are not modelled.
- Transient expiry: a stored entry carries its lifetime but never expires. A search cache key is
  the tuple it is derived from, not an md5 of its serialisation. Hash collisions are not modelled.
- The error log is a sequence of entries rather than a database table. The user id, IP
  address, user agent, timestamp and request data written with each entry are not modelled.
- WordPress functions and options are uninterpreted parameters or configuration fields:
  `sanitize_text_field`, escaping, `wp_trim_words` (30 words), `home_url`, `get_bloginfo`,
  `get_option`, `get_query_var`.
- Floating-point numbers are exact reals. A non-integral float's string form is approximated
  by its integer part and a trailing `.`. Numeric strings converted to numbers keep only the
  value of their leading digits. Browser scroll offsets are whole pixels.
- `usort` and `sort` are modelled by one stable insertion sort. Only "sorted permutation" is
  claimed of them, which is all PHP promises; the order of ties is not claimed.
- `sort` on breed names compares them as strings; PHP's numeric-string comparison of names
  that look like numbers is not modelled.
- `substr` counts bytes; the model counts characters.
- The markup is left out: `paf_render_grid_item`, the filter box, templates, the notices'
  HTML and the meta tag markup. Replies carry the data the markup is built from, and the
  browser grid carries rendered items as opaque strings.
- `paf_handle_pet_detail_page` is not part of this model. It queries the posts table and
  rewrites the global query.
- The title filter that `paf_detail_shortcode` registers while rendering is not modelled;
  `Detail` carries the title it would set.
- Nonce checks (`check_ajax_referer`) and the admin screens are not modelled.
- Browser asynchrony is reduced to events. An answer can be delivered for any request not yet
  answered, in any order, and is applied as the code applies it. A late answer to a superseded
  query is therefore still shown.
- The debounce timer is not modelled: its firing is a call to `ApplyFilters`.
- `applyFilters(replace)` is modelled without its parameter, because every caller passes `true`.
- The breed selector's options markup and helper text are left out.
- Races between breed-list answers are not modelled.
- Ajax.MergePetResults, Ajax.SortByDistance, Ajax.MergeOf: sort with the corrected comparator (see
  Findings), by exact distance, not with the integer-cast comparator as written; the order PHP's
  `usort` gives pets less than 1 apart is not modelled.
- PetFinder.PetSearchGrid.Answer: uses the corrected `ErrorView` (see Findings), not the error
  display as written.

## Findings

| source | as written | input that shows it | evidently intended | confidence | as-written member | corrected member |
|---|---|---|---|---|---|---|
| includes/ajax-handlers.php:229-233 | the `usort` comparator returns `$dist_a - $dist_b`, a float that PHP casts to int, so distances less than 1 apart compare equal and the order is not transitive | pets 1.7 and 1.2 away compare equal both ways, so the farther one may come first; 2.5, 1.6, 0.7 break transitivity | the merged list sorted by distance | medium; not executed | Ajax.AsWrittenTiesNearbyPets, Ajax.AsWrittenIsNotAnOrder | Ajax.MergeOf, Ajax.MergeOfContract |
| assets/js/pet-finder.js:225-251 | `showError` fills the grid but never shows it, and an empty result hides the grid | a search with `total` 0, then a search that fails: the error notice is placed in the hidden grid, and the "no results" notice is hidden too | the error notice is visible | medium; not executed | PetFinder.ErrorViewAsWritten, PetFinder.ErrorAfterNoResultsIsHidden | PetFinder.ErrorView, PetFinder.ErrorIsAlwaysSeen |
