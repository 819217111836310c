/**
 * The browser-side search grid controller: the paging state (`currentPage`, `loading`,
 * `hasMore`), the query it sends (`petType`, `filters`), the filter form it reads, and what
 * the page shows. Each handler the page wires up (tab click, form submit, clear, scroll, the
 * answer to a request) is a method; a request is appended to `requests` when it is sent, and
 * its answer arrives later as a separate call naming it.
 */
module PetFinder {
  import opened Wrappers
  import opened Php
  import opened JsonApi
  import opened ApiClient
  import opened Ajax

  const EitherType := "either"
  /** Distance in pixels from the bottom of the document at which the next page is fetched. */
  const ScrollMargin := 500
  const ZipLength := 5
  const ConnectionMessage := "Unable to load pets. Please check your internet connection and try again."

  /** The values of the six filter fields of the form. */
  datatype Form = Form(location: string, distance: string, breed: string, age: string, sex: string, size: string)

  /** A reset form: every field back to its empty first option. */
  const EmptyForm := Form("", "", "", "", "", "")

  /** `getFilters`: the six fields under the names the server whitelists, in the same order. */
  function FormFilters(f: Form): (p: Pairs)
    ensures |p| == |WhitelistOrder| && forall i :: 0 <= i < |p| ==> p[i].0 == WhitelistOrder[i]
  {
    [("location", f.location), ("distance", f.distance), ("breed", f.breed),
     ("age", f.age), ("sex", f.sex), ("size", f.size)]
  }

  /** The value of the form field sent under the whitelisted key `k`. */
  function FieldOf(f: Form, k: string): string
    requires k in WhitelistOrder
  {
    if k == "location" then f.location
    else if k == "distance" then f.distance
    else if k == "breed" then f.breed
    else if k == "age" then f.age
    else if k == "sex" then f.sex
    else f.size
  }

  /**
   * What the server makes of a submitted form: a filter is kept exactly when its field is
   * filled in (not empty and not "0"), and then with the sanitised field value.
   */
  lemma FormReachesServer(f: Form, sanitize: string -> string)
    ensures var kept := Kept(WhitelistOrder, FormFilters(f), sanitize);
      && DistinctKeys(kept)
      && (forall k :: k in WhitelistOrder ==> (HasKey(kept, k) <==> !EmptyString(FieldOf(f, k))))
      && (forall k :: k in WhitelistOrder && !EmptyString(FieldOf(f, k)) ==> Get(kept, k) == sanitize(FieldOf(f, k)))
  {
    var t5 := [("size", f.size)];
    var t4 := [("sex", f.sex)] + t5;
    var t3 := [("age", f.age)] + t4;
    var t2 := [("breed", f.breed)] + t3;
    var t1 := [("distance", f.distance)] + t2;
    var p := [("location", f.location)] + t1;
    assert p == FormFilters(f);
    GetCons(("location", f.location), t1);
    GetCons(("distance", f.distance), t2);
    GetCons(("breed", f.breed), t3);
    GetCons(("age", f.age), t4);
    GetCons(("sex", f.sex), t5);
    GetCons(("size", f.size), []);
    forall k | k in WhitelistOrder
      ensures Get(p, k) == FieldOf(f, k)
    {
    }
    KeptShape(WhitelistOrder, p, sanitize);
  }

  /** Reading an array whose first entry is `e`. */
  lemma GetCons(e: (string, string), rest: Pairs)
    ensures forall k :: Get([e] + rest, k) == if e.0 == k then e.1 else Get(rest, k)
  {
    assert ([e] + rest)[1..] == rest;
  }

  /** The ZIP check on the location field: exactly five ASCII digits. */
  predicate IsZipCode(s: string)
  {
    |s| == ZipLength && AllDigits(s)
  }

  /**
   * The ZIP tick is advice only: a location with the tick always reaches the server, and so
   * does any other filled-in location, ticked or not.
   */
  lemma ZipTickIsAdvisory(f: Form, sanitize: string -> string)
    ensures var kept := Kept(WhitelistOrder, FormFilters(f), sanitize);
      && (IsZipCode(f.location) ==> HasKey(kept, "location") && Get(kept, "location") == sanitize(f.location))
      && (HasKey(kept, "location") <==> !EmptyString(f.location))
  {
    FormReachesServer(f, sanitize);
    if IsZipCode(f.location) {
      assert f.location != "" && f.location != "0";
    }
  }

  /** The window's scroll offset and height and the document height, in whole pixels. */
  datatype Scroll = Scroll(top: int, height: int, documentHeight: int)

  /**
   * `shouldLoadMore`: never while a request is out or after the last page; otherwise when the
   * bottom of the window is within `ScrollMargin` pixels of the end of the document.
   */
  function ShouldLoadMore(loading: bool, hasMore: bool, s: Scroll): (load: bool)
    ensures load <==> !loading && hasMore && s.top + s.height >= s.documentHeight - ScrollMargin
    // In particular, reaching the very end of the document loads the next page.
    ensures !loading && hasMore && s.top + s.height >= s.documentHeight ==> load
  {
    if loading || !hasMore then false
    else s.top + s.height >= s.documentHeight - ScrollMargin
  }

  /** One `paf_filter_pets` request as sent: the query, the page, and whether its answer replaces the grid. */
  datatype PetsQuery = PetsQuery(petType: string, filters: Pairs, page: int, replace: bool)

  /** How a request ends: the server's page of results, the server's error, or no answer at all. */
  datatype PetsAnswer = Success(html: string, hasMore: bool, total: int) | ErrorReply(message: string) | TransportError

  /**
   * Every request either starts a query afresh at page 1 (and replaces the grid), or asks for
   * the page after the one requested just before it, with the same pet type and filters.
   */
  ghost predicate WellPaged(reqs: seq<PetsQuery>) {
    forall i :: 0 <= i < |reqs| ==>
      if reqs[i].replace then reqs[i].page == 1
      else (0 < i && reqs[i].page == reqs[i - 1].page + 1
            && reqs[i].petType == reqs[i - 1].petType && reqs[i].filters == reqs[i - 1].filters)
  }

  lemma WellPagedSnoc(reqs: seq<PetsQuery>, q: PetsQuery)
    requires WellPaged(reqs)
    requires q.replace ==> q.page == 1
    requires !q.replace ==> (reqs != [] && q.page == reqs[|reqs| - 1].page + 1
                             && q.petType == reqs[|reqs| - 1].petType && q.filters == reqs[|reqs| - 1].filters)
    ensures WellPaged(reqs + [q])
  {
    var s := reqs + [q];
    forall i | 0 <= i < |s|
      ensures if s[i].replace then s[i].page == 1
        else 0 < i && s[i].page == s[i - 1].page + 1 && s[i].petType == s[i - 1].petType && s[i].filters == s[i - 1].filters
    {
      if i < |reqs| {
        assert s[i] == reqs[i];
        assert reqs[i].replace || (0 < i && reqs[i].page == reqs[i - 1].page + 1
          && reqs[i].petType == reqs[i - 1].petType && reqs[i].filters == reqs[i - 1].filters);
        if 0 < i {
          assert s[i - 1] == reqs[i - 1];
        }
      } else {
        assert s[i] == q;
        if 0 < i {
          assert s[i - 1] == reqs[|reqs| - 1];
        }
      }
    }
  }

  /** The latest request at or before `i` that started its query afresh. */
  function LastReset(reqs: seq<PetsQuery>, i: nat): (r: nat)
    requires i < |reqs|
    ensures r <= i && (r == 0 || reqs[r].replace)
    ensures forall j :: r < j <= i ==> !reqs[j].replace
  {
    if i == 0 || reqs[i].replace then i else LastReset(reqs, i - 1)
  }

  /**
   * Pages are counted from the request that started the query: the `n`-th request after it
   * asks for page `n + 1`, for the same pet type and filters.
   */
  lemma {:induction false} PagesCountFromReset(reqs: seq<PetsQuery>, i: nat)
    requires WellPaged(reqs) && i < |reqs|
    ensures var r := LastReset(reqs, i);
      && reqs[r].replace
      && reqs[i].page == i - r + 1
      && reqs[i].petType == reqs[r].petType && reqs[i].filters == reqs[r].filters
  {
    assert reqs[i].replace || (0 < i && reqs[i].page == reqs[i - 1].page + 1);
    if i > 0 && !reqs[i].replace {
      PagesCountFromReset(reqs, i - 1);
    }
  }

  /** One piece of the results grid. */
  datatype GridPart = LoadingPlaceholder | Items(html: string) | ErrorNotice(message: string)

  /** What the page shows: the grid's contents and which of the grid and the three notices are visible. */
  datatype View = View(grid: seq<GridPart>, gridShown: bool, noResultsShown: bool, endMessageShown: bool, spinnerShown: bool)

  const InitialView := View([], true, false, false, false)

  /** A request going out: a fresh query blanks the grid to a placeholder, a further page shows the spinner. */
  function LoadingView(v: View, replace: bool): (w: View)
    ensures replace ==> w.grid == [LoadingPlaceholder] && !w.noResultsShown && !w.endMessageShown
    ensures !replace ==> w == v.(spinnerShown := true)
    ensures w.gridShown == v.gridShown
  {
    if replace then v.(grid := [LoadingPlaceholder], noResultsShown := false, endMessageShown := false)
    else v.(spinnerShown := true)
  }

  /** A page of results arriving. */
  function ResultsView(v: View, replace: bool, html: string, hasMore: bool, total: int): View {
    v.(grid := if replace then [Items(html)] else v.grid + [Items(html)],
       endMessageShown := !hasMore && total > 0,
       noResultsShown := total == 0,
       gridShown := total != 0)
  }

  /**
   * After a page of results exactly one of the grid and the "no results" notice is visible, the
   * end-of-results notice only below a non-empty grid, and the new items are the grid's last part.
   */
  lemma ResultsViewShowsOne(v: View, replace: bool, html: string, hasMore: bool, total: int)
    ensures var w := ResultsView(v, replace, html, hasMore, total);
      && (w.gridShown <==> !w.noResultsShown)
      && (w.endMessageShown ==> w.gridShown && !hasMore)
      && w.grid != [] && w.grid[|w.grid| - 1] == Items(html)
      && (replace ==> |w.grid| == 1) && (!replace ==> w.grid[..|v.grid|] == v.grid)
  {
  }

  /** `showError` as written: the notice replaces the grid, whose visibility is left as it was. */
  function ErrorViewAsWritten(v: View, message: string): View {
    v.(grid := [ErrorNotice(message)])
  }

  /** An empty result hides the grid and nothing shows it again, so a failure after it goes unseen. */
  lemma ErrorAfterNoResultsIsHidden(v: View, html: string, hasMore: bool, message: string)
    ensures var w := ErrorViewAsWritten(LoadingView(ResultsView(v, true, html, hasMore, 0), true), message);
      && w.grid == [ErrorNotice(message)] && !w.gridShown && !w.noResultsShown
  {
  }

  /** `showError` as intended: the notice replaces the grid and the grid is shown. */
  function ErrorView(v: View, message: string): (w: View)
    ensures w.grid == [ErrorNotice(message)] && w.gridShown
  {
    v.(grid := [ErrorNotice(message)], gridShown := true)
  }

  /** Whatever was shown before, an error is visible once it is reported. */
  lemma ErrorIsAlwaysSeen(v: View, html: string, hasMore: bool, message: string)
    ensures var w := ErrorView(LoadingView(ResultsView(v, true, html, hasMore, 0), true), message);
      && w.grid == [ErrorNotice(message)] && w.gridShown
  {
  }

  /** `PetSearchGrid`: the controller object and the parts of the page it drives. */
  class PetSearchGrid {
    var currentPage: int
    var loading: bool
    var hasMore: bool
    var filters: Pairs
    var petType: string
    /** The filter form and the breed selector's state. */
    var form: Form
    var breedDisabled: bool
    var breedOptions: seq<string>
    var zipIconShown: bool
    var view: View
    /** Every `paf_filter_pets` request sent, in order, and the indices of those already answered. */
    var requests: seq<PetsQuery>
    var answered: set<nat>
    /** Every `paf_load_breeds` request sent, by pet type. */
    var breedRequests: seq<string>

    /**
     * The page number is positive; the requests are well paged; `loading` is only set while the
     * latest request is unanswered; and the ZIP tick shows exactly when the location is a ZIP code.
     */
    ghost predicate Paged()
      reads this
    {
      && currentPage >= 1
      && requests != []
      && WellPaged(requests)
      && (forall r :: r in answered ==> r < |requests|)
      && (loading ==> |requests| - 1 !in answered)
      && zipIconShown == IsZipCode(form.location)
    }

    /** `Paged`, and the latest request is for the current type, filters and page. */
    ghost predicate Valid()
      reads this
    {
      && Paged()
      && requests[|requests| - 1].petType == petType
      && requests[|requests| - 1].filters == filters
      && requests[|requests| - 1].page == currentPage
    }

    /** The object's initial state followed by `init`, which loads the first page of dogs with no filters. */
    constructor ()
      ensures Valid()
      ensures requests == [PetsQuery(DefaultPetType, [], 1, true)] && answered == {}
      ensures currentPage == 1 && loading && hasMore && petType == DefaultPetType && filters == []
      ensures form == EmptyForm && breedDisabled && breedOptions == [] && breedRequests == []
      ensures view == LoadingView(InitialView, true)
    {
      currentPage := 1;
      loading := false;
      hasMore := true;
      filters := [];
      petType := DefaultPetType;
      form := EmptyForm;
      breedDisabled := true;
      breedOptions := [];
      zipIconShown := false;
      view := InitialView;
      requests := [];
      answered := {};
      breedRequests := [];
      new;
      LoadPets(true);
      WellPagedSnoc([], PetsQuery(DefaultPetType, [], 1, true));
    }

    /** `loadPets`: marks a request as out, updates the view, and sends the current query. */
    method LoadPets(replace: bool)
      modifies this
      ensures loading && view == LoadingView(old(view), replace)
      ensures requests == old(requests) + [PetsQuery(petType, filters, currentPage, replace)]
      ensures currentPage == old(currentPage) && hasMore == old(hasMore) && filters == old(filters)
      ensures petType == old(petType) && form == old(form) && breedDisabled == old(breedDisabled)
      ensures breedOptions == old(breedOptions) && zipIconShown == old(zipIconShown)
      ensures answered == old(answered) && breedRequests == old(breedRequests)
    {
      loading := true;
      view := LoadingView(view, replace);
      requests := requests + [PetsQuery(petType, filters, currentPage, replace)];
    }

    /** `applyFilters` (every caller asks for the grid to be replaced): the form becomes the query, from page 1. */
    method ApplyFilters()
      requires Paged()
      modifies this
      ensures Valid()
      ensures filters == FormFilters(old(form)) && currentPage == 1 && hasMore && loading
      ensures requests == old(requests) + [PetsQuery(old(petType), FormFilters(old(form)), 1, true)]
      ensures view == LoadingView(old(view), true)
      ensures petType == old(petType) && form == old(form) && breedDisabled == old(breedDisabled)
      ensures breedOptions == old(breedOptions) && answered == old(answered) && breedRequests == old(breedRequests)
    {
      filters := FormFilters(form);
      currentPage := 1;
      hasMore := true;
      WellPagedSnoc(requests, PetsQuery(petType, filters, 1, true));
      LoadPets(true);
    }

    /** The user changing the form; a disabled breed selector cannot be changed. The debounced reload is `ApplyFilters`. */
    method EditForm(f: Form)
      requires Valid()
      requires breedDisabled ==> f.breed == form.breed
      modifies this
      ensures Valid()
      ensures form == f && zipIconShown == IsZipCode(f.location)
      ensures currentPage == old(currentPage) && loading == old(loading) && hasMore == old(hasMore)
      ensures filters == old(filters) && petType == old(petType) && requests == old(requests)
      ensures view == old(view) && breedDisabled == old(breedDisabled) && breedOptions == old(breedOptions)
      ensures answered == old(answered) && breedRequests == old(breedRequests)
    {
      form := f;
      zipIconShown := IsZipCode(f.location);
    }

    /** The form's submit handler. */
    method Submit()
      requires Valid()
      modifies this
      ensures Valid()
      ensures filters == FormFilters(old(form)) && currentPage == 1 && hasMore && loading
      ensures requests == old(requests) + [PetsQuery(old(petType), FormFilters(old(form)), 1, true)]
      ensures view == LoadingView(old(view), true)
      ensures petType == old(petType) && form == old(form) && breedDisabled == old(breedDisabled)
      ensures breedOptions == old(breedOptions) && zipIconShown == old(zipIconShown)
      ensures answered == old(answered) && breedRequests == old(breedRequests)
    {
      ApplyFilters();
    }

    /** The clear button: the form is reset, the ZIP tick hidden, and the empty filters applied. */
    method ClearFilters()
      requires Valid()
      modifies this
      ensures Valid()
      ensures form == EmptyForm && !zipIconShown
      ensures filters == FormFilters(EmptyForm) && currentPage == 1 && hasMore && loading
      ensures requests == old(requests) + [PetsQuery(old(petType), FormFilters(EmptyForm), 1, true)]
      ensures view == LoadingView(old(view), true)
      ensures petType == old(petType) && breedDisabled == old(breedDisabled) && breedOptions == old(breedOptions)
      ensures answered == old(answered) && breedRequests == old(breedRequests)
    {
      form := EmptyForm;
      zipIconShown := false;
      filters := [];
      ApplyFilters();
    }

    /** `loadBreeds`: the breed selector is disabled and emptied while the type's breeds are fetched. */
    method LoadBreeds(forType: string)
      modifies this
      ensures breedDisabled && breedOptions == [] && form == old(form).(breed := "")
      ensures breedRequests == old(breedRequests) + [forType]
      ensures currentPage == old(currentPage) && loading == old(loading) && hasMore == old(hasMore)
      ensures filters == old(filters) && petType == old(petType) && requests == old(requests)
      ensures view == old(view) && answered == old(answered) && zipIconShown == old(zipIconShown)
    {
      breedDisabled := true;
      breedOptions := [];
      form := form.(breed := "");
      breedRequests := breedRequests + [forType];
    }

    /** The answer to a `loadBreeds` request: the breeds when it succeeded, none otherwise; the selector is enabled either way. */
    method BreedsAnswered(breeds: Option<seq<string>>)
      requires Valid()
      modifies this
      ensures Valid()
      ensures !breedDisabled && breedOptions == breeds.GetOr([]) && form == old(form).(breed := "")
      ensures currentPage == old(currentPage) && loading == old(loading) && hasMore == old(hasMore)
      ensures filters == old(filters) && petType == old(petType) && requests == old(requests)
      ensures view == old(view) && answered == old(answered) && breedRequests == old(breedRequests)
    {
      breedOptions := breeds.GetOr([]);
      breedDisabled := false;
      form := form.(breed := "");
    }

    /**
     * A tab click: the type changes; "either" disables and clears the breed selector, any other
     * type fetches its breeds; then the search restarts from page 1 with the form's filters.
     */
    method TabClick(newType: string)
      requires Valid()
      modifies this
      ensures Valid()
      ensures petType == newType && currentPage == 1 && hasMore && loading && breedDisabled
      ensures form == old(form).(breed := "") && filters == FormFilters(form)
      ensures requests == old(requests) + [PetsQuery(newType, FormFilters(old(form).(breed := "")), 1, true)]
      ensures breedRequests == if newType == EitherType then old(breedRequests) else old(breedRequests) + [newType]
      ensures breedOptions == if newType == EitherType then old(breedOptions) else []
      ensures view == LoadingView(old(view), true) && zipIconShown == old(zipIconShown)
      ensures answered == old(answered)
    {
      petType := newType;
      if newType == EitherType {
        breedDisabled := true;
        form := form.(breed := "");
      } else {
        LoadBreeds(newType);
      }
      currentPage := 1;
      hasMore := true;
      ApplyFilters();
    }

    /** `loadMorePets`: the next page of the same query, only when no request is out and more remain. */
    method LoadMorePets()
      requires Valid()
      modifies this
      ensures Valid()
      ensures old(!loading && hasMore) ==>
        && currentPage == old(currentPage) + 1 && loading
        && requests == old(requests) + [PetsQuery(petType, filters, old(currentPage) + 1, false)]
        && view == LoadingView(old(view), false)
      ensures !old(!loading && hasMore) ==> unchanged(this)
      ensures petType == old(petType) && filters == old(filters) && hasMore == old(hasMore)
      ensures form == old(form) && answered == old(answered) && breedDisabled == old(breedDisabled)
      ensures breedOptions == old(breedOptions) && zipIconShown == old(zipIconShown) && breedRequests == old(breedRequests)
    {
      if !loading && hasMore {
        currentPage := currentPage + 1;
        WellPagedSnoc(requests, PetsQuery(petType, filters, currentPage, false));
        LoadPets(false);
      }
    }

    /** The window's scroll handler. */
    method OnScroll(s: Scroll)
      requires Valid()
      modifies this
      ensures Valid()
      ensures ShouldLoadMore(old(loading), old(hasMore), s) ==>
        && currentPage == old(currentPage) + 1 && loading
        && requests == old(requests) + [PetsQuery(petType, filters, old(currentPage) + 1, false)]
        && view == LoadingView(old(view), false)
      ensures !ShouldLoadMore(old(loading), old(hasMore), s) ==> unchanged(this)
      ensures petType == old(petType) && filters == old(filters) && hasMore == old(hasMore)
      ensures form == old(form) && answered == old(answered) && breedDisabled == old(breedDisabled)
      ensures breedOptions == old(breedOptions) && zipIconShown == old(zipIconShown) && breedRequests == old(breedRequests)
    {
      if ShouldLoadMore(loading, hasMore, s) {
        LoadMorePets();
      }
    }

    /**
     * The answer to request `r`: results are shown in place of or after the grid as that request
     * asked and set `hasMore`; an error is shown in the grid; either way `loading` is cleared and
     * the spinner hidden.
     */
    method Answer(r: nat, answer: PetsAnswer)
      requires Valid()
      requires r < |requests| && r !in answered
      modifies this
      ensures Valid()
      ensures !loading && answered == old(answered) + {r}
      ensures answer.Success? ==> (hasMore == answer.hasMore
        && view == ResultsView(old(view), requests[r].replace, answer.html, answer.hasMore, answer.total).(spinnerShown := false))
      ensures answer.ErrorReply? ==> hasMore == old(hasMore) && view == ErrorView(old(view), answer.message).(spinnerShown := false)
      ensures answer.TransportError? ==> hasMore == old(hasMore) && view == ErrorView(old(view), ConnectionMessage).(spinnerShown := false)
      ensures currentPage == old(currentPage) && filters == old(filters) && petType == old(petType)
      ensures requests == old(requests) && form == old(form) && zipIconShown == old(zipIconShown)
      ensures breedDisabled == old(breedDisabled) && breedOptions == old(breedOptions) && breedRequests == old(breedRequests)
    {
      var replace := requests[r].replace;
      match answer {
        case Success(html, more, total) =>
          hasMore := more;
          view := ResultsView(view, replace, html, more, total);
        case ErrorReply(message) =>
          view := ErrorView(view, message);
        case TransportError =>
          view := ErrorView(view, ConnectionMessage);
      }
      loading := false;
      view := view.(spinnerShown := false);
      answered := answered + {r};
    }
  }

  /**
   * Once the API reports the last page, the server's reply says there is no more, and the grid
   * that takes that reply never fetches another page on scrolling, wherever the window is.
   */
  lemma NoMorePagesAfterLastPage(response: ApiResult<ListDoc>, page: nat, loading: bool, s: Scroll)
    requires response.Ok?
    requires var m := response.doc.meta; m.pageReturned.Some? && m.pages.Some? && m.pageReturned.value >= m.pages.value
    ensures Respond(response, page).JsonPets? && !Respond(response, page).hasMore
    ensures !ShouldLoadMore(loading, Respond(response, page).hasMore, s)
  {
    RespondPaging(response, page);
  }
}
